/** The libssh2 calls that the bindings make, as a log, and what it means for a
    log to be safe. libssh2 itself is an environment: a constructor returns a
    fresh handle or NULL, and closing NULL is an error without effect. */
module LibSsh2 {

  type Ptr = nat
  const NULL: Ptr := 0

  datatype Kind = Sess | Chan | Sftp | Listen | Dir | File

  /** `Opened` records a constructor that returned the handle `p` below `parent`;
      `wrapped` tells whether the Python wrapper for it could be allocated. `Started`
      is a startup that succeeded, `Use` one that failed, or a constructor that did. A
      method that gives up the interpreter lock uses its handle from `Enter` to `Leave`. A
      call that closes a handle or disconnects gives up the lock too: it is logged when it
      starts, and `Back(q)` is its end, with `q` what the handle hangs below (the end of
      `ChannelClose` is `ChannelFree`, made with the lock held again). */
  datatype Call =
    | Opened(kind: Kind, p: Ptr, parent: Ptr, wrapped: bool)
    | Started(p: Ptr)
    | Use(p: Ptr)
    | Enter(p: Ptr)
    | Leave(p: Ptr)
    | CloseHandle(p: Ptr)
    | Shutdown(p: Ptr)
    | ChannelClose(p: Ptr)
    | ChannelFree(p: Ptr)
    | Cancel(p: Ptr)
    | Disconnect(p: Ptr)
    | SessionFree(p: Ptr)
    | Back(p: Ptr)

  type Log = seq<Call>

  /** The one call that gives a handle of this kind back to libssh2. */
  function ReleaseOf(k: Kind, p: Ptr): Call {
    match k
    case Sess => SessionFree(p)
    case Chan => ChannelFree(p)
    case Sftp => Shutdown(p)
    case Listen => Cancel(p)
    case Dir => CloseHandle(p)
    case File => CloseHandle(p)
  }

  /** What closing a wrapper's handle, which hangs below `q`, asks of libssh2: nothing
      for a NULL channel or sftp, a call with NULL, which comes back at once, for the
      other kinds. */
  function CloseCalls(k: Kind, p: Ptr, q: Ptr): Log {
    match k
    case Sess => []
    case Chan => if p == NULL then [] else [ChannelClose(p), ChannelFree(p)]
    case Sftp => if p == NULL then [] else [Shutdown(p)]
    case Dir => [CloseHandle(p)] + (if p == NULL then [] else [Back(q)])
    case File => [CloseHandle(p)] + (if p == NULL then [] else [Back(q)])
    case Listen => [Cancel(p)] + (if p == NULL then [] else [Back(q)])
  }

  ghost function Times(log: Log, c: Call): nat {
    multiset(log)[c]
  }

  predicate Live(log: Log, k: Kind, p: Ptr, parent: Ptr) {
    Opened(k, p, parent, true) in log && ReleaseOf(k, p) !in log
  }

  /** `p` was handed out, was not given back, and neither was anything it hangs below. */
  ghost predicate Usable(log: Log, p: Ptr) {
    || Live(log, Sess, p, NULL)
    || (exists k, x :: k in {Chan, Sftp, Listen} && Live(log, k, p, x) && Live(log, Sess, x, NULL))
    || (exists k, s, x :: k in {Dir, File} && Live(log, k, p, s) && Live(log, Sftp, s, x) && Live(log, Sess, x, NULL))
  }

  /** Every wrapped handle below `p`, listeners aside, has been given back. */
  ghost predicate ChildrenReleased(log: Log, p: Ptr) {
    forall k, c :: Opened(k, c, p, true) in log && k != Listen ==> ReleaseOf(k, c) in log
  }

  ghost predicate NeverIssued(log: Log, p: Ptr) {
    forall k, q, w :: Opened(k, p, q, w) !in log
  }

  /** What each call may rely on when the calls in `log` came before it, in every run.
      The methods of wrappers, the cancellation of listeners and the end of a close are
      exempt: these can come too late, see `Strict`. */
  ghost predicate CallOk(log: Log, c: Call) {
    match c
    case Opened(k, p, q, _) => p != NULL && NeverIssued(log, p) && (k == Sess || Usable(log, q))
    case Started(p) => Usable(log, p)
    case Use(p) => Usable(log, p)
    case Enter(_) => true
    case Leave(_) => true
    case Back(_) => true
    case CloseHandle(p) => p == NULL || Usable(log, p)
    case Shutdown(p) => Usable(log, p) && ChildrenReleased(log, p)
    case ChannelClose(p) => Usable(log, p)
    case ChannelFree(p) => Usable(log, p)
    case Cancel(_) => true
    case Disconnect(p) => Live(log, Sess, p, NULL)
    case SessionFree(p) => Live(log, Sess, p, NULL) && ChildrenReleased(log, p)
  }

  /** What all calls should rely on. */
  ghost predicate Strict(log: Log, c: Call) {
    match c
    case Enter(p) => Usable(log, p)
    case Leave(p) => Usable(log, p)
    case Back(q) => Usable(log, q)
    case Cancel(p) => p == NULL || Usable(log, p)
    case _ => CallOk(log, c)
  }

  ghost predicate SafeLog(log: Log) {
    forall i {:trigger log[i]} :: 0 <= i < |log| ==> CallOk(log[..i], log[i])
  }

  /** In addition nothing of a session is left open when it says goodbye. */
  ghost predicate OrderedLog(log: Log) {
    forall i {:trigger log[i]} :: 0 <= i < |log| && log[i].Disconnect? ==> ChildrenReleased(log[..i], log[i].p)
  }

  lemma SafeLogAppend(log: Log, c: Call)
    requires SafeLog(log) && CallOk(log, c)
    ensures SafeLog(log + [c])
  {
    forall i {:trigger (log + [c])[i]} | 0 <= i < |log + [c]| ensures CallOk((log + [c])[..i], (log + [c])[i]) {
      if i < |log| {
        assert (log + [c])[..i] == log[..i];
        assert log[i] == (log + [c])[i];
      } else {
        assert (log + [c])[..i] == log;
      }
    }
  }

  lemma OrderedLogAppend(log: Log, c: Call)
    requires OrderedLog(log) && (c.Disconnect? ==> ChildrenReleased(log, c.p))
    ensures OrderedLog(log + [c])
  {
    var log' := log + [c];
    forall i {:trigger log'[i]} | 0 <= i < |log'| && log'[i].Disconnect?
      ensures ChildrenReleased(log'[..i], log'[i].p)
    {
      assert i < |log| ==> log'[..i] == log[..i] && log'[i] == log[i];
      assert i == |log| ==> log'[..i] == log;
    }
  }
}
