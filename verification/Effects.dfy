/** What each call of the API does, spelled out: the wrapper, the sets, the counts, the
    thread it starts and the call it makes, and that all else stays as it is. */
module Effects {
  import opened LibSsh2
  import opened Machine
  import opened Invariant
  import opened Preservation
  import opened SessionPreservation
  import opened LogPreservation
  import opened Steps

  // What stays

  /** The sets are as they were, but `o` no longer keeps `c`. */
  ghost predicate LosesMember(st: State, st': State, o: Ptr, c: Ptr)
    requires c in st.objs
  {
    forall a, b {:trigger Members(st', a, b)} ::
      Members(st', a, b) == if a == o && b == st.objs[c].kind then Members(st, a, b) - {c} else Members(st, a, b)
  }

  ghost predicate SameSets(st: State, st': State) {
    forall a, b {:trigger Members(st', a, b)} :: Members(st', a, b) == Members(st, a, b)
  }

  // Explicit closes

  /** The call that an explicit close makes first, and where its thread stands then. */
  function FirstCall(k: Kind, p: Ptr): Log {
    match k
    case Chan => [ChannelClose(p)]
    case Sftp => []
    case Listen => [Cancel(p)]
    case _ => [CloseHandle(p)]
  }

  function FirstPc(k: Kind, c: Ptr): Pc {
    match k
    case Chan => InChannel(c)
    case Sftp => AtDirs(c)
    case Listen => InCancel(c)
    case _ => InClose(c)
  }

  /** An explicit close of the open wrapper `c` through `o` has begun: `o` no longer
      keeps it, a new thread has it in its hands and a reference to it, and one to the
      session `via`; the first call is made. */
  ghost predicate Begins(st: State, st': State, o: Ptr, c: Ptr, via: Ptr)
    requires c in st.objs
  {
    var w := st.objs[c];
    && st'.threads == st.threads + [Thread(Shut(c, via), FirstPc(w.kind, c))]
    && st'.log == st.log + FirstCall(w.kind, c)
    && st'.objs == st.objs[c := w.(
         refs := w.refs + (if c in Members(st, o, w.kind) then 0 else 1), holder := |st.threads|)]
    && LosesMember(st, st', o, c)
    && (via == NULL ==> st'.sessions == st.sessions)
    && (via != NULL ==> via in st.sessions)
    && (via != NULL ==> st'.sessions == st.sessions[via := st.sessions[via].(refs := st.sessions[via].refs + 1)])
    && st'.inside == st.inside && st'.issued == st.issued
  }

  /** The same for a wrapper that is closed already: it is discarded, and the C function
      is called with NULL or not at all. */
  ghost predicate BeginsNothing(st: State, st': State, o: Ptr, c: Ptr, calls: Log)
    requires c in st.objs
  {
    var w := st.objs[c];
    && st'.threads == st.threads && st'.log == st.log + calls && st'.sessions == st.sessions
    && st'.objs == st.objs[c := w.(refs := if c in Members(st, o, w.kind) then Less(w.refs) else w.refs)]
    && LosesMember(st, st', o, c)
    && st'.inside == st.inside && st'.issued == st.issued
  }

  /** Closing a channel, shutting an sftp down or cancelling a listener through session `x`. */
  ghost predicate ClosesChild(st: State, st': State, x: Ptr, c: Ptr)
    requires c in st.objs
  {
    var w := st.objs[c];
    if w.ptr == NULL then BeginsNothing(st, st', x, c, if w.kind == Listen then [Cancel(NULL)] else [])
    else Begins(st, st', x, c, if w.owner == x then x else NULL)
  }

  lemma CloseNullEffect(st: State, x: Ptr, c: Ptr)
    requires Inv(st) && Enabled(st, Action.CloseChannel(x, c)) && st.objs[c].ptr == NULL
    ensures BeginsNothing(st, Apply(st, Action.CloseChannel(x, c)), x, c, [])
  {
    assert WrapperOk(st, c);
    assert st.log + [] == st.log;
  }

  lemma CloseChannelEffect(st: State, x: Ptr, c: Ptr)
    requires Inv(st) && Enabled(st, Action.CloseChannel(x, c))
    ensures ClosesChild(st, Apply(st, Action.CloseChannel(x, c)), x, c)
  {
    if st.objs[c].ptr == NULL {
      CloseNullEffect(st, x, c);
    } else {
      assert WrapperOk(st, c) && SessionOk(st, x);
    }
  }

  lemma ShutdownNullEffect(st: State, x: Ptr, s: Ptr)
    requires Inv(st) && Enabled(st, Action.ShutdownSftp(x, s)) && st.objs[s].ptr == NULL
    ensures BeginsNothing(st, Apply(st, Action.ShutdownSftp(x, s)), x, s, [])
  {
    assert WrapperOk(st, s);
    assert st.log + [] == st.log;
  }

  lemma ShutdownSftpEffect(st: State, x: Ptr, s: Ptr)
    requires Inv(st) && Enabled(st, Action.ShutdownSftp(x, s))
    ensures ClosesChild(st, Apply(st, Action.ShutdownSftp(x, s)), x, s)
  {
    if st.objs[s].ptr == NULL {
      ShutdownNullEffect(st, x, s);
    } else {
      assert WrapperOk(st, s) && SessionOk(st, x);
      assert st.log + [] == st.log;
    }
  }

  lemma CancelNullEffect(st: State, x: Ptr, l: Ptr)
    requires Inv(st) && Enabled(st, Action.CancelListener(x, l)) && st.objs[l].ptr == NULL
    ensures BeginsNothing(st, Apply(st, Action.CancelListener(x, l)), x, l, [Cancel(NULL)])
  {
    assert WrapperOk(st, l);
  }

  lemma CancelOpenEffect(st: State, x: Ptr, l: Ptr)
    requires Inv(st) && Enabled(st, Action.CancelListener(x, l)) && st.objs[l].ptr != NULL
    ensures Begins(st, Apply(st, Action.CancelListener(x, l)), x, l, if st.objs[l].owner == x then x else NULL)
  {
    assert WrapperOk(st, l) && SessionOk(st, x);
  }

  lemma CancelListenerEffect(st: State, x: Ptr, l: Ptr)
    requires Inv(st) && Enabled(st, Action.CancelListener(x, l))
    ensures ClosesChild(st, Apply(st, Action.CancelListener(x, l)), x, l)
  {
    if st.objs[l].ptr == NULL { CancelNullEffect(st, x, l); } else { CancelOpenEffect(st, x, l); }
  }

  /** A closed sftp closes nothing; an open one closes any directory or file. */
  lemma CloseFileEffect(st: State, s: Ptr, d: Ptr)
    requires Inv(st) && Enabled(st, Action.CloseFile(s, d))
    ensures var st' := Apply(st, Action.CloseFile(s, d));
      if st.objs[s].ptr == NULL then st' == st
      else if st.objs[d].ptr == NULL then BeginsNothing(st, st', s, d, [CloseHandle(NULL)])
      else Begins(st, st', s, d, NULL)
  {
    assert WrapperOk(st, d);
  }

  // Sessions

  /** A close of a session that is up starts a thread, which refers to the session; a
      close of one that is not does nothing. */
  lemma CloseSessionEffect(st: State, x: Ptr)
    requires Inv(st) && Enabled(st, Action.CloseSession(x))
    ensures var s := st.sessions[x];
      Apply(st, Action.CloseSession(x)) ==
        if !s.up then st
        else st.(sessions := st.sessions[x := s.(refs := s.refs + 1)],
                 threads := st.threads + [Thread(Close(x), AtSftps)])
  {
  }

  /** The program gives up a reference to a session; without any reference left, and only
      then, a thread starts to deallocate it. */
  lemma DropSessionEffect(st: State, x: Ptr)
    requires Inv(st) && Enabled(st, Action.DropSession(x))
    ensures st.sessions[x].user > 0 && st.sessions[x].refs > 0
    ensures var s := st.sessions[x];
      Apply(st, Action.DropSession(x)) ==
        if s.refs > 1 then st.(sessions := st.sessions[x := s.(user := s.user - 1, refs := s.refs - 1)])
        else st.(sessions := st.sessions[x := s.(user := s.user - 1, refs := 0, holder := |st.threads|)],
                 threads := st.threads + [Thread(Dealloc(x), if s.up then AtSftps else AtFree)])
  {
    assert SessionOk(st, x);
  }

  lemma ShareSessionEffect(st: State, x: Ptr)
    requires Enabled(st, Action.ShareSession(x))
    ensures var s := st.sessions[x];
      Apply(st, Action.ShareSession(x)) == st.(sessions := st.sessions[x := s.(user := s.user + 1, refs := s.refs + 1)])
  {
  }

  /** A new session belongs to the program, once, and is not up. */
  lemma NewSessionEffect(st: State, p: Ptr)
    requires Enabled(st, Action.NewSession(p))
    ensures Apply(st, Action.NewSession(p)) ==
      if p == NULL then st
      else st.(sessions := st.sessions[p := Session(p, false, 1, 1, -1)], issued := st.issued + {p},
               log := st.log + [Opened(Sess, p, NULL, true)])
  {
  }

  lemma StartupEffect(st: State, x: Ptr, ok: bool)
    requires Enabled(st, Action.Startup(x, ok))
    ensures var s := st.sessions[x];
      Apply(st, Action.Startup(x, ok)) ==
        st.(sessions := st.sessions[x := s.(up := s.up || ok)],
            log := st.log + [if ok then Started(s.ptr) else Use(s.ptr)])
  {
    assert st.sessions[x := st.sessions[x]] == st.sessions;
  }

  // Constructors

  /** A constructor of kind `k` below `o`, whose handle is `q`: libssh2 answers `p`. With
      no handle nothing happens; without a wrapper for it the handle is known to nobody;
      otherwise the program and the set of `o` have a reference each, and nobody will
      ever drop the `extra` ones. */
  ghost predicate Constructs(st: State, st': State, o: Ptr, q: Ptr, k: Kind, extra: nat, p: Ptr, alloc: bool) {
    && st'.sessions == st.sessions && st'.threads == st.threads && st'.inside == st.inside
    && st'.log == st.log + [if p == NULL then Use(q) else Opened(k, p, q, alloc)]
    && st'.issued == (if p == NULL then st.issued else st.issued + {p})
    && (p == NULL || !alloc ==> st'.objs == st.objs && SameSets(st, st'))
    && (p != NULL && alloc ==>
          && st'.objs == st.objs[p := Wrapper(k, o, p, 2 + extra, 1, extra, -1)]
          && (forall a, b {:trigger Members(st', a, b)} ::
                Members(st', a, b) == if a == o && b == k then Members(st, a, b) + {p} else Members(st, a, b)))
  }

  lemma OpenEffect(st: State, x: Ptr, k: Kind, recv: bool, p: Ptr, alloc: bool)
    requires Inv(st) && Enabled(st, Action.Open(x, k, recv, p, alloc))
    ensures Constructs(st, Apply(st, Action.Open(x, k, recv, p, alloc)), x, st.sessions[x].ptr, k,
                       if k == Chan && recv then 1 else 0, p, alloc)
  {
  }

  lemma OpenHandleEffect(st: State, s: Ptr, k: Kind, p: Ptr, alloc: bool)
    requires Inv(st) && Enabled(st, Action.OpenHandle(s, k, p, alloc))
    ensures var st' := Apply(st, Action.OpenHandle(s, k, p, alloc));
      if st.objs[s].ptr == NULL then st' == st else Constructs(st, st', s, st.objs[s].ptr, k, 0, p, alloc)
  {
  }

  // References and methods

  lemma ShareEffect(st: State, c: Ptr)
    requires Enabled(st, Action.Share(c))
    ensures var w := st.objs[c];
      Apply(st, Action.Share(c)) == st.(objs := st.objs[c := w.(user := w.user + 1, refs := w.refs + 1)])
  {
  }

  /** The program gives up a reference. If it was the last one to an open listener, a
      thread starts to cancel that and keeps the reference meanwhile. */
  lemma DropEffect(st: State, c: Ptr)
    requires Inv(st) && Enabled(st, Action.Drop(c))
    ensures st.objs[c].user > 0 && st.objs[c].refs > 0
    ensures var w, st' := st.objs[c], Apply(st, Action.Drop(c));
      st' ==
        if w.kind == Listen && w.ptr != NULL && w.refs == 1 then
          st.(objs := st.objs[c := w.(user := w.user - 1, holder := |st.threads|)],
              threads := st.threads + [Thread(Shut(c, NULL), InCancel(c))], log := st.log + [Cancel(w.ptr)])
        else st.(objs := st.objs[c := w.(user := w.user - 1, refs := w.refs - 1)])
  {
    assert WrapperOk(st, c);
  }

  /** A method of a closed wrapper does nothing; any other enters libssh2, with a
      reference to the wrapper, */
  lemma MethodEffect(st: State, c: Ptr)
    requires Enabled(st, Action.Method(c))
    ensures var w := st.objs[c];
      Apply(st, Action.Method(c)) ==
        if w.ptr == NULL then st
        else st.(objs := st.objs[c := w.(user := w.user + 1, refs := w.refs + 1)],
                 inside := st.inside + multiset{c}, log := st.log + [Enter(w.ptr)])
  {
  }

  /** and comes back on the same handle, whatever became of the wrapper. */
  lemma ReturnEffect(st: State, c: Ptr)
    requires Inv(st) && Enabled(st, Action.Return(c))
    ensures st.objs[c].user > 0 && st.objs[c].refs > 0
    ensures var w := st.objs[c];
      Apply(st, Action.Return(c)) ==
        st.(objs := st.objs[c := w.(user := w.user - 1, refs := w.refs - 1)],
            inside := st.inside - multiset{c}, log := st.log + [Leave(c)])
  {
    assert WrapperOk(st, c);
  }

  // Threads that close one wrapper

  /** Thread `i` is done with the wrapper `c`, which it nulls and gives its reference up
      to; it goes on at `pc`. */
  ghost predicate Closed(st: State, st': State, i: nat, c: Ptr, pc: Pc, call: Call)
    requires i < |st.threads| && c in st.objs
  {
    var w := st.objs[c];
    && w.refs > 0
    && st' == st.(objs := st.objs[c := w.(ptr := NULL, holder := -1, refs := w.refs - 1)],
                  threads := st.threads[i := st.threads[i].(pc := pc)], log := st.log + [call])
  }

  lemma FinishCloses(st: State, i: nat, c: Ptr, pc: Pc, call: Call)
    requires i < |st.threads| && c in st.objs && st.objs[c].refs > 0
    ensures Closed(st, Finish(Logged(st, [call]), i, c, pc), i, c, pc, call)
  {
    FinishShape(Logged(st, [call]), i, c, pc);
  }

  /** The step that ends an explicit close: of a channel with its free, of an sftp with
      its shutdown, of the others when their call comes back. What held a session gives
      that up in a step of its own. */
  lemma CloseEndEffect(st: State, i: nat, c: Ptr, pick: Ptr)
    requires Inv(st) && CanRun(st, i, pick) && st.threads[i].root.Shut? && st.threads[i].root.c == c
    requires st.threads[i].pc in {InChannel(c), AtShut(c), InCancel(c), InClose(c)}
    ensures c in st.objs && st.objs[c].ptr == c
    ensures Closed(st, RunThread(st, i, pick), i, c, if st.threads[i].root.via == NULL then Done else AtReturn,
                   match st.objs[c].kind
                   case Chan => ChannelFree(c)
                   case Sftp => Shutdown(c)
                   case _ => Back(st.objs[c].owner))
  {
    assert ThreadOk(st, i) && WrapperOk(st, c);
    var next := if st.threads[i].root.via == NULL then Done else AtReturn;
    match st.threads[i].pc
    case InChannel(_) => FinishCloses(st, i, c, next, ChannelFree(c));
    case AtShut(_) => FinishCloses(st, i, c, next, Shutdown(c));
    case InCancel(_) => FinishCloses(st, i, c, next, Back(st.objs[c].owner));
    case InClose(_) => FinishCloses(st, i, c, next, Back(st.objs[c].owner));
  }

  /** That step: the frame's reference to the session is dropped, and if it was the last
      one the thread goes on to deallocate the session. */
  lemma CloseReturnEffect(st: State, i: nat, pick: Ptr)
    requires Inv(st) && CanRun(st, i, pick) && st.threads[i].pc == AtReturn
    ensures var x := st.threads[i].root.via; x in st.sessions && st.sessions[x].refs > 0
    ensures var x := st.threads[i].root.via; var s := st.sessions[x];
      RunThread(st, i, pick) ==
        if s.refs > 1 then
          st.(sessions := st.sessions[x := s.(refs := s.refs - 1)],
              threads := st.threads[i := st.threads[i].(pc := Done)])
        else
          st.(sessions := st.sessions[x := s.(refs := 0, holder := i)],
              threads := st.threads[i := Thread(Dealloc(x), if s.up then AtSftps else AtFree)])
  {
    assert ThreadOk(st, i);
    ReturningSession(st, i);
  }
}
