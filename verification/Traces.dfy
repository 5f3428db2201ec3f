/** Traces of the teardown loops: which calls, and in which orders they may come. */
module Traces {
  import opened LibSsh2

  /** `order` lists the members of `s`, each once. */
  ghost predicate Lists<T>(order: seq<T>, s: set<T>) {
    && (forall x :: x in order ==> x in s) && (forall x :: x in s ==> x in order)
    && (forall i, j :: 0 <= i < j < |order| ==> order[i] != order[j])
  }

  ghost function CallsOf<T>(order: seq<T>, calls: map<T, Log>): Log {
    if order == [] then []
    else
      var x := order[|order| - 1];
      CallsOf(order[..|order| - 1], calls) + (if x in calls then calls[x] else [])
  }

  /** The loop over `calls.Keys` has dealt with all but `rest`, in this order, and
      taken the log from `log0` to `log`. */
  ghost predicate Traced<T>(order: seq<T>, calls: map<T, Log>, rest: set<T>, log0: Log, log: Log) {
    Lists(order, calls.Keys - rest) && log == log0 + CallsOf(order, calls)
  }

  lemma TracedAppend<T>(order: seq<T>, calls: map<T, Log>, rest: set<T>, log0: Log, log: Log, x: T)
    requires x in calls && x !in rest && Traced(order, calls, rest + {x}, log0, log)
    ensures Traced(order + [x], calls, rest, log0, log + calls[x])
  {
    assert (order + [x])[..|order|] == order;
  }

  /** An sftp before its shutdown: its handle, and the call that closes each member
      of its two sets. */
  datatype SftpView<H> = SftpView(ptr: Ptr, directories: map<H, Log>, files: map<H, Log>)

  /** The order in which one shutdown pops the two sets of `s`. */
  datatype SftpOrder<S, H> = SftpOrder(s: S, ds: seq<H>, fs: seq<H>)

  ghost predicate Follows<S, H>(o: SftpOrder<S, H>, v: SftpView<H>) {
    Lists(o.ds, v.directories.Keys) && Lists(o.fs, v.files.Keys)
  }

  /** The calls of one shutdown: directories, files, then the sftp itself; none if
      it is already shut down. */
  ghost function ShutdownCalls<S, H>(o: SftpOrder<S, H>, v: SftpView<H>): Log {
    if v.ptr == NULL then [] else CallsOf(o.ds, v.directories) + CallsOf(o.fs, v.files) + [Shutdown(v.ptr)]
  }

  lemma ShutdownParts<S, H>(log: Log, o: SftpOrder<S, H>, v: SftpView<H>)
    requires v.ptr != NULL
    ensures log + CallsOf(o.ds, v.directories) + CallsOf(o.fs, v.files) + [Shutdown(v.ptr)] == log + ShutdownCalls(o, v)
  {
  }

  ghost function SftpsCalls<S, H>(order: seq<SftpOrder<S, H>>, v: map<S, SftpView<H>>): Log {
    if order == [] then []
    else
      var o := order[|order| - 1];
      SftpsCalls(order[..|order| - 1], v) + (if o.s in v then ShutdownCalls(o, v[o.s]) else [])
  }

  lemma SftpsCallsAppend<S, H>(order: seq<SftpOrder<S, H>>, v: map<S, SftpView<H>>, o: SftpOrder<S, H>)
    requires o.s in v
    ensures SftpsCalls(order + [o], v) == SftpsCalls(order, v) + ShutdownCalls(o, v[o.s])
  {
    assert (order + [o])[..|order|] == order;
  }

  /** `order` says how each sftp of `v` that is not in `rest` is shut down, each once. */
  ghost predicate Plays<S, H>(order: seq<SftpOrder<S, H>>, v: map<S, SftpView<H>>, rest: set<S>) {
    && (forall o :: o in order ==> o.s in v && o.s !in rest && Follows(o, v[o.s]))
    && (forall i, j :: 0 <= i < j < |order| ==> order[i].s != order[j].s)
    && (forall s :: s in v.Keys && s !in rest ==> exists i :: 0 <= i < |order| && order[i].s == s)
  }

  lemma PlaysAppend<S, H>(order: seq<SftpOrder<S, H>>, v: map<S, SftpView<H>>, rest: set<S>, o: SftpOrder<S, H>)
    requires o.s in v && o.s !in rest && Follows(o, v[o.s]) && Plays(order, v, rest + {o.s})
    ensures Plays(order + [o], v, rest)
  {
    var order' := order + [o];
    forall s | s in v.Keys && s !in rest ensures exists i :: 0 <= i < |order'| && order'[i].s == s {
      if s == o.s {
        assert order'[|order|].s == s;
      } else {
        var i :| 0 <= i < |order| && order[i].s == s;
        assert order'[i].s == s;
      }
    }
  }

  /** The loop over the sftps in `v` has dealt with all but `rest`, in this order,
      and taken the log from `log0` to `log`. */
  ghost predicate SftpsTraced<S, H>(order: seq<SftpOrder<S, H>>, v: map<S, SftpView<H>>, rest: set<S>,
                                    log0: Log, log: Log) {
    Plays(order, v, rest) && log == log0 + SftpsCalls(order, v)
  }

  lemma SftpsTracedAppend<S, H>(order: seq<SftpOrder<S, H>>, v: map<S, SftpView<H>>, rest: set<S>,
                                log0: Log, log: Log, o: SftpOrder<S, H>)
    requires o.s in v && o.s !in rest && Follows(o, v[o.s]) && SftpsTraced(order, v, rest + {o.s}, log0, log)
    ensures SftpsTraced(order + [o], v, rest, log0, log + ShutdownCalls(o, v[o.s]))
  {
    PlaysAppend(order, v, rest, o);
    SftpsCallsAppend(order, v, o);
    Associates(log0, SftpsCalls(order, v), ShutdownCalls(o, v[o.s]));
  }

  lemma Associates(a: Log, b: Log, c: Log)
    ensures a + b + c == a + (b + c)
  {
  }

  /** A session before its close: its handle, its sftps, and the calls that popping
      each channel and listener makes. */
  datatype SessionView<S, H, C, L> =
    SessionView(ptr: Ptr, sftps: map<S, SftpView<H>>, channels: map<C, Log>, listeners: map<L, Log>)

  /** The orders in which one close pops the three sets, and those of the sftps. */
  datatype CloseOrder<S, H, C, L> = CloseOrder(sftps: seq<SftpOrder<S, H>>, channels: seq<C>, listeners: seq<L>)

  ghost predicate PopsAll<S, H, C, L>(o: CloseOrder<S, H, C, L>, v: SessionView<S, H, C, L>) {
    Plays(o.sftps, v.sftps, {}) && Lists(o.channels, v.channels.Keys) && Lists(o.listeners, v.listeners.Keys)
  }

  /** The calls of such a close: sftps, channels, listeners, the goodbye, */
  ghost function LoopTrace<S, H, C, L>(o: CloseOrder<S, H, C, L>, v: SessionView<S, H, C, L>): Log {
    SftpsCalls(o.sftps, v.sftps) + CallsOf(o.channels, v.channels) + CallsOf(o.listeners, v.listeners)
        + [Disconnect(v.ptr)]
  }

  /** which comes back. */
  ghost function CloseTrace<S, H, C, L>(o: CloseOrder<S, H, C, L>, v: SessionView<S, H, C, L>): Log {
    LoopTrace(o, v) + [Back(v.ptr)]
  }

  lemma LoopTraceParts<S, H, C, L>(log: Log, o: CloseOrder<S, H, C, L>, v: SessionView<S, H, C, L>)
    ensures log + SftpsCalls(o.sftps, v.sftps) + CallsOf(o.channels, v.channels) + CallsOf(o.listeners, v.listeners)
      + [Disconnect(v.ptr)]
         == log + LoopTrace(o, v)
  {
  }
}
