/** What holds in every run of the ownership tree, over any number of sessions,
    wrappers and threads. */
module Ownership {
  import opened LibSsh2
  import opened Machine
  import opened Invariant
  import opened Preservation
  import opened SessionPreservation
  import opened LogPreservation
  import opened Steps
  import opened Cast

  ghost function LogAfter(acts: seq<Action>): Log
    requires IsRun(Initial, acts)
  {
    After(Initial, acts).log
  }

  // Release

  /** No handle is given back twice, whoever closes it and through whichever owner. */
  lemma AtMostOnce(acts: seq<Action>, k: Kind, p: Ptr, q: Ptr, w: bool)
    requires IsRun(Initial, acts) && Opened(k, p, q, w) in LogAfter(acts)
    ensures Times(LogAfter(acts), ReleaseOf(k, p)) <= 1
  {
    ReachableInv(acts);
    var st := After(Initial, acts);
    assert CallKnown(st, Opened(k, p, q, w));
    assert !CallKnown(st, ReleaseOf(k, p)) || p in st.objs || p in st.sessions;
    assert p in st.objs ==> WrapperOk(st, p) && WrapperLogged(st, p);
    assert p in st.sessions ==> SessionLogged(st, p);
  }

  /** Once a session is freed, a channel or sftp of it has been given back exactly
      once if it had a wrapper, and never if the wrapper could not be allocated. */
  lemma ChildExactlyOnce(acts: seq<Action>, k: Kind, p: Ptr, x: Ptr, w: bool)
    requires IsRun(Initial, acts) && (k == Chan || k == Sftp)
    requires Opened(k, p, x, w) in LogAfter(acts) && SessionFree(x) in LogAfter(acts) && x != NULL
    ensures Times(LogAfter(acts), ReleaseOf(k, p)) == B(w)
  {
    ReachableInv(acts);
    var st := After(Initial, acts);
    assert CallKnown(st, Opened(k, p, x, w)) && CallKnown(st, SessionFree(x));
    assert p in st.objs ==> WrapperOk(st, p) && WrapperLogged(st, p);
    assert x in st.sessions ==> SessionLogged(st, x);
    assert x in st.objs ==> WrapperOk(st, x);
    if !w { assert !CallKnown(st, ReleaseOf(k, p)); }
  }

  /** The same for a directory or file of an sftp of the freed session. */
  lemma FileExactlyOnce(acts: seq<Action>, k: Kind, p: Ptr, s: Ptr, x: Ptr, w: bool)
    requires IsRun(Initial, acts) && IsFile(k)
    requires Opened(k, p, s, w) in LogAfter(acts) && Opened(Sftp, s, x, true) in LogAfter(acts)
    requires SessionFree(x) in LogAfter(acts) && x != NULL
    ensures Times(LogAfter(acts), ReleaseOf(k, p)) == B(w)
  {
    ReachableInv(acts);
    var st := After(Initial, acts);
    ChildExactlyOnce(acts, Sftp, s, x, true);
    assert CallKnown(st, Opened(k, p, s, w)) && CallKnown(st, Opened(Sftp, s, x, true));
    assert s in st.objs ==> WrapperOk(st, s) && WrapperLogged(st, s);
    assert p in st.objs ==> WrapperOk(st, p) && WrapperLogged(st, p);
    if !w { assert !CallKnown(st, ReleaseOf(k, p)); }
  }

  // After the session

  /** A wrapper that outlives its session has a NULL handle, so that the guard of each
      of its methods returns before libssh2 is called; the one exception is a file or
      directory that an explicit close has given back but not yet set to NULL. */
  lemma SurvivorsAreNull(acts: seq<Action>, c: Ptr)
    requires IsRun(Initial, acts)
    requires var st := After(Initial, acts);
      && c in st.objs && st.objs[c].kind != Listen
      && SessionOf(st, c) in st.sessions && st.sessions[SessionOf(st, c)].ptr == NULL
    ensures var st := After(Initial, acts); var o := st.objs[c];
      && (DoMethod(st, c) == st <==> o.holder < 0)
      && (o.ptr == NULL <==> o.holder < 0)
      && (o.holder >= 0 ==> IsFile(o.kind) && o.holder < |st.threads| && st.threads[o.holder].pc == InClose(c))
  {
    ReachableInv(acts);
    var st := After(Initial, acts);
    FreedBelow(st, c);
    if st.objs[c].ptr != NULL { MethodMoves(st, c); }
  }

  lemma FreedBelow(st: State, c: Ptr)
    requires TreeOk(st) && c in st.objs && st.objs[c].kind != Listen
    requires SessionOf(st, c) in st.sessions && st.sessions[SessionOf(st, c)].ptr == NULL
    ensures var o := st.objs[c]; if o.holder < 0 then o.ptr == NULL
      else o.ptr != NULL && IsFile(o.kind) && o.holder < |st.threads| && st.threads[o.holder].pc == InClose(c)
  {
    assert WrapperOk(st, c);
    var o := st.objs[c];
    if IsFile(o.kind) { assert WrapperOk(st, o.owner); }
    if o.holder >= 0 { assert ThreadOk(st, o.holder); }
  }

  lemma MethodMoves(st: State, c: Ptr)
    requires c in st.objs && st.objs[c].ptr != NULL
    ensures DoMethod(st, c) != st
  {
    assert |DoMethod(st, c).log| == |st.log| + 1;
  }

  // Tracking

  /** Some thread has `c` in its hands. */
  ghost predicate InHands(st: State, c: Ptr) {
    exists i :: 0 <= i < |st.threads| && st.threads[i].pc != Done && Holds(st.threads[i], c)
  }

  /** An open wrapper is in its owner's set, or in the hands of the one thread that
      closes it, and its session is up, except while a thread shuts it or its sftp down. */
  lemma TrackedWhileOpen(acts: seq<Action>, c: Ptr)
    requires IsRun(Initial, acts)
    requires var st := After(Initial, acts); c in st.objs && st.objs[c].kind != Listen && st.objs[c].ptr != NULL
    ensures var st := After(Initial, acts); Tracked(st, c) || InHands(st, c)
    ensures var st := After(Initial, acts); var x := SessionOf(st, c);
      || (x in st.sessions && st.sessions[x].up) || InHands(st, c)
      || (IsFile(st.objs[c].kind) && InHands(st, st.objs[c].owner))
    ensures var st := After(Initial, acts); var x := SessionOf(st, c);
      !Busy(st, x) ==> Tracked(st, c) && x in st.sessions && st.sessions[x].up
  {
    ReachableInv(acts);
    var st := After(Initial, acts);
    OpenIsHeldOrUp(st, c);
    if !Busy(st, SessionOf(st, c)) {
      assert WrapperOk(st, c);
      NotHeldWhenQuiet(st, c);
      if IsFile(st.objs[c].kind) {
        NotHeldWhenQuiet(st, st.objs[c].owner);
        HeldInHands(st, st.objs[c].owner);
      }
    }
  }

  lemma OpenIsHeldOrUp(st: State, c: Ptr)
    requires TreeOk(st) && c in st.objs && st.objs[c].kind != Listen && st.objs[c].ptr != NULL
    ensures Tracked(st, c) || InHands(st, c)
    ensures st.objs[c].holder >= 0 <==> InHands(st, c)
    ensures var x := SessionOf(st, c);
      || (x in st.sessions && st.sessions[x].up) || InHands(st, c)
      || (IsFile(st.objs[c].kind) && InHands(st, st.objs[c].owner))
  {
    HeldInHands(st, c);
    assert WrapperOk(st, c);
    var s := st.objs[c].owner;
    if IsFile(st.objs[c].kind) {
      if st.objs[c].holder < 0 {
        HeldInHands(st, s);
        assert WrapperOk(st, s) && SessionOk(st, st.objs[s].owner);
      }
    } else {
      assert SessionOk(st, s);
    }
  }

  lemma HeldInHands(st: State, c: Ptr)
    requires TreeOk(st) && c in st.objs
    ensures st.objs[c].holder >= 0 <==> InHands(st, c)
  {
    assert WrapperOk(st, c);
    if st.objs[c].holder >= 0 { assert ThreadOk(st, st.objs[c].holder); }
    if i :| 0 <= i < |st.threads| && st.threads[i].pc != Done && Holds(st.threads[i], c) {
      assert ThreadOk(st, i);
    }
  }

  /** A session that is not up has empty sets, and what is still open below it some
      thread is shutting down. */
  lemma DownIsEmpty(acts: seq<Action>, x: Ptr)
    requires IsRun(Initial, acts) && x in After(Initial, acts).sessions && !After(Initial, acts).sessions[x].up
    ensures NoMembers(After(Initial, acts), x)
    ensures var st := After(Initial, acts);
      forall c :: c in st.objs && st.objs[c].kind != Listen && st.objs[c].ptr != NULL && SessionOf(st, c) == x ==>
        InHands(st, c) || (IsFile(st.objs[c].kind) && InHands(st, st.objs[c].owner))
  {
    ReachableInv(acts);
    var st := After(Initial, acts);
    assert SessionOk(st, x);
    forall c | c in st.objs && st.objs[c].kind != Listen && st.objs[c].ptr != NULL && SessionOf(st, c) == x
      ensures InHands(st, c) || (IsFile(st.objs[c].kind) && InHands(st, st.objs[c].owner))
    {
      OpenIsHeldOrUp(st, c);
    }
  }

  /** A wrapper whose last reference is gone has nothing left to close: the close
      calls in the destructors fire for listeners only. */
  lemma DestructorsAreIdle(acts: seq<Action>, a: Action, c: Ptr)
    requires IsRun(Initial, acts) && Enabled(After(Initial, acts), a)
    requires var st := After(Initial, acts); c in st.objs && st.objs[c].kind != Listen && st.objs[c].refs > 0
    ensures var st' := Apply(After(Initial, acts), a);
            c in st'.objs && (st'.objs[c].refs == 0 ==>
                st'.objs[c].ptr == NULL && Times(st'.log, ReleaseOf(st'.objs[c].kind, c)) == 1)
  {
    ReachableInv(acts);
    var st := After(Initial, acts);
    StepInv(st, a);
    var st' := Apply(st, a);
    StepKeeps(st, a);
    assert WrapperOk(st', c) && WrapperLogged(st', c);
  }

  // Reference counts

  /** Counts are exact: the program's references, one for each set that contains the
      wrapper, one for the thread that works on it, and what scp_recv leaked. */
  lemma ReferenceCount(acts: seq<Action>, c: Ptr)
    requires IsRun(Initial, acts) && c in After(Initial, acts).objs
    ensures var st := After(Initial, acts); var o := st.objs[c];
            o.refs == o.user + o.extra + B(Tracked(st, c)) + B(o.holder >= 0)
    ensures var st := After(Initial, acts);
            forall x, k :: c in Members(st, x, k) ==> x == st.objs[c].owner && k == st.objs[c].kind
    ensures var st := After(Initial, acts); st.objs[c].holder >= 0 <==> InHands(st, c)
  {
    ReachableInv(acts);
    assert WrapperOk(After(Initial, acts), c);
    HeldInHands(After(Initial, acts), c);
  }

  /** A session's count is the program's references and one for each running close. */
  lemma SessionReferenceCount(acts: seq<Action>, x: Ptr)
    requires IsRun(Initial, acts) && x in After(Initial, acts).sessions
    ensures var st := After(Initial, acts); st.sessions[x].refs == st.sessions[x].user + Closers(st.threads, x)
  {
    ReachableInv(acts);
    assert SessionOk(After(Initial, acts), x);
  }

  /** The references nobody drops are fixed when a wrapper is created: one for
      scp_recv, none for any other constructor. */
  lemma LeakedReferences(acts: seq<Action>, a: Action, c: Ptr)
    requires IsRun(Initial, acts) && Enabled(After(Initial, acts), a) && c in Apply(After(Initial, acts), a).objs
    ensures var st, st' := After(Initial, acts), Apply(After(Initial, acts), a);
            st'.objs[c].extra == if c in st.objs then st.objs[c].extra else B(a.Open? && a.k == Chan && a.recv)
  {
    ReachableInv(acts);
    StepKeeps(After(Initial, acts), a);
  }

  // Concurrent teardown

  /** No two threads have the same wrapper in their hands. */
  lemma OneThreadPerWrapper(acts: seq<Action>, i: nat, j: nat, c: Ptr)
    requires IsRun(Initial, acts)
    requires var st := After(Initial, acts);
             i < |st.threads| && j < |st.threads| && Holds(st.threads[i], c) && Holds(st.threads[j], c)
    ensures i == j
  {
    ReachableInv(acts);
    var st := After(Initial, acts);
    assert ThreadOk(st, i) && ThreadOk(st, j);
  }

  /** When the threads on a session have returned and it is closed, everything that
      was opened through a wrapper below it has been given back exactly once. */
  lemma TeardownComplete(acts: seq<Action>, x: Ptr, c: Ptr)
    requires IsRun(Initial, acts)
    requires var st := After(Initial, acts);
             x in st.sessions && !st.sessions[x].up && !Busy(st, x) && c in st.objs && SessionOf(st, c) == x
                 && st.objs[c].kind != Listen
    ensures var st := After(Initial, acts);
      st.objs[c].ptr == NULL && !Tracked(st, c) && Times(st.log, ReleaseOf(st.objs[c].kind, c)) == 1
  {
    ReachableInv(acts);
    var st := After(Initial, acts);
    assert WrapperOk(st, c) && WrapperLogged(st, c) && SessionOk(st, x);
    NotHeldWhenQuiet(st, c);
    if IsFile(st.objs[c].kind) {
      assert WrapperOk(st, st.objs[c].owner);
      NotHeldWhenQuiet(st, st.objs[c].owner);
    }
  }

  /** A thread that has not returned can always take a step: it never pops from an empty set. */
  lemma NeverStuck(acts: seq<Action>, i: nat) returns (pick: Ptr)
    requires IsRun(Initial, acts)
    requires i < |After(Initial, acts).threads| && After(Initial, acts).threads[i].pc != Done
    ensures CanRun(After(Initial, acts), i, pick)
  {
    ReachableInv(acts);
    var st := After(Initial, acts);
    assert ThreadOk(st, i);
    var (loops, o, k) := Looping(st.threads[i]);
    if loops && Members(st, o, k) != {} {
      pick :| pick in Members(st, o, k);
    } else {
      pick := NULL;
    }
  }

  // Termination

  function Rank(pc: Pc): nat {
    match pc
    case Done => 0
    case AtFree => 1
    case InDisconnect => 2
    case AtListeners => 3
    case AtChannels => 4
    case AtSftps => 5
    case AtReturn => 6
    case InChannel(_) => 7
    case InClose(_) => 7
    case InCancel(_) => 7
    case AtShut(_) => 7
    case AtFiles(_) => 8
    case AtDirs(_) => 9
    case InHandle(_, _) => 10
  }

  function Ranks(ts: seq<Thread>): nat {
    if ts == [] then 0 else Ranks(ts[..|ts| - 1]) + Rank(ts[|ts| - 1].pc)
  }

  lemma {:induction false} RanksUpdate(ts: seq<Thread>, i: nat, t: Thread)
    requires i < |ts|
    ensures Ranks(ts[i := t]) + Rank(ts[i].pc) == Ranks(ts) + Rank(t.pc)
  {
    var n := |ts| - 1;
    if i == n {
      assert ts[i := t][..n] == ts[..n];
    } else {
      assert ts[i := t][..n] == ts[..n][i := t];
      RanksUpdate(ts[..n], i, t);
    }
  }

  /** All wrappers that are in a set. */
  function Membership(st: State): set<Ptr> {
    set c | c in st.objs && Tracked(st, c)
  }

  function Work(st: State): nat {
    5 * |Membership(st)| + Ranks(st.threads)
  }

  /** A step of thread `i` takes one wrapper out of the sets or moves the thread closer to its end. */
  ghost predicate Progress(st: State, st': State, i: nat, pick: Ptr) {
    && i < |st.threads| && |st'.threads| == |st.threads| && st'.threads == st.threads[i := st'.threads[i]]
    && (|| (Membership(st') == Membership(st) && Rank(st'.threads[i].pc) < Rank(st.threads[i].pc))
        || (pick in Membership(st) && Membership(st') == Membership(st) - {pick}
             && Rank(st'.threads[i].pc) <= Rank(st.threads[i].pc) + 4))
  }

  lemma DiscardProgress(st: State, i: nat, o: Ptr, c: Ptr)
    requires TreeOk(st) && i < |st.threads| && c in st.objs && c in Members(st, o, st.objs[c].kind)
    requires st.objs[c].ptr == NULL || (st.objs[c].kind == Listen && !Cancels(st.objs[c]))
    ensures Progress(st, Discard(st, o, c), i, c)
  {
    assert c in Members(st, o, st.objs[c].kind) && WrapperOk(st, c);
    var st' := Discard(st, o, c);
    assert Membership(st') == Membership(st) - {c};
  }

  lemma TakeProgress(st: State, i: nat, o: Ptr, c: Ptr, pc: Pc, calls: Log)
    requires TreeOk(st) && i < |st.threads| && c in st.objs && c in Members(st, o, st.objs[c].kind)
    requires Rank(pc) <= Rank(st.threads[i].pc) + 4
    ensures Progress(st, Goto(Logged(Take(st, i, o, c), calls), i, pc), i, c)
    ensures Progress(st, Goto(Take(st, i, o, c), i, pc), i, c)
  {
    var st' := Goto(Logged(Take(st, i, o, c), calls), i, pc);
    assert Membership(st') == Membership(st) - {c};
    var st'' := Goto(Take(st, i, o, c), i, pc);
    assert Membership(st'') == Membership(st) - {c};
  }

  lemma FinishProgress(st: State, i: nat, c: Ptr, pc: Pc, calls: Log, pick: Ptr)
    requires i < |st.threads| && c in st.objs && Rank(pc) < Rank(st.threads[i].pc)
    ensures Progress(st, Finish(Logged(st, calls), i, c, pc), i, pick)
    ensures Progress(st, Finish(st, i, c, pc), i, pick)
  {
    var st' := Finish(Logged(st, calls), i, c, pc);
    assert Membership(st') == Membership(st);
    var st'' := Finish(st, i, c, pc);
    assert Membership(st'') == Membership(st);
  }

  /** Membership depends on the sets and on the wrappers' kinds and owners only. */
  lemma SameMembership(st: State, st': State)
    requires st'.sets == st.sets && st'.objs == st.objs
    ensures Membership(st') == Membership(st)
  {
  }

  lemma PopProgress(st: State, i: nat, pick: Ptr)
    requires Inv(st) && CanRun(st, i, pick)
    requires var (loops, o, k) := Looping(st.threads[i]); loops && Members(st, o, k) != {}
    ensures Progress(st, RunThread(st, i, pick), i, pick)
  {
    assert ThreadOk(st, i);
    var (_, o, k) := Looping(st.threads[i]);
    PopUnheld(st, i, o, k, pick);
    var p := st.objs[pick].ptr;
    match k
    case Sftp =>
      if p == NULL { DiscardProgress(st, i, o, pick); } else { TakeProgress(st, i, o, pick, AtDirs(pick), []); }
    case Chan =>
      if p == NULL {
        DiscardProgress(st, i, o, pick);
      } else {
        TakeProgress(st, i, o, pick, InChannel(pick), [ChannelClose(p)]);
      }
    case Listen =>
      if Cancels(st.objs[pick]) {
        TakeProgress(st, i, o, pick, InCancel(pick), [Cancel(p)]);
      } else {
        DiscardProgress(st, i, o, pick);
      }
    case Dir => TakeProgress(st, i, o, pick, InHandle(o, pick), [CloseHandle(p)]);
    case File => TakeProgress(st, i, o, pick, InHandle(o, pick), [CloseHandle(p)]);
    case Sess =>
  }

  predicate Ends(pc: Pc) {
    pc.InHandle? || pc.InClose? || pc.InCancel? || pc.AtShut? || pc.InChannel?
  }

  lemma HandleProgress(st: State, i: nat, s: Ptr, d: Ptr, pick: Ptr)
    requires i < |st.threads| && st.threads[i].pc == InHandle(s, d) && d in st.objs
    ensures Progress(st, RunHandle(st, i, s, d), i, pick)
  {
    FinishProgress(st, i, d, if st.objs[d].kind == Dir then AtDirs(s) else AtFiles(s), [Back(s)], pick);
  }

  lemma CloseProgress(st: State, i: nat, d: Ptr, pick: Ptr)
    requires i < |st.threads| && st.threads[i].pc == InClose(d) && d in st.objs
    ensures Progress(st, RunClose(st, i, d), i, pick)
  {
    FinishProgress(st, i, d, Done, [Back(st.objs[d].owner)], pick);
  }

  lemma CancelProgress(st: State, i: nat, l: Ptr, pick: Ptr)
    requires i < |st.threads| && st.threads[i].pc == InCancel(l) && l in st.objs
    ensures Progress(st, RunCancel(st, i, l), i, pick)
  {
    FinishProgress(st, i, l, Leaving(st.threads[i].root, AtListeners), [Back(st.objs[l].owner)], pick);
  }

  lemma ShutProgress(st: State, i: nat, s: Ptr, pick: Ptr)
    requires i < |st.threads| && st.threads[i].pc == AtShut(s) && s in st.objs
    ensures Progress(st, RunShut(st, i, s), i, pick)
  {
    FinishProgress(st, i, s, Leaving(st.threads[i].root, AtSftps), [Shutdown(st.objs[s].ptr)], pick);
  }

  lemma ChannelProgress(st: State, i: nat, c: Ptr, pick: Ptr)
    requires i < |st.threads| && st.threads[i].pc == InChannel(c) && c in st.objs
    ensures Progress(st, RunChannel(st, i, c), i, pick)
  {
    FinishProgress(st, i, c, Leaving(st.threads[i].root, AtChannels), [ChannelFree(st.objs[c].ptr)], pick);
  }

  lemma EndProgress(st: State, i: nat, pick: Ptr)
    requires CanRun(st, i, pick) && Ends(st.threads[i].pc)
    ensures Progress(st, RunThread(st, i, pick), i, pick)
  {
    match st.threads[i].pc
    case InClose(d) => CloseProgress(st, i, d, pick);
    case InCancel(l) => CancelProgress(st, i, l, pick);
    case InChannel(c) => ChannelProgress(st, i, c, pick);
    case _ => SftpEndProgress(st, i, pick);
  }

  lemma SftpEndProgress(st: State, i: nat, pick: Ptr)
    requires CanRun(st, i, pick) && (st.threads[i].pc.InHandle? || st.threads[i].pc.AtShut?)
    ensures Progress(st, RunThread(st, i, pick), i, pick)
  {
    match st.threads[i].pc
    case InHandle(s, d) => HandleProgress(st, i, s, d, pick);
    case AtShut(s) => ShutProgress(st, i, s, pick);
  }

  lemma MoveProgress(st: State, i: nat, pick: Ptr)
    requires Inv(st) && CanRun(st, i, pick)
    requires var (loops, o, k) := Looping(st.threads[i]); loops ==> Members(st, o, k) == {}
    ensures Progress(st, RunThread(st, i, pick), i, pick)
  {
    if Ends(st.threads[i].pc) {
      EndProgress(st, i, pick);
    } else {
      SameMembership(st, RunThread(st, i, pick));
    }
  }

  lemma StepProgress(st: State, i: nat, pick: Ptr)
    requires Inv(st) && CanRun(st, i, pick)
    ensures Progress(st, RunThread(st, i, pick), i, pick)
  {
    var (loops, o, k) := Looping(st.threads[i]);
    if loops && Members(st, o, k) != {} {
      PopProgress(st, i, pick);
    } else {
      MoveProgress(st, i, pick);
    }
  }

  lemma WorkDecreases(st: State, i: nat, pick: Ptr)
    requires Inv(st) && CanRun(st, i, pick)
    ensures Work(RunThread(st, i, pick)) < Work(st)
  {
    var st' := RunThread(st, i, pick);
    StepProgress(st, i, pick);
    RanksUpdate(st.threads, i, st'.threads[i]);
  }

  /** However the scheduler interleaves them, the running teardowns take at most
      `Work` steps between them. */
  lemma {:induction false} TeardownTerminates(st: State, acts: seq<Action>)
    requires Inv(st) && IsRun(st, acts) && (forall a :: a in acts ==> a.Run?)
    ensures |acts| + Work(After(st, acts)) <= Work(st)
    decreases |acts|
  {
    if acts != [] {
      WorkDecreases(st, acts[0].i, acts[0].pick);
      StepInv(st, acts[0]);
      TeardownTerminates(Apply(st, acts[0]), acts[1..]);
    }
  }

  // Listeners

  /** Session_close starts to cancel a listener it pops exactly when the set held the
      last reference; any other keeps its handle. */
  lemma ListenerPop(acts: seq<Action>, i: nat, l: Ptr)
    requires IsRun(Initial, acts)
    requires var st := After(Initial, acts);
      && i < |st.threads| && st.threads[i].pc == AtListeners && CanRun(st, i, l)
      && Members(st, st.threads[i].root.x, Listen) != {}
    ensures var st := After(Initial, acts); l in st.objs
    ensures var st, st' := After(Initial, acts), RunThread(After(Initial, acts), i, l);
      && var last := st.objs[l].user == 0 && st.objs[l].ptr != NULL;
      && st'.log == st.log + (if last then [Cancel(l)] else [])
      && st'.threads[i].pc == (if last then InCancel(l) else AtListeners)
      && l in st'.objs && st'.objs[l].ptr == st.objs[l].ptr && !Tracked(st', l)
  {
    ReachableInv(acts);
    var st := After(Initial, acts);
    assert ThreadOk(st, i);
    PopUnheld(st, i, st.threads[i].root.x, Listen, l);
    assert WrapperOk(st, l);
  }

  /** A listener whose field is NULL, or that a thread has in its hands, was cancelled
      once, any other never; without a reference to it left, it was. */
  lemma ListenersEnd(acts: seq<Action>, l: Ptr)
    requires IsRun(Initial, acts)
    requires var st := After(Initial, acts); l in st.objs && st.objs[l].kind == Listen
    ensures var st := After(Initial, acts);
      && Times(st.log, Cancel(l)) == B(st.objs[l].ptr == NULL || InHands(st, l))
      && (st.objs[l].refs == 0 ==> st.objs[l].ptr == NULL)
  {
    ReachableInv(acts);
    var st := After(Initial, acts);
    assert WrapperOk(st, l) && WrapperLogged(st, l);
    HeldInHands(st, l);
  }
}
