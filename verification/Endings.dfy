/** How sessions and wrappers end over a whole run: a session that was started is
    disconnected before it is freed, and what was closed stays closed. */
module Endings {
  import opened LibSsh2
  import opened Machine
  import opened Invariant
  import opened Preservation
  import opened SessionPreservation
  import opened LogPreservation
  import opened Steps
  import opened Calls

  // What a step does to the threads and to the flags of sessions

  /** An API call starts one thread at most, and only startup raises a flag. */
  ghost predicate ApiMoves(st: State, st': State, a: Action) {
    && st.threads <= st'.threads
    && |st'.threads| <= |st.threads| + 1
    && (forall i :: |st.threads| <= i < |st'.threads| ==>
         st'.threads[i].pc != InDisconnect && st'.threads[i].pc != Done)
    && (forall x {:trigger st'.sessions[x]} :: x in st.sessions ==>
          && x in st'.sessions && st'.sessions[x].up == (st.sessions[x].up || a == Startup(x, true))
          && st'.sessions[x].ptr == st.sessions[x].ptr)
    && (forall x {:trigger st'.sessions[x]} :: x in st'.sessions && x !in st.sessions ==>
         a == NewSession(x) && !st'.sessions[x].up)
  }

  lemma CloseChannelMoves(st: State, a: Action)
    requires Inv(st) && Enabled(st, a) && a.CloseChannel?
    ensures ApiMoves(st, Apply(st, a), a)
  {
    DiscardSilent(st, a.x, a.c);
  }

  lemma ShutdownMoves(st: State, a: Action)
    requires Inv(st) && Enabled(st, a) && a.ShutdownSftp?
    ensures ApiMoves(st, Apply(st, a), a)
  {
    DiscardSilent(st, a.x, a.s);
  }

  lemma CloseFileMoves(st: State, a: Action)
    requires Inv(st) && Enabled(st, a) && a.CloseFile?
    ensures ApiMoves(st, Apply(st, a), a)
  {
    DiscardSilent(st, a.s, a.d);
  }

  lemma CancelMoves(st: State, a: Action)
    requires Inv(st) && Enabled(st, a) && a.CancelListener?
    ensures ApiMoves(st, Apply(st, a), a)
  {
    DiscardSilent(st, a.x, a.l);
  }

  lemma CloserMoves(st: State, a: Action)
    requires Inv(st) && Enabled(st, a) && Closes(a)
    ensures ApiMoves(st, Apply(st, a), a)
  {
    match a
    case CloseChannel(_, _) => CloseChannelMoves(st, a);
    case CloseFile(_, _) => CloseFileMoves(st, a);
    case CancelListener(_, _) => CancelMoves(st, a);
    case ShutdownSftp(_, _) => ShutdownMoves(st, a);
    case CloseSession(_) =>
  }

  lemma DropMoves(st: State, a: Action)
    requires Inv(st) && Enabled(st, a) && a.Drop?
    ensures ApiMoves(st, Apply(st, a), a)
  {
    assert WrapperOk(st, a.c);
  }

  lemma ReturnMoves(st: State, c: Ptr)
    requires Inv(st) && c in st.objs && st.objs[c].user > 0 && st.objs[c].kind != Listen
    ensures DoReturn(st, c).threads == st.threads && DoReturn(st, c).sessions == st.sessions
  {
    assert WrapperOk(st, c);
  }

  lemma CallingMoves(st: State, a: Action)
    requires Inv(st) && Enabled(st, a) && (a.Return? || a.Method?)
    ensures ApiMoves(st, Apply(st, a), a)
  {
    if a.Return? { ReturnMoves(st, a.c); }
  }

  lemma ReferenceMoves(st: State, a: Action)
    requires Inv(st) && Enabled(st, a) && Counts(a)
    ensures ApiMoves(st, Apply(st, a), a)
  {
    if a.Drop? { DropMoves(st, a); }
  }

  lemma ConstructorMoves(st: State, a: Action)
    requires Inv(st) && Enabled(st, a) && (a.NewSession? || a.Startup? || a.Open? || a.OpenHandle?)
    ensures ApiMoves(st, Apply(st, a), a)
  {
    if a.NewSession? && a.p != NULL { FreshIsNew(st, a.p); }
  }

  lemma ApiStep(st: State, a: Action)
    requires Inv(st) && Enabled(st, a) && !a.Run?
    ensures ApiMoves(st, Apply(st, a), a)
  {
    if Closes(a) {
      CloserMoves(st, a);
    } else if Counts(a) {
      ReferenceMoves(st, a);
    } else if a.Return? || a.Method? {
      CallingMoves(st, a);
    } else {
      ConstructorMoves(st, a);
    }
  }

  /** A step of thread `i` leaves the others alone, and only the end of a disconnect
      lowers a flag. */
  ghost predicate RunMoves(st: State, st': State, i: nat) {
    && i < |st.threads| && |st'.threads| == |st.threads| && st'.threads == st.threads[i := st'.threads[i]]
    && st'.sessions.Keys == st.sessions.Keys
    && (var t, t' := st.threads[i], st'.threads[i];
        && (!t.root.Shut? ==> !t'.root.Shut? && t'.root.x == t.root.x)
        && (t'.pc == InDisconnect ==>
             t' == t.(pc := InDisconnect) && t.pc == AtListeners && !t.root.Shut? && t.root.x in st.sessions)
        && (!t.root.Shut? && (t'.pc == Done || t'.pc == AtFree) ==>
             t.pc == InDisconnect || (t.pc == AtFree && t.root.Dealloc?))
        && (forall x {:trigger st'.sessions[x]} :: x in st.sessions ==>
              && st'.sessions[x].up == (st.sessions[x].up && !(t.pc == InDisconnect && !t.root.Shut? && t.root.x == x))
              && st'.sessions[x].ptr ==
                   if t.pc == AtFree && t.root.Dealloc? && t.root.x == x then NULL else st.sessions[x].ptr))
  }

  lemma PopMoves(st: State, i: nat, pick: Ptr)
    requires Inv(st) && CanRun(st, i, pick)
    requires var (loops, o, k) := Looping(st.threads[i]); loops && Members(st, o, k) != {}
    ensures RunMoves(st, RunThread(st, i, pick), i)
  {
    var (_, o, k) := Looping(st.threads[i]);
    assert ThreadOk(st, i);
    PopUnheld(st, i, o, k, pick);
    assert WrapperOk(st, pick);
  }

  lemma FinishMoves(st: State, i: nat, c: Ptr, pc: Pc, calls: Log)
    requires c in st.objs && i < |st.threads| && st.threads[i].pc !in {InDisconnect, AtFree} && pc != InDisconnect
    requires !st.threads[i].root.Shut? ==> pc != Done && pc != AtFree
    ensures RunMoves(st, Finish(Logged(st, calls), i, c, pc), i)
  {
    var st' := Finish(Logged(st, calls), i, c, pc);
    assert st'.sessions == st.sessions && st'.threads == st.threads[i := st.threads[i].(pc := pc)];
  }

  predicate Finishes(pc: Pc) {
    pc.InHandle? || pc.InClose? || pc.InCancel? || pc.AtShut? || pc.InChannel?
  }

  lemma FinishStep(st: State, i: nat, pick: Ptr)
    requires Inv(st) && CanRun(st, i, pick) && Finishes(st.threads[i].pc)
    ensures RunMoves(st, RunThread(st, i, pick), i)
  {
    var r := st.threads[i].root;
    assert ThreadOk(st, i);
    assert Logged(st, []) == st;
    match st.threads[i].pc
    case InHandle(s, d) =>
      FinishMoves(st, i, d, if st.objs[d].kind == Dir then AtDirs(s) else AtFiles(s),
                  if st.objs[d].ptr == NULL then [] else [Back(s)]);
    case InClose(d) => FinishMoves(st, i, d, Done, [Back(st.objs[d].owner)]);
    case InCancel(l) => FinishMoves(st, i, l, Leaving(r, AtListeners), [Back(st.objs[l].owner)]);
    case AtShut(s) => FinishMoves(st, i, s, Leaving(r, AtSftps), [Shutdown(st.objs[s].ptr)]);
    case InChannel(c) => FinishMoves(st, i, c, Leaving(r, AtChannels), [ChannelFree(st.objs[c].ptr)]);
  }

  lemma LoopStep(st: State, i: nat, pick: Ptr)
    requires Inv(st) && CanRun(st, i, pick)
    requires var (loops, o, k) := Looping(st.threads[i]); loops && Members(st, o, k) == {}
    ensures RunMoves(st, RunThread(st, i, pick), i)
  {
    assert ThreadOk(st, i);
  }

  lemma LeaveStep(st: State, i: nat, pick: Ptr)
    requires Inv(st) && CanRun(st, i, pick) && st.threads[i].pc in {AtReturn, InDisconnect, AtFree}
    ensures RunMoves(st, RunThread(st, i, pick), i)
  {
    assert ThreadOk(st, i);
    if st.threads[i].pc == AtReturn { ReturningSession(st, i); }
  }

  lemma RunStep(st: State, i: nat, pick: Ptr)
    requires Inv(st) && CanRun(st, i, pick)
    ensures RunMoves(st, RunThread(st, i, pick), i)
  {
    var (loops, o, k) := Looping(st.threads[i]);
    if loops && Members(st, o, k) != {} {
      PopMoves(st, i, pick);
    } else if Finishes(st.threads[i].pc) {
      FinishStep(st, i, pick);
    } else if loops {
      LoopStep(st, i, pick);
    } else {
      LeaveStep(st, i, pick);
    }
  }

  // Goodbyes

  /** Session `x` was not started, or disconnected after it last was. */
  ghost predicate SaidGoodbye(log: Log, x: Ptr) {
    Started(x) in log ==> exists j :: 0 <= j < |log| && log[j] == Disconnect(x) && Started(x) !in log[j..]
  }

  lemma GoodbyeLater(log: Log, x: Ptr, calls: Log)
    requires SaidGoodbye(log, x) && Started(x) !in calls
    ensures SaidGoodbye(log + calls, x)
  {
    var log' := log + calls;
    if Started(x) in log' {
      var j :| 0 <= j < |log| && log[j] == Disconnect(x) && Started(x) !in log[j..];
      assert log'[j] == log[j] && log'[j..] == log[j..] + calls;
    }
  }

  lemma GoodbyeNow(log: Log, x: Ptr)
    ensures SaidGoodbye(log + [Disconnect(x)], x)
  {
    var log' := log + [Disconnect(x)];
    assert log'[|log|] == Disconnect(x) && log'[|log|..] == [Disconnect(x)];
  }

  /** Sessions that are not up, and those whose disconnect is under way, have said it. */
  ghost predicate Parted(st: State) {
    && (forall x {:trigger st.sessions[x]} :: x in st.sessions && !st.sessions[x].up ==> SaidGoodbye(st.log, x))
    && (forall i {:trigger st.threads[i]} ::
         0 <= i < |st.threads| && st.threads[i].pc == InDisconnect && !st.threads[i].root.Shut? ==>
          SaidGoodbye(st.log, st.threads[i].root.x))
  }

  /** No session is freed without it. */
  ghost predicate FreesParted(log: Log) {
    forall i {:trigger log[i]} :: 0 <= i < |log| && log[i].SessionFree? ==> SaidGoodbye(log[..i], log[i].p)
  }

  lemma FreesPartedAppend(log: Log, c: Call)
    requires FreesParted(log) && (c.SessionFree? ==> SaidGoodbye(log, c.p))
    ensures FreesParted(log + [c])
  {
    var log' := log + [c];
    forall i {:trigger log'[i]} | 0 <= i < |log'| && log'[i].SessionFree? ensures SaidGoodbye(log'[..i], log'[i].p) {
      assert i < |log| ==> log'[..i] == log[..i] && log'[i] == log[i];
      assert i == |log| ==> log'[..i] == log;
    }
  }

  /** Only a startup makes an earlier goodbye void, and it leaves the session up and
      finds nobody ending it. */
  lemma StepSaid(st: State, a: Action, x: Ptr)
    requires Inv(st) && Enabled(st, a) && x != NULL && SaidGoodbye(st.log, x) && a != Startup(x, true)
    ensures SaidGoodbye(Apply(st, a).log, x)
  {
    StepMakes(st, a);
    assert a.Startup? ==> SessionOk(st, a.x) && Usr(st, a.x);
    GoodbyeLater(st.log, x, CallOf(st, a));
  }

  lemma ApiParted(st: State, a: Action)
    requires Inv(st) && Parted(st) && Enabled(st, a) && !a.Run?
    ensures Parted(Apply(st, a))
  {
    var st' := Apply(st, a);
    ApiStep(st, a);
    forall x {:trigger st'.sessions[x]} | x in st'.sessions && !st'.sessions[x].up ensures SaidGoodbye(st'.log, x) {
      if x in st.sessions {
        assert SessionOk(st, x);
        StepSaid(st, a, x);
      } else {
        FreshIsNew(st, x);
        assert !CallKnown(st, Started(x));
        StepSaid(st, a, x);
      }
    }
    forall i {:trigger st'.threads[i]} |
      0 <= i < |st'.threads| && st'.threads[i].pc == InDisconnect && !st'.threads[i].root.Shut?
      ensures SaidGoodbye(st'.log, st'.threads[i].root.x)
    {
      assert st'.threads[i] == st.threads[i] && ThreadOk(st, i) && SessionOk(st, st.threads[i].root.x);
      assert Ending(st, st.threads[i].root.x);
      StepSaid(st, a, st.threads[i].root.x);
    }
  }

  lemma RunDown(st: State, i: nat, pick: Ptr, x: Ptr)
    requires Inv(st) && Parted(st) && CanRun(st, i, pick) && RunMoves(st, RunThread(st, i, pick), i)
    requires x in st.sessions && !RunThread(st, i, pick).sessions[x].up
    ensures SaidGoodbye(RunThread(st, i, pick).log, x)
  {
    assert SessionOk(st, x);
    assert st.sessions[x].up ==> st.threads[i].root.x == x;
    StepSaid(st, Run(i, pick), x);
  }

  lemma GoodbyeCall(st: State, i: nat, pick: Ptr)
    requires Inv(st) && CanRun(st, i, pick) && RunMoves(st, RunThread(st, i, pick), i)
    requires RunThread(st, i, pick).threads[i].pc == InDisconnect
    ensures var x := st.threads[i].root.x; x in st.sessions && st.sessions[x].ptr == x
    ensures RunThread(st, i, pick).log == st.log + [Disconnect(st.threads[i].root.x)]
  {
    var x := st.threads[i].root.x;
    assert ThreadOk(st, i) && SessionOk(st, x);
    if st.threads[i].root.Close? { ClosersPositive(st.threads, i, x); }
    RunMakes(st, i, pick);
  }

  lemma RunGoodbye(st: State, i: nat, pick: Ptr)
    requires Inv(st) && CanRun(st, i, pick) && RunMoves(st, RunThread(st, i, pick), i)
    requires RunThread(st, i, pick).threads[i].pc == InDisconnect
    ensures SaidGoodbye(RunThread(st, i, pick).log, st.threads[i].root.x)
  {
    GoodbyeCall(st, i, pick);
    GoodbyeNow(st.log, st.threads[i].root.x);
  }

  lemma RunParted(st: State, i: nat, pick: Ptr)
    requires Inv(st) && Parted(st) && CanRun(st, i, pick)
    ensures Parted(RunThread(st, i, pick))
  {
    var st' := RunThread(st, i, pick);
    RunStep(st, i, pick);
    forall x {:trigger st'.sessions[x]} | x in st'.sessions && !st'.sessions[x].up ensures SaidGoodbye(st'.log, x) {
      RunDown(st, i, pick, x);
    }
    forall j {:trigger st'.threads[j]} |
      0 <= j < |st'.threads| && st'.threads[j].pc == InDisconnect && !st'.threads[j].root.Shut?
      ensures SaidGoodbye(st'.log, st'.threads[j].root.x)
    {
      if j == i {
        RunGoodbye(st, i, pick);
      } else {
        assert st'.threads[j] == st.threads[j] && ThreadOk(st, j) && SessionOk(st, st.threads[j].root.x);
        StepSaid(st, Run(i, pick), st.threads[j].root.x);
      }
    }
  }

  lemma StepParted(st: State, a: Action)
    requires Inv(st) && Parted(st) && Enabled(st, a)
    ensures Parted(Apply(st, a))
  {
    if a.Run? {
      RunParted(st, a.i, a.pick);
    } else {
      ApiParted(st, a);
    }
  }

  lemma StepFrees(st: State, a: Action)
    requires Inv(st) && Parted(st) && FreesParted(st.log) && Enabled(st, a)
    ensures FreesParted(Apply(st, a).log)
  {
    StepMakes(st, a);
    FreeParted(st, a);
    FreesPartedLater(st.log, CallOf(st, a));
  }

  lemma FreesPartedLater(log: Log, calls: Log)
    requires FreesParted(log) && |calls| <= 1 && forall c :: c in calls && c.SessionFree? ==> SaidGoodbye(log, c.p)
    ensures FreesParted(log + calls)
  {
    if calls == [] {
      assert log + calls == log;
    } else {
      assert calls == [calls[0]];
      FreesPartedAppend(log, calls[0]);
    }
  }

  lemma FreeParted(st: State, a: Action)
    requires Inv(st) && Parted(st) && Enabled(st, a)
    ensures |CallOf(st, a)| <= 1 && forall c :: c in CallOf(st, a) && c.SessionFree? ==> SaidGoodbye(st.log, c.p)
  {
    if a.Run? { RunFrees(st, a.i, a.pick); }
  }

  lemma RunFrees(st: State, i: nat, pick: Ptr)
    requires Inv(st) && Parted(st) && CanRun(st, i, pick)
    ensures forall c :: c in RunCall(st, i, pick) && c.SessionFree? ==> SaidGoodbye(st.log, c.p)
  {
    assert ThreadOk(st, i);
    if st.threads[i].pc == AtFree { assert SessionOk(st, st.threads[i].root.x); }
  }

  lemma {:induction false} RunPartedHolds(st: State, acts: seq<Action>)
    requires Inv(st) && Parted(st) && FreesParted(st.log) && IsRun(st, acts)
    ensures FreesParted(After(st, acts).log)
    decreases |acts|
  {
    if acts != [] {
      StepInv(st, acts[0]);
      StepParted(st, acts[0]);
      StepFrees(st, acts[0]);
      RunPartedHolds(Apply(st, acts[0]), acts[1..]);
    }
  }

  /** In every run, with any number of threads, a session is freed only after it said
      goodbye: after its last successful startup, if it had any, comes a disconnect. */
  lemma GoodbyeBeforeFree(acts: seq<Action>, i: nat)
    requires IsRun(Initial, acts) && i < |After(Initial, acts).log| && After(Initial, acts).log[i].SessionFree?
    ensures SaidGoodbye(After(Initial, acts).log[..i], After(Initial, acts).log[i].p)
  {
    InitialInv();
    RunPartedHolds(Initial, acts);
  }

  // Closing again

  /** Thread `i` is or was a close of session `x`; if it is over, the session is down. */
  ghost predicate Ended(st: State, i: nat, x: Ptr) {
    && i < |st.threads| && x in st.sessions && !st.threads[i].root.Shut? && st.threads[i].root.x == x
    && (st.threads[i].pc == Done || st.threads[i].pc == AtFree ==> !st.sessions[x].up)
  }

  lemma StepEnded(st: State, a: Action, i: nat, x: Ptr)
    requires Inv(st) && Enabled(st, a) && Ended(st, i, x) && (st.threads[i].pc == Done ==> a != Startup(x, true))
    ensures Ended(Apply(st, a), i, x)
  {
    if a.Run? { RunEnded(st, a.i, a.pick, i, x); } else { ApiEnded(st, a, i, x); }
  }

  lemma ApiEnded(st: State, a: Action, i: nat, x: Ptr)
    requires Inv(st) && Enabled(st, a) && !a.Run? && Ended(st, i, x)
    requires (st.threads[i].pc == Done ==> a != Startup(x, true))
    ensures Ended(Apply(st, a), i, x)
  {
    ApiStep(st, a);
    assert Apply(st, a).threads[i] == st.threads[i];
    assert st.threads[i].pc != Done ==> Ending(st, x);
    assert Apply(st, a).sessions[x].up == (st.sessions[x].up || a == Startup(x, true));
  }

  lemma EndedMoves(st: State, st': State, j: nat, i: nat, x: Ptr)
    requires Inv(st) && RunMoves(st, st', j) && Ended(st, i, x)
    ensures Ended(st', i, x)
  {
    assert ThreadOk(st, i);
    assert st'.sessions[x].up ==> st.sessions[x].up;
  }

  lemma RunEnded(st: State, j: nat, pick: Ptr, i: nat, x: Ptr)
    requires Inv(st) && CanRun(st, j, pick) && Ended(st, i, x)
    ensures Ended(RunThread(st, j, pick), i, x)
  {
    RunStep(st, j, pick);
    EndedMoves(st, RunThread(st, j, pick), j, i, x);
  }

  lemma {:induction false} EndedStays(st: State, acts: seq<Action>, i: nat, x: Ptr)
    requires Inv(st) && IsRun(st, acts) && Ended(st, i, x) && Startup(x, true) !in acts
    ensures Ended(After(st, acts), i, x) && Inv(After(st, acts))
    decreases |acts|
  {
    if acts != [] {
      StepInv(st, acts[0]);
      StepEnded(st, acts[0], i, x);
      EndedStays(Apply(st, acts[0]), acts[1..], i, x);
    }
  }

  /** Once a close of an open session has come back, and whatever else happens short of
      another startup, closing the session again is no action at all. */
  lemma CloseAgain(acts: seq<Action>, x: Ptr, rest: seq<Action>)
    requires IsRun(Initial, acts)
    requires var st := After(Initial, acts);
      && Enabled(st, CloseSession(x)) && st.sessions[x].up && IsRun(Apply(st, CloseSession(x)), rest)
           && Startup(x, true) !in rest
      && var i, st2 := |st.threads|, After(Apply(st, CloseSession(x)), rest);
      i < |st2.threads| && st2.threads[i].pc == Done && Enabled(st2, CloseSession(x))
    ensures var st2 := After(Apply(After(Initial, acts), CloseSession(x)), rest); Apply(st2, CloseSession(x)) == st2
  {
    ReachableInv(acts);
    var st := After(Initial, acts);
    StepInv(st, CloseSession(x));
    EndedStays(Apply(st, CloseSession(x)), rest, |st.threads|, x);
  }

  function ClosedBy(a: Action): Ptr {
    match a
    case CloseChannel(_, c) => c
    case ShutdownSftp(_, s) => s
    case CloseFile(_, d) => d
    case CancelListener(_, l) => l
    case _ => NULL
  }

  /** The release call of `c` is made. */
  predicate GivenBack(st: State, c: Ptr)
    requires c in st.objs
  {
    ReleaseOf(st.objs[c].kind, c) in st.log
  }

  /** Once a channel, sftp, directory, file or listener was given back, whoever did it,
      closing it explicitly once more starts no thread and makes no call on it. */
  lemma CloseOnceMore(acts: seq<Action>, a: Action)
    requires IsRun(Initial, acts) && Enabled(After(Initial, acts), a)
    requires (a.CloseChannel? || a.ShutdownSftp? || a.CloseFile? || a.CancelListener?)
    requires GivenBack(After(Initial, acts), ClosedBy(a))
    ensures var st, st' := After(Initial, acts), Apply(After(Initial, acts), a);
      && st'.threads == st.threads
      && (|| st'.log == st.log || (a.CloseFile? && st'.log == st.log + [CloseHandle(NULL)])
          || (a.CancelListener? && st'.log == st.log + [Cancel(NULL)]))
  {
    ReachableInv(acts);
    var st := After(Initial, acts);
    var c := ClosedBy(a);
    assert WrapperOk(st, c) && WrapperLogged(st, c);
    assert Released(st, c);
    match a
    case CloseChannel(x, _) => DiscardSilent(st, x, c);
    case ShutdownSftp(x, _) => DiscardSilent(st, x, c);
    case CloseFile(s, _) => DiscardSilent(st, s, c);
    case CancelListener(x, _) => DiscardSilent(st, x, c);
  }
}
