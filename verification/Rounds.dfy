/** One turn of each teardown loop, as the machine takes it when no other thread
    comes in between. */
module Rounds {
  import opened LibSsh2
  import opened Machine
  import opened Invariant
  import opened LogPreservation
  import opened Steps

  predicate OnlyThread(acts: seq<Action>, i: nat) {
    forall a: Action :: a in acts ==> a.Run? && a.i == i
  }

  /** Thread `i`, running alone, takes the machine from `st` to `st'`. */
  ghost predicate Reaches(st: State, st': State, i: nat) {
    exists acts :: OnlyThread(acts, i) && IsRun(st, acts) && After(st, acts) == st'
  }

  lemma {:induction false} RunConcat(st: State, a: seq<Action>, b: seq<Action>)
    requires IsRun(st, a) && IsRun(After(st, a), b)
    ensures IsRun(st, a + b) && After(st, a + b) == After(After(st, a), b)
    decreases |a|
  {
    if a == [] {
      assert a + b == b;
    } else {
      assert (a + b)[0] == a[0] && (a + b)[1..] == a[1..] + b;
      RunConcat(Apply(st, a[0]), a[1..], b);
    }
  }

  lemma ReachesTrans(st: State, st1: State, st2: State, i: nat)
    requires Reaches(st, st1, i) && Reaches(st1, st2, i)
    ensures Reaches(st, st2, i)
  {
    var a :| OnlyThread(a, i) && IsRun(st, a) && After(st, a) == st1;
    var b :| OnlyThread(b, i) && IsRun(st1, b) && After(st1, b) == st2;
    RunConcat(st, a, b);
    assert OnlyThread(a + b, i);
  }

  lemma ReachesSelf(st: State, i: nat)
    ensures Reaches(st, st, i)
  {
    assert IsRun(st, []) && After(st, []) == st;
  }

  lemma ReachesStep(st: State, i: nat, pick: Ptr)
    requires CanRun(st, i, pick)
    ensures Reaches(st, RunThread(st, i, pick), i)
  {
    var acts := [Run(i, pick)];
    assert Enabled(st, acts[0]) && acts[1..] == [];
    assert IsRun(Apply(st, acts[0]), []);
    assert After(st, acts) == RunThread(st, i, pick);
  }

  /** Between `st` and `st'` wrapper `c` left the set of `o`, that reference was
      dropped and its handle set to `ptr`; `calls` were made and nothing else moved. */
  ghost predicate Turn(st: State, st': State, o: Ptr, c: Ptr, ptr: Ptr, calls: Log) {
    && c in st.objs && c in Members(st, o, st.objs[c].kind) && st.objs[c].refs > 0
    && st'.sessions == st.sessions && st'.log == st.log + calls
    && c in st'.objs && st'.objs == st.objs[c := st'.objs[c]]
    && st'.objs[c] == st.objs[c].(refs := st.objs[c].refs - 1, ptr := ptr)
    && (forall a, k {:trigger Members(st', a, k)} ::
          Members(st', a, k) == if a == o && k == st.objs[c].kind then Members(st, a, k) - {c} else Members(st, a, k))
    && |st'.threads| == |st.threads|
  }

  ghost predicate At(st: State, i: nat, root: Root, pc: Pc) {
    Inv(st) && i < |st.threads| && st.threads[i] == Thread(root, pc)
  }

  /** Thread `i` takes two steps in a row. */
  lemma TwoSteps(st: State, i: nat, pick: Ptr)
    requires Inv(st) && CanRun(st, i, pick) && CanRun(RunThread(st, i, pick), i, pick)
    ensures var st' := RunThread(RunThread(st, i, pick), i, pick); Inv(st') && Reaches(st, st', i)
  {
    var st1 := RunThread(st, i, pick);
    RunInv(st, i, pick);
    RunInv(st1, i, pick);
    ReachesStep(st, i, pick);
    ReachesStep(st1, i, pick);
    ReachesTrans(st, st1, RunThread(st1, i, pick), i);
  }

  // Pop one child, close it and drop it

  predicate HandleLoop(pc: Pc, s: Ptr, k: Kind) {
    (pc == AtDirs(s) && k == Dir) || (pc == AtFiles(s) && k == File)
  }

  /** Two steps close a directory or file: the pop with the call, and what follows it. */
  lemma HandleTurn(st: State, i: nat, root: Root, pc: Pc, s: Ptr, k: Kind, c: Ptr) returns (st': State)
    requires At(st, i, root, pc) && HandleLoop(pc, s, k) && c in Members(st, s, k)
    ensures At(st', i, root, pc) && Reaches(st, st', i)
    ensures Turn(st, st', s, c, NULL, CloseCalls(k, st.objs[c].ptr, s))
  {
    var st1 := HandlePop(st, i, root, pc, s, k, c);
    st' := RunThread(st1, i, c);
    HandleTurnShape(st, i, pc, s, c);
    TwoSteps(st, i, c);
  }

  lemma HandlePop(st: State, i: nat, root: Root, pc: Pc, s: Ptr, k: Kind, c: Ptr) returns (st1: State)
    requires At(st, i, root, pc) && HandleLoop(pc, s, k) && c in Members(st, s, k)
    ensures CanRun(st, i, c) && st1 == RunThread(st, i, c) && CanRun(st1, i, c)
    ensures c in st.objs && st.objs[c].kind == k && st.objs[c].holder == -1 && st.objs[c].refs > 0
    ensures st1 == Goto(Logged(Take(st, i, s, c), [CloseHandle(st.objs[c].ptr)]), i, InHandle(s, c))
    ensures RunThread(st1, i, c) == Finish(if st.objs[c].ptr == NULL then st1 else Logged(st1, [Back(s)]), i, c, pc)
  {
    assert ThreadOk(st, i);
    PopUnheld(st, i, s, k, c);
    assert WrapperOk(st, c);
    st1 := Goto(Logged(Take(st, i, s, c), [CloseHandle(st.objs[c].ptr)]), i, InHandle(s, c));
    HandleEnd(st1, i, s, c);
  }

  /** The second step. */
  lemma HandleEnd(st: State, i: nat, s: Ptr, c: Ptr)
    requires i < |st.threads| && st.threads[i].pc == InHandle(s, c) && c in st.objs
    requires !st.threads[i].root.Shut? ==> st.threads[i].root.x in st.sessions
    ensures CanRun(st, i, c)
    ensures var st1 := if st.objs[c].ptr == NULL then st else Logged(st, [Back(s)]);
      RunThread(st, i, c) == Finish(st1, i, c, if st.objs[c].kind == Dir then AtDirs(s) else AtFiles(s))
  {
  }

  lemma HandleTurnShape(st: State, i: nat, pc: Pc, s: Ptr, c: Ptr)
    requires i < |st.threads| && c in st.objs && IsFile(st.objs[c].kind) && c in Members(st, s, st.objs[c].kind)
    requires st.objs[c].holder == -1 && st.objs[c].refs > 0
    ensures var p := st.objs[c].ptr;
      var st1 := Goto(Logged(Take(st, i, s, c), [CloseHandle(p)]), i, InHandle(s, c));
      var st2 := if p == NULL then st1 else Logged(st1, [Back(s)]);
      Turn(st, Finish(st2, i, c, pc), s, c, NULL, CloseCalls(st.objs[c].kind, p, s))
  {
    TakeTurn(st, i, s, c, InHandle(s, c), pc, [CloseHandle(st.objs[c].ptr)],
             if st.objs[c].ptr == NULL then [] else [Back(s)]);
  }

  /** A wrapper is popped with `calls`, and nulled and dropped after `ends`. */
  lemma TakeTurn(st: State, i: nat, o: Ptr, c: Ptr, mid: Pc, pc: Pc, calls: Log, ends: Log)
    requires i < |st.threads| && c in st.objs && c in Members(st, o, st.objs[c].kind)
    requires st.objs[c].holder == -1 && st.objs[c].refs > 0
    ensures var st1 := Goto(Logged(Take(st, i, o, c), calls), i, mid);
      && Turn(st, Finish(Logged(st1, ends), i, c, pc), o, c, NULL, calls + ends)
      && (ends == [] ==> Logged(st1, ends) == st1)
  {
    var st1 := Goto(Logged(Take(st, i, o, c), calls), i, mid);
    var st' := Finish(Logged(st1, ends), i, c, pc);
    assert st'.log == st.log + (calls + ends);
    forall a, k {:trigger Members(st', a, k)}
      ensures Members(st', a, k) ==
        if a == o && k == st.objs[c].kind then Members(st, a, k) - {c} else Members(st, a, k)
    {
      assert Members(st', a, k) == Members(st1, a, k);
    }
  }

  lemma ChannelTurn(st: State, i: nat, root: Root, c: Ptr) returns (st': State)
    requires At(st, i, root, AtChannels) && !root.Shut? && c in Members(st, root.x, Chan)
    ensures At(st', i, root, AtChannels) && Reaches(st, st', i)
    ensures Turn(st, st', root.x, c, NULL, CloseCalls(Chan, st.objs[c].ptr, root.x))
  {
    assert ThreadOk(st, i);
    PopUnheld(st, i, root.x, Chan, c);
    assert WrapperOk(st, c);
    if st.objs[c].ptr == NULL {
      st' := RunThread(st, i, c);
      ClosedTurnShape(st, root.x, c);
      RunInv(st, i, c);
      ReachesStep(st, i, c);
    } else {
      st' := OpenChannelTurn(st, i, root, c);
    }
  }

  /** Discarding a closed wrapper. */
  lemma ClosedTurnShape(st: State, o: Ptr, c: Ptr)
    requires c in st.objs && c in Members(st, o, st.objs[c].kind) && st.objs[c].ptr == NULL && st.objs[c].refs > 0
    ensures Turn(st, Discard(st, o, c), o, c, NULL, [])
  {
  }

  lemma OpenChannelTurn(st: State, i: nat, root: Root, c: Ptr) returns (st': State)
    requires At(st, i, root, AtChannels) && !root.Shut? && c in Members(st, root.x, Chan)
    requires c in st.objs && st.objs[c].kind == Chan && st.objs[c].ptr != NULL && st.objs[c].holder == -1
    requires st.objs[c].refs > 0
    ensures At(st', i, root, AtChannels) && Reaches(st, st', i)
    ensures Turn(st, st', root.x, c, NULL, CloseCalls(Chan, st.objs[c].ptr, root.x))
  {
    assert ThreadOk(st, i);
    st' := RunThread(RunThread(st, i, c), i, c);
    assert RunThread(st, i, c) == Goto(Logged(Take(st, i, root.x, c), [ChannelClose(st.objs[c].ptr)]), i, InChannel(c));
    ChannelTurnShape(st, i, root.x, c);
    TwoSteps(st, i, c);
  }

  lemma ChannelTurnShape(st: State, i: nat, x: Ptr, c: Ptr)
    requires i < |st.threads| && c in st.objs && st.objs[c].kind == Chan && c in Members(st, x, Chan)
    requires st.objs[c].holder == -1 && st.objs[c].refs > 0 && st.objs[c].ptr != NULL
    ensures var p := st.objs[c].ptr;
      var st1 := Goto(Logged(Take(st, i, x, c), [ChannelClose(p)]), i, InChannel(c));
      Turn(st, Finish(Logged(st1, [ChannelFree(p)]), i, c, AtChannels), x, c, NULL, CloseCalls(Chan, p, x))
  {
    var p := st.objs[c].ptr;
    TakeTurn(st, i, x, c, InChannel(c), AtChannels, [ChannelClose(p)], [ChannelFree(p)]);
    assert [ChannelClose(p)] + [ChannelFree(p)] == CloseCalls(Chan, p, x);
  }

  /** The destructor cancels a listener when the set held its last reference. */
  lemma ListenerTurn(st: State, i: nat, root: Root, l: Ptr) returns (st': State)
    requires At(st, i, root, AtListeners) && !root.Shut? && l in Members(st, root.x, Listen)
    ensures At(st', i, root, AtListeners) && Reaches(st, st', i)
    ensures l in st.objs && var last := Cancels(st.objs[l]);
            Turn(st, st', root.x, l, if last then NULL else st.objs[l].ptr,
                if last then CloseCalls(Listen, st.objs[l].ptr, root.x) else [])
  {
    assert ThreadOk(st, i);
    PopUnheld(st, i, root.x, Listen, l);
    assert WrapperOk(st, l);
    if Cancels(st.objs[l]) {
      st' := LastListenerTurn(st, i, root, l);
    } else {
      st' := RunThread(st, i, l);
      DroppedTurnShape(st, root.x, l);
      RunInv(st, i, l);
      ReachesStep(st, i, l);
    }
  }

  lemma DroppedTurnShape(st: State, o: Ptr, c: Ptr)
    requires c in st.objs && c in Members(st, o, st.objs[c].kind) && st.objs[c].refs > 0
    requires st.objs[c].ptr == NULL || st.objs[c].refs > 1
    ensures Turn(st, Discard(st, o, c), o, c, st.objs[c].ptr, [])
  {
  }

  lemma LastListenerTurn(st: State, i: nat, root: Root, l: Ptr) returns (st': State)
    requires At(st, i, root, AtListeners) && !root.Shut? && l in Members(st, root.x, Listen)
    requires l in st.objs && st.objs[l].owner == root.x && st.objs[l].holder == -1 && Cancels(st.objs[l])
    ensures At(st', i, root, AtListeners) && Reaches(st, st', i)
    ensures Turn(st, st', root.x, l, NULL, CloseCalls(Listen, st.objs[l].ptr, root.x))
  {
    assert ThreadOk(st, i);
    var p := st.objs[l].ptr;
    var st1 := RunThread(st, i, l);
    assert st1 == Goto(Logged(Take(st, i, root.x, l), [Cancel(p)]), i, InCancel(l));
    st' := RunThread(st1, i, l);
    TakeTurn(st, i, root.x, l, InCancel(l), AtListeners, [Cancel(p)], [Back(root.x)]);
    assert [Cancel(p)] + [Back(root.x)] == CloseCalls(Listen, p, root.x);
    TwoSteps(st, i, l);
  }

  lemma ClosedSftpTurn(st: State, i: nat, root: Root, s: Ptr) returns (st': State)
    requires At(st, i, root, AtSftps) && !root.Shut? && s in Members(st, root.x, Sftp) && s in st.objs
    requires st.objs[s].ptr == NULL
    ensures At(st', i, root, AtSftps) && Reaches(st, st', i)
    ensures Turn(st, st', root.x, s, NULL, [])
  {
    assert ThreadOk(st, i);
    PopUnheld(st, i, root.x, Sftp, s);
    assert WrapperOk(st, s);
    st' := RunThread(st, i, s);
    RunInv(st, i, s);
    ReachesStep(st, i, s);
  }

  /** An open sftp is taken out of the session's set; the thread now holds that reference. */
  lemma SftpTaken(st: State, i: nat, root: Root, s: Ptr) returns (st': State)
    requires At(st, i, root, AtSftps) && !root.Shut? && s in Members(st, root.x, Sftp) && s in st.objs
    requires st.objs[s].ptr != NULL
    ensures At(st', i, root, AtDirs(s)) && Reaches(st, st', i)
    ensures st'.sessions == st.sessions && st'.log == st.log && |st'.threads| == |st.threads|
    ensures st'.objs == st.objs[s := st.objs[s].(holder := i)]
    ensures forall a, k {:trigger Members(st', a, k)} ::
              Members(st', a, k) == if a == root.x && k == Sftp then Members(st, a, k) - {s} else Members(st, a, k)
  {
    assert ThreadOk(st, i);
    PopUnheld(st, i, root.x, Sftp, s);
    assert WrapperOk(st, s);
    st' := RunThread(st, i, s);
    RunInv(st, i, s);
    ReachesStep(st, i, s);
  }

  /** The emptied sftp is shut down and the thread's reference dropped. */
  lemma SftpDropped(st: State, i: nat, root: Root, s: Ptr) returns (st': State)
    requires At(st, i, root, AtShut(s)) && !root.Shut?
    ensures At(st', i, root, AtSftps) && Reaches(st, st', i)
    ensures s in st.objs && st.objs[s].refs > 0
    ensures st'.sessions == st.sessions && st'.sets == st.sets && st'.log == st.log + [Shutdown(s)]
    ensures |st'.threads| == |st.threads|
    ensures st'.objs == st.objs[s := st.objs[s].(ptr := NULL, holder := -1, refs := st.objs[s].refs - 1)]
  {
    assert ThreadOk(st, i) && WrapperOk(st, s);
    st' := RunThread(st, i, NULL);
    assert st' == RunShut(st, i, s);
    ShutShape(st, i, s);
    RunInv(st, i, NULL);
    ReachesStep(st, i, NULL);
  }

  lemma ShutShape(st: State, i: nat, s: Ptr)
    requires i < |st.threads| && s in st.objs && st.objs[s].refs > 0 && !st.threads[i].root.Shut?
    ensures var st' := RunShut(st, i, s); var root := st.threads[i].root;
      && st'.sessions == st.sessions && st'.sets == st.sets && st'.log == st.log + [Shutdown(st.objs[s].ptr)]
      && st'.threads == st.threads[i := Thread(root, AtSftps)]
      && st'.objs == st.objs[s := st.objs[s].(ptr := NULL, holder := -1, refs := st.objs[s].refs - 1)]
  {
  }

  // Leave a loop

  /** Thread `i` finds the set it loops over empty and goes on; nothing else moves but `calls`. */
  lemma LoopDone(st: State, i: nat, root: Root, pc: Pc) returns (st': State)
    requires At(st, i, root, pc)
    requires var (loops, o, k) := Looping(st.threads[i]); loops && Members(st, o, k) == {}
    ensures var next := match pc
                        case AtDirs(s) => AtFiles(s)
                        case AtFiles(s) => AtShut(s)
                        case AtSftps => AtChannels
                        case AtChannels => AtListeners
                        case _ => InDisconnect;
            At(st', i, root, next) && Reaches(st, st', i)
    ensures st' == st.(threads := st'.threads, log := st'.log) && |st'.threads| == |st.threads|
    ensures pc != AtListeners ==> st'.log == st.log
    ensures pc == AtListeners ==>
      !root.Shut? && root.x in st.sessions && st'.log == st.log + [Disconnect(st.sessions[root.x].ptr)]
  {
    assert ThreadOk(st, i);
    st' := RunThread(st, i, NULL);
    RunInv(st, i, NULL);
    ReachesStep(st, i, NULL);
  }

  /** The end of Session_close: the session is not up any more and loses the call's reference. */
  lemma CloseDone(st: State, i: nat, x: Ptr) returns (st': State)
    requires At(st, i, Close(x), InDisconnect)
    ensures Inv(st') && Reaches(st, st', i)
    ensures x in st.sessions && st.sessions[x].refs > 0
    ensures st'.objs == st.objs && st'.sets == st.sets && st'.log == st.log + [Back(x)]
    ensures x in st'.sessions && st'.sessions == st.sessions[x := st'.sessions[x]]
    ensures st'.sessions[x].ptr == st.sessions[x].ptr && !st'.sessions[x].up
    ensures st'.sessions[x].refs == st.sessions[x].refs - 1
    ensures |st'.threads| == |st.threads|
    ensures st'.threads[i] == if st'.sessions[x].refs == 0 then Thread(Dealloc(x), AtFree) else Thread(Close(x), Done)
  {
    assert ThreadOk(st, i) && SessionOk(st, x);
    ClosersPositive(st.threads, i, x);
    st' := RunThread(st, i, NULL);
    RunInv(st, i, NULL);
    ReachesStep(st, i, NULL);
  }

  /** The end of Session_dealloc: the session handle is freed. */
  lemma FreeDone(st: State, i: nat, x: Ptr) returns (st': State)
    requires At(st, i, Dealloc(x), InDisconnect)
    ensures Inv(st') && Reaches(st, st', i)
    ensures x in st.sessions && x in st'.sessions && st'.sessions[x].ptr == NULL && !st'.sessions[x].up
    ensures st'.objs == st.objs && st'.sets == st.sets
    ensures st'.log == st.log + [Back(x)] + [SessionFree(st.sessions[x].ptr)]
  {
    assert ThreadOk(st, i) && SessionOk(st, x);
    var mid := RunThread(st, i, NULL);
    RunInv(st, i, NULL);
    ReachesStep(st, i, NULL);
    st' := RunThread(mid, i, NULL);
    RunInv(mid, i, NULL);
    ReachesStep(mid, i, NULL);
    ReachesTrans(st, mid, st', i);
  }
}
