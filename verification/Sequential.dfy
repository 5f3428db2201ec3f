/** Runs of a program with one thread: a call of the API starts when no teardown
    is under way. In these nothing of a session is open when it disconnects. */
module Sequential {
  import opened LibSsh2
  import opened Machine
  import opened Invariant
  import opened Preservation
  import opened SessionPreservation
  import opened LogPreservation
  import opened Steps
  import opened Calls
  import opened Endings

  predicate Idle(st: State) {
    forall i :: 0 <= i < |st.threads| ==> st.threads[i].pc == Done
  }

  ghost predicate OneActive(st: State) {
    forall i, j :: 0 <= i < |st.threads| && 0 <= j < |st.threads| ==>
      st.threads[i].pc != Done && st.threads[j].pc != Done ==> i == j
  }

  ghost predicate IsSequential(st: State, acts: seq<Action>)
    decreases |acts|
  {
    acts == [] || (Enabled(st, acts[0]) && (acts[0].Run? || Idle(st)) && IsSequential(Apply(st, acts[0]), acts[1..]))
  }

  /** Thread `i` is about to say goodbye for session `x`. */
  predicate Goodbye(st: State, i: nat, x: Ptr) {
    && i < |st.threads| && st.threads[i].pc == AtListeners && !st.threads[i].root.Shut? && st.threads[i].root.x == x
    && Members(st, x, Listen) == {}
  }

  lemma DisconnectCall(st: State, a: Action, c: Call)
    requires Inv(st) && Enabled(st, a) && CallOf(st, a) == [c] && c.Disconnect?
    ensures a.Run? && Goodbye(st, a.i, c.p)
  {
    assert a.Run?;
    assert ThreadOk(st, a.i);
    var x := st.threads[a.i].root.x;
    assert SessionOk(st, x);
    if st.threads[a.i].root.Close? { ClosersPositive(st.threads, a.i, x); }
  }

  /** A lone thread that has emptied the sets has closed everything. */
  lemma GoodbyeChildren(st: State, i: nat, x: Ptr)
    requires Inv(st) && OneActive(st) && Goodbye(st, i, x)
    ensures ChildrenReleased(st.log, x)
  {
    assert ThreadOk(st, i);
    forall k, c | Opened(k, c, x, true) in st.log && k != Listen ensures ReleaseOf(k, c) in st.log {
      assert CallKnown(st, Opened(k, c, x, true));
      assert SessionOk(st, x);
      assert c in st.objs ==> WrapperOk(st, c) && WrapperLogged(st, c);
    }
  }

  lemma OrderedCall(st: State, a: Action, c: Call)
    requires Inv(st) && OneActive(st) && Enabled(st, a) && CallOf(st, a) == [c] && c.Disconnect?
    ensures ChildrenReleased(st.log, c.p)
  {
    DisconnectCall(st, a, c);
    GoodbyeChildren(st, a.i, c.p);
  }

  lemma OrderedStep(st: State, a: Action)
    requires Inv(st) && OneActive(st) && OrderedLog(st.log) && Enabled(st, a)
    ensures OrderedLog(Apply(st, a).log)
  {
    StepMakes(st, a);
    var calls := CallOf(st, a);
    if calls == [] {
      assert st.log + [] == st.log;
    } else {
      if calls[0].Disconnect? { OrderedCall(st, a, calls[0]); }
      OrderedLogAppend(st.log, calls[0]);
    }
  }

  lemma OneActiveStep(st: State, a: Action)
    requires Inv(st) && OneActive(st) && Enabled(st, a) && (a.Run? || Idle(st))
    ensures OneActive(Apply(st, a))
  {
    if a.Run? {
      RunStep(st, a.i, a.pick);
      assert ThreadOk(st, a.i);
    } else {
      ApiStep(st, a);
    }
  }

  lemma {:induction false} SequentialRun(st: State, acts: seq<Action>)
    requires Inv(st) && OneActive(st) && OrderedLog(st.log) && IsSequential(st, acts)
    ensures IsRun(st, acts) && OneActive(After(st, acts)) && OrderedLog(After(st, acts).log)
    decreases |acts|
  {
    if acts != [] {
      StepInv(st, acts[0]);
      OrderedStep(st, acts[0]);
      OneActiveStep(st, acts[0]);
      SequentialRun(Apply(st, acts[0]), acts[1..]);
    }
  }

  /** In every single-threaded run, each session disconnects after all its channels
      and sftps were given back, those after their files and directories, and is freed
      after that. */
  lemma TeardownOrder(acts: seq<Action>)
    requires IsSequential(Initial, acts)
    ensures IsRun(Initial, acts) && var log := After(Initial, acts).log;
      SafeLog(log) && OrderedLog(log) && FreesParted(log)
  {
    InitialInv();
    SequentialRun(Initial, acts);
    ReachableInv(acts);
    RunPartedHolds(Initial, acts);
  }
}
