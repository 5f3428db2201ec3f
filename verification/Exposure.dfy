/** No use of a dead handle, exactly: at which actions the library is at work on a
    handle that was given back, or that hangs below one that was. Three kinds of call
    can come to that, the methods of wrappers, the cancellation of listeners, and the
    end of a cancellation or of an explicit close; all others never do. */
module Exposure {
  import opened LibSsh2
  import opened Machine
  import opened Invariant
  import opened SessionPreservation
  import opened LogPreservation
  import opened Steps
  import opened Cast
  import opened Calls

  // What can be used

  /** Nothing that the log does not know as a live wrapper or session can be used. */
  lemma UsableKnown(st: State, c: Ptr)
    requires Inv(st) && c in st.objs && Usable(st.log, c)
    ensures Live(st.log, st.objs[c].kind, c, st.objs[c].owner)
    ensures IsChild(st.objs[c].kind) ==> Live(st.log, Sess, st.objs[c].owner, NULL)
  {
    assert WrapperOk(st, c);
    forall k, x | Live(st.log, k, c, x) ensures k == st.objs[c].kind && x == st.objs[c].owner {
      assert CallKnown(st, Opened(k, c, x, true));
    }
  }

  /** The handle that a channel, sftp, directory or file was made for can be used
      until it is given back: until the field is NULL, or until the lock is gone in the
      call that closes the directory or file. */
  lemma HandleUsable(st: State, c: Ptr)
    requires Inv(st) && c in st.objs && st.objs[c].kind != Listen
    ensures Usable(st.log, c) <==> st.objs[c].ptr != NULL && !(IsFile(st.objs[c].kind) && st.objs[c].holder >= 0)
  {
    assert WrapperOk(st, c) && WrapperLogged(st, c);
    if !Released(st, c) { WrapperUsable(st, c); }
    if Usable(st.log, c) { UsableKnown(st, c); }
  }

  /** That of a listener until its cancellation starts or its session is freed. */
  lemma ListenerUsable(st: State, l: Ptr)
    requires Inv(st) && l in st.objs && st.objs[l].kind == Listen && st.objs[l].ptr != NULL
    ensures st.objs[l].owner in st.sessions && st.objs[l].ptr == l
    ensures Usable(st.log, l) <==> st.objs[l].holder < 0 && st.sessions[st.objs[l].owner].ptr != NULL
  {
    var x := st.objs[l].owner;
    assert WrapperOk(st, l) && WrapperLogged(st, l) && SessionLogged(st, x);
    if st.objs[l].holder < 0 && st.sessions[x].ptr != NULL {
      SessionUsable(st, x);
      assert Live(st.log, Listen, l, x);
    }
    if Usable(st.log, l) { UsableKnown(st, l); }
  }

  /** That of a session until it is freed. */
  lemma SessionHandleUsable(st: State, x: Ptr)
    requires Inv(st) && x in st.sessions
    ensures Usable(st.log, x) <==> st.sessions[x].ptr != NULL
  {
    assert SessionOk(st, x) && SessionLogged(st, x);
    if st.sessions[x].ptr != NULL { SessionUsable(st, x); }
    forall k, y | Live(st.log, k, x, y) ensures k == Sess {
      assert CallKnown(st, Opened(k, x, y, true));
    }
  }

  // Which actions misuse a handle

  predicate OwnerFreed(st: State, l: Ptr)
    requires l in st.objs
  {
    st.objs[l].owner in st.sessions && st.sessions[st.objs[l].owner].ptr == NULL
  }

  /** The library is at work on a dead handle when `a` happens: a method finds a directory
      or file in the middle of its close; a method comes back after its handle was given
      back; a listener of a freed session is cancelled, by its last reference or
      explicitly; an explicit close of a directory or file comes back after its sftp was
      shut down, a cancellation after the session was freed. */
  predicate Exposed(st: State, a: Action) {
    match a
    case Method(c) => c in st.objs && st.objs[c].ptr != NULL && IsFile(st.objs[c].kind) && st.objs[c].holder >= 0
    case Return(c) => c in st.objs && (st.objs[c].ptr == NULL || (IsFile(st.objs[c].kind) && st.objs[c].holder >= 0))
    case Drop(l) => l in st.objs && Cancels(st.objs[l]) && OwnerFreed(st, l)
    case CancelListener(_, l) => l in st.objs && st.objs[l].ptr != NULL && OwnerFreed(st, l)
    case Run(i, _) => i < |st.threads| && LateEnd(st, st.threads[i])
    case _ => false
  }

  /** The call that thread `t` is in has outlived what it works below. */
  predicate LateEnd(st: State, t: Thread) {
    match t.pc
    case InHandle(s, _) => s in st.objs && st.objs[s].ptr == NULL
    case InClose(d) => d in st.objs && st.objs[d].owner in st.objs && st.objs[st.objs[d].owner].ptr == NULL
    case InCancel(l) => l in st.objs && OwnerFreed(st, l)
    case InDisconnect => !t.root.Shut? && t.root.x in st.sessions && st.sessions[t.root.x].ptr == NULL
    case _ => false
  }

  /** The calls in question: all, those of methods, the start of cancellations, the end
      of closes and cancellations. */
  datatype Scope = Everything | OfMethods | OfListeners | OfEnds

  predicate InScope(sc: Scope, c: Call) {
    match sc
    case Everything => true
    case OfMethods => c.Enter? || c.Leave?
    case OfListeners => c.Cancel?
    case OfEnds => c.Back?
  }

  predicate Concerns(sc: Scope, a: Action) {
    match sc
    case Everything => true
    case OfMethods => a.Method? || a.Return?
    case OfListeners => a.Drop? || a.CancelListener?
    case OfEnds => a.Run?
  }

  /** All calls of this scope in the log were on handles that could be used. */
  ghost predicate Sound(sc: Scope, log: Log) {
    forall i {:trigger log[i]} :: 0 <= i < |log| && InScope(sc, log[i]) ==> Strict(log[..i], log[i])
  }

  /** No action of the run is exposed when it happens. */
  ghost predicate Careful(sc: Scope, st: State, acts: seq<Action>)
    requires IsRun(st, acts)
    decreases |acts|
  {
    acts == [] || (!(Exposed(st, acts[0]) && Concerns(sc, acts[0])) && Careful(sc, Apply(st, acts[0]), acts[1..]))
  }

  lemma SoundAppend(sc: Scope, log: Log, c: Call)
    ensures Sound(sc, log + [c]) <==> Sound(sc, log) && (InScope(sc, c) ==> Strict(log, c))
  {
    var log' := log + [c];
    assert forall i {:trigger log[i]} :: 0 <= i < |log| ==> log'[..i] == log[..i] && log'[i] == log[i];
    assert log'[..|log|] == log && log'[|log|] == c;
    if Sound(sc, log') {
      forall i {:trigger log[i]} | 0 <= i < |log| && InScope(sc, log[i]) ensures Strict(log[..i], log[i]) {
        assert Strict(log'[..i], log'[i]);
      }
    }
  }

  /** A call that is not a method's or a cancellation is always made on a live handle. */
  lemma OtherCallSafe(st: State, a: Action, c: Call)
    requires Inv(st) && Enabled(st, a) && Apply(st, a).log == st.log + [c]
    requires !c.Enter? && !c.Leave? && !c.Cancel? && !c.Back?
    ensures Strict(st.log, c)
  {
    StepInv(st, a);
    var log := st.log + [c];
    assert log[..|st.log|] == st.log && log[|st.log|] == c;
  }

  /** A teardown that pops the last reference to a listener finds the session alive. */
  lemma PoppedCancelSafe(st: State, i: nat, pick: Ptr)
    requires Inv(st) && CanRun(st, i, pick) && st.threads[i].pc == AtListeners
    requires pick in Members(st, st.threads[i].root.x, Listen) && st.objs[pick].ptr != NULL
    ensures Usable(st.log, st.objs[pick].ptr)
  {
    var x := st.threads[i].root.x;
    assert ThreadOk(st, i) && SessionOk(st, x) && WrapperOk(st, pick);
    if st.threads[i].root.Close? { ClosersPositive(st.threads, i, x); }
    PopUnheld(st, i, x, Listen, pick);
    ListenerUsable(st, pick);
  }

  /** What comes back from a library call finds what it works below alive, unless it is
      late. */
  lemma BackStrict(st: State, i: nat, pick: Ptr, q: Ptr)
    requires Inv(st) && CanRun(st, i, pick) && RunCall(st, i, pick) == [Back(q)]
    ensures Usable(st.log, q) <==> !LateEnd(st, st.threads[i])
  {
    assert ThreadOk(st, i);
    match st.threads[i].pc
    case InHandle(s, _) => HandleUsable(st, s);
    case InClose(d) =>
      assert WrapperOk(st, d);
      HandleUsable(st, st.objs[d].owner);
    case InCancel(l) =>
      assert WrapperOk(st, l);
      SessionHandleUsable(st, st.objs[l].owner);
    case InDisconnect =>
      var x := st.threads[i].root.x;
      assert SessionOk(st, x);
      if st.threads[i].root.Close? { ClosersPositive(st.threads, i, x); }
      SessionHandleUsable(st, x);
    case _ =>
  }

  lemma RunStrict(st: State, i: nat, pick: Ptr, c: Call)
    requires Inv(st) && CanRun(st, i, pick) && RunCall(st, i, pick) == [c]
    ensures Strict(st.log, c) <==> !LateEnd(st, st.threads[i])
  {
    RunMakes(st, i, pick);
    if c.Cancel? {
      assert ThreadOk(st, i);
      PoppedCancelSafe(st, i, pick);
    } else if c.Back? {
      BackStrict(st, i, pick, c.p);
    } else {
      OtherCallSafe(st, Run(i, pick), c);
    }
  }

  lemma ListenerStrict(st: State, a: Action)
    requires Inv(st) && Enabled(st, a) && (a.Drop? || a.CancelListener?)
    requires var l := if a.Drop? then a.c else a.l; Cancels(st.objs[l]) || (a.CancelListener? && st.objs[l].ptr != NULL)
    ensures var l := if a.Drop? then a.c else a.l; Strict(st.log, Cancel(st.objs[l].ptr)) <==> !Exposed(st, a)
  {
    var l := if a.Drop? then a.c else a.l;
    assert WrapperOk(st, l);
    ListenerUsable(st, l);
  }

  lemma MethodStrict(st: State, a: Action)
    requires Inv(st) && Enabled(st, a) && Calling(a)
    ensures (a.Method? ==> st.objs[a.c].ptr == NULL || st.objs[a.c].ptr == a.c)
    ensures a.Return? || st.objs[a.c].ptr != NULL ==> (Usable(st.log, a.c) <==> !Exposed(st, a))
  {
    HandleUsable(st, a.c);
    assert WrapperOk(st, a.c);
  }

  /** The call that an action makes is on a dead handle exactly when the action is exposed. */
  lemma CallStrict(st: State, a: Action, c: Call)
    requires Inv(st) && Enabled(st, a) && CallOf(st, a) == [c]
    ensures Strict(st.log, c) <==> !Exposed(st, a)
  {
    if Calling(a) {
      MethodStrict(st, a);
    } else if a.Drop? || a.CancelListener? {
      if a.Drop? || st.objs[a.l].ptr != NULL { ListenerStrict(st, a); }
    } else if a.Run? {
      RunStrict(st, a.i, a.pick, c);
    } else {
      StepMakes(st, a);
      OtherCallSafe(st, a, c);
    }
  }

  lemma CallScope(sc: Scope, st: State, a: Action, c: Call)
    requires Enabled(st, a) && CallOf(st, a) == [c] && Exposed(st, a)
    ensures InScope(sc, c) <==> Concerns(sc, a)
  {
  }

  /** Thread `t` closes a directory or file, or cancels a listener, on its own account. */
  predicate Aside(t: Thread) {
    t.root.Shut? && (t.pc.InClose? || t.pc.InCancel?)
  }

  lemma InTime(st: State, i: nat)
    requires Inv(st) && i < |st.threads| && !Aside(st.threads[i])
    ensures !LateEnd(st, st.threads[i])
  {
    assert ThreadOk(st, i);
    if !st.threads[i].root.Shut? && st.threads[i].pc != Done {
      var x := st.threads[i].root.x;
      assert SessionOk(st, x);
      if st.threads[i].root.Close? { ClosersPositive(st.threads, i, x); }
    }
  }

  lemma SilentSafe(st: State, a: Action)
    requires Inv(st) && Enabled(st, a) && CallOf(st, a) == []
    ensures !Exposed(st, a)
  {
    if a.Run? {
      InTime(st, a.i);
    }
  }

  lemma StepSound(sc: Scope, st: State, a: Action)
    requires Inv(st) && Enabled(st, a)
    ensures Sound(sc, Apply(st, a).log) <==> Sound(sc, st.log) && !(Exposed(st, a) && Concerns(sc, a))
  {
    StepMakes(st, a);
    var calls := CallOf(st, a);
    if calls == [] {
      assert st.log + [] == st.log;
      SilentSafe(st, a);
    } else {
      var c := calls[0];
      SoundAppend(sc, st.log, c);
      CallStrict(st, a, c);
      if Exposed(st, a) { CallScope(sc, st, a, c); }
    }
  }

  lemma {:induction false} RunSound(sc: Scope, st: State, acts: seq<Action>)
    requires Inv(st) && IsRun(st, acts)
    ensures Sound(sc, After(st, acts).log) <==> Sound(sc, st.log) && Careful(sc, st, acts)
    decreases |acts|
  {
    if acts != [] {
      StepInv(st, acts[0]);
      StepSound(sc, st, acts[0]);
      RunSound(sc, Apply(st, acts[0]), acts[1..]);
    }
  }

  /** The calls of a run are all on live handles, from their start to their end, exactly
      when no action of it is exposed when it happens; likewise those of each scope. */
  lemma NoDeadHandle(acts: seq<Action>, sc: Scope)
    requires IsRun(Initial, acts)
    ensures Sound(sc, After(Initial, acts).log) <==> Careful(sc, Initial, acts)
  {
    InitialInv();
    RunSound(sc, Initial, acts);
  }

  /** In every run, careful or not, what a teardown of a session or an explicit shutdown
      of an sftp has called comes back before the sftp or session it works below is given
      back. */
  lemma TeardownInTime(acts: seq<Action>, i: nat)
    requires IsRun(Initial, acts) && i < |After(Initial, acts).threads| && !Aside(After(Initial, acts).threads[i])
    ensures !LateEnd(After(Initial, acts), After(Initial, acts).threads[i])
  {
    ReachableInv(acts);
    InTime(After(Initial, acts), i);
  }

  /** In every run, careful or not, all other calls start on live handles: an sftp is shut
      down after the closes of its files and directories have started, a session freed
      after its channels are and its sftps were shut down. */
  lemma OtherCalls(acts: seq<Action>, i: nat)
    requires IsRun(Initial, acts) && i < |After(Initial, acts).log|
    ensures CallOk(After(Initial, acts).log[..i], After(Initial, acts).log[i])
  {
    ReachableInv(acts);
  }

  // Methods under way

  /** A method holds a reference of its own, which keeps the program from dropping it. */
  ghost predicate InsideOk(st: State) {
    forall c {:trigger st.inside[c]} :: st.inside[c] > 0 ==>
      c in st.objs && st.objs[c].kind != Listen && st.inside[c] <= st.objs[c].user
  }

  lemma CallingInside(st: State, a: Action)
    requires Inv(st) && InsideOk(st) && Enabled(st, a) && Calling(a)
    ensures InsideOk(Apply(st, a))
  {
    var st' := Apply(st, a);
    CallingKeeps(st, a);
    forall c {:trigger st'.inside[c]} | st'.inside[c] > 0
      ensures c in st'.objs && st'.objs[c].kind != Listen && st'.inside[c] <= st'.objs[c].user
    {
      assert c != a.c ==> st'.inside[c] == st.inside[c];
      assert c in st.objs && st'.objs[c].kind == st.objs[c].kind;
    }
  }

  lemma InsideStays(st: State, st': State, who: Ptr)
    requires InsideOk(st) && Keeps(st, st', who) && st'.inside == st.inside
    requires who in st.objs ==> who in st'.objs && st'.objs[who].user >= st.inside[who]
    ensures InsideOk(st')
  {
    forall c {:trigger st'.inside[c]} | st'.inside[c] > 0
      ensures c in st'.objs && st'.objs[c].kind != Listen && st'.inside[c] <= st'.objs[c].user
    {
      assert st.inside[c] > 0;
      assert st'.objs[c].kind == st.objs[c].kind;
      assert c != who ==> st'.objs[c].user == st.objs[c].user;
    }
  }

  lemma StepInside(st: State, a: Action)
    requires Inv(st) && InsideOk(st) && Enabled(st, a)
    ensures InsideOk(Apply(st, a))
  {
    if Calling(a) {
      CallingInside(st, a);
    } else {
      StepKeeps(st, a);
      UsersLeft(st, a);
      InsideStays(st, Apply(st, a), WhoseUser(a));
    }
  }

  lemma UsersLeft(st: State, a: Action)
    requires Inv(st) && InsideOk(st) && Enabled(st, a) && !Calling(a)
    ensures var c := WhoseUser(a); c in st.objs ==> c in Apply(st, a).objs && Apply(st, a).objs[c].user >= st.inside[c]
  {
    NullUnnamed(st);
    match a
    case Drop(c) => DropStays(st, c);
    case Share(c) => assert st.inside[c] <= st.objs[c].user;
    case _ =>
  }

  lemma NullUnnamed(st: State)
    requires TreeOk(st)
    ensures NULL !in st.objs
  {
    forall c | c in st.objs ensures c != NULL {
      assert WrapperOk(st, c);
    }
  }

  lemma {:induction false} RunInside(st: State, acts: seq<Action>)
    requires Inv(st) && InsideOk(st) && IsRun(st, acts)
    ensures InsideOk(After(st, acts))
    decreases |acts|
  {
    if acts != [] {
      StepInv(st, acts[0]);
      StepInside(st, acts[0]);
      RunInside(Apply(st, acts[0]), acts[1..]);
    }
  }

  /** A method that is under way can always come back. */
  lemma MethodsReturn(acts: seq<Action>, c: Ptr)
    requires IsRun(Initial, acts) && c in After(Initial, acts).inside
    ensures Enabled(After(Initial, acts), Return(c))
  {
    InitialInv();
    RunInside(Initial, acts);
    assert After(Initial, acts).inside[c] > 0;
  }
}
