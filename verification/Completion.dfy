/** What a call has achieved when it comes back, in every run: an explicit close, the
    close of a session, its deallocation. And each can come back. */
module Completion {
  import opened LibSsh2
  import opened Machine
  import opened Invariant
  import opened Preservation
  import opened SessionPreservation
  import opened LogPreservation
  import opened Steps
  import opened Cast
  import opened Calls
  import opened Rounds
  import opened Ownership
  import opened Endings
  import opened Effects

  // Explicit closes

  /** Thread `t` is at work on an explicit close of `c`. */
  predicate Closing(t: Thread, c: Ptr) {
    t.root.Shut? && t.root.c == c && t.pc != Done && t.pc != AtReturn
  }

  /** It is, or `c` is closed. */
  predicate ClosingOrNull(st: State, i: nat, c: Ptr) {
    i < |st.threads| && c in st.objs && (Closing(st.threads[i], c) || st.objs[c].ptr == NULL)
  }

  lemma LoopGoesOn(st: State, i: nat, c: Ptr, pick: Ptr)
    requires Inv(st) && CanRun(st, i, pick) && Closing(st.threads[i], c)
    requires st.threads[i].pc.AtDirs? || st.threads[i].pc.AtFiles?
    ensures i < |RunThread(st, i, pick).threads| && Closing(RunThread(st, i, pick).threads[i], c)
  {
  }

  lemma HandleGoesOn(st: State, i: nat, c: Ptr, pick: Ptr)
    requires Inv(st) && CanRun(st, i, pick) && Closing(st.threads[i], c) && st.threads[i].pc.InHandle?
    ensures i < |RunThread(st, i, pick).threads| && Closing(RunThread(st, i, pick).threads[i], c)
  {
    assert ThreadOk(st, i);
    assert WrapperOk(st, st.threads[i].pc.d);
    var d := st.threads[i].pc.d;
    FinishShape(if st.objs[d].ptr == NULL then st else Logged(st, [Back(st.threads[i].pc.s)]), i, d,
                if st.objs[d].kind == Dir then AtDirs(st.threads[i].pc.s) else AtFiles(st.threads[i].pc.s));
  }

  lemma ClosingRun(st: State, i: nat, c: Ptr, pick: Ptr)
    requires Inv(st) && CanRun(st, i, pick) && ClosingOrNull(st, i, c) && Closing(st.threads[i], c)
    ensures ClosingOrNull(RunThread(st, i, pick), i, c)
  {
    assert ThreadOk(st, i);
    StepKeeps(st, Run(i, pick));
    match st.threads[i].pc
    case AtDirs(_) => LoopGoesOn(st, i, c, pick);
    case AtFiles(_) => LoopGoesOn(st, i, c, pick);
    case InHandle(_, _) => HandleGoesOn(st, i, c, pick);
    case _ => CloseEndEffect(st, i, c, pick);
  }

  lemma ClosingStep(st: State, a: Action, i: nat, c: Ptr)
    requires Inv(st) && Enabled(st, a) && ClosingOrNull(st, i, c)
    ensures ClosingOrNull(Apply(st, a), i, c)
  {
    StepKeeps(st, a);
    if a.Run? {
      if a.i == i && Closing(st.threads[i], c) { ClosingRun(st, i, c, a.pick); } else { RunStep(st, a.i, a.pick); }
    } else {
      ApiStep(st, a);
    }
  }

  lemma {:induction false} ClosingStays(st: State, acts: seq<Action>, i: nat, c: Ptr)
    requires Inv(st) && IsRun(st, acts) && ClosingOrNull(st, i, c)
    ensures Inv(After(st, acts)) && ClosingOrNull(After(st, acts), i, c)
    decreases |acts|
  {
    if acts != [] {
      StepInv(st, acts[0]);
      ClosingStep(st, acts[0], i, c);
      ClosingStays(Apply(st, acts[0]), acts[1..], i, c);
    }
  }

  /** The action closes the open wrapper `c`: explicitly, through an open sftp if it is a
      directory or file, or because it drops the last reference to a listener. */
  predicate ClosesOpen(st: State, a: Action, c: Ptr) {
    && c in st.objs && st.objs[c].ptr != NULL
    && match a
       case CloseChannel(_, c1) => c1 == c
       case ShutdownSftp(_, s) => s == c
       case CancelListener(_, l) => l == c
       case CloseFile(s, d) => d == c && s in st.objs && st.objs[s].ptr != NULL
       case Drop(l) => l == c && st.objs[c].kind == Listen && st.objs[c].refs == 1
       case _ => false
  }

  lemma BeginsClosing(st: State, st': State, o: Ptr, c: Ptr, via: Ptr)
    requires c in st.objs && Begins(st, st', o, c, via)
    ensures ClosingOrNull(st', |st.threads|, c)
  {
  }

  lemma CloseBegins(st: State, a: Action, c: Ptr)
    requires Inv(st) && Enabled(st, a) && ClosesOpen(st, a, c)
    ensures ClosingOrNull(Apply(st, a), |st.threads|, c)
  {
    var st' := Apply(st, a);
    match a
    case CloseChannel(x, _) =>
      CloseChannelEffect(st, x, c);
      BeginsClosing(st, st', x, c, if st.objs[c].owner == x then x else NULL);
    case ShutdownSftp(x, _) =>
      ShutdownSftpEffect(st, x, c);
      BeginsClosing(st, st', x, c, if st.objs[c].owner == x then x else NULL);
    case CancelListener(x, _) =>
      CancelListenerEffect(st, x, c);
      BeginsClosing(st, st', x, c, if st.objs[c].owner == x then x else NULL);
    case CloseFile(s, _) =>
      CloseFileEffect(st, s, c);
      BeginsClosing(st, st', s, c, NULL);
    case Drop(_) => DropEffect(st, c);
  }

  /** In every run, a call that closes an open wrapper starts a thread. As long as that is
      at work it has the wrapper, which is still open, in its hands; once it returns, the
      wrapper is closed and was given back exactly once. */
  lemma CloseCompletes(acts: seq<Action>, a: Action, c: Ptr, rest: seq<Action>)
    requires IsRun(Initial, acts) && Enabled(After(Initial, acts), a) && ClosesOpen(After(Initial, acts), a, c)
    requires IsRun(Apply(After(Initial, acts), a), rest)
    ensures var i, st := |After(Initial, acts).threads|, After(Apply(After(Initial, acts), a), rest);
      && i < |st.threads| && c in st.objs
      && (if Closing(st.threads[i], c) then st.objs[c].ptr == c && st.objs[c].holder == i
          else st.objs[c].ptr == NULL && Times(st.log, ReleaseOf(st.objs[c].kind, c)) == 1)
  {
    ReachableInv(acts);
    var st0 := After(Initial, acts);
    CloseBegins(st0, a, c);
    StepInv(st0, a);
    ClosingStays(Apply(st0, a), rest, |st0.threads|, c);
    var st := After(Apply(st0, a), rest);
    assert WrapperOk(st, c) && WrapperLogged(st, c);
    if Closing(st.threads[|st0.threads|], c) {
      assert ThreadOk(st, |st0.threads|);
      RootHeld(st, |st0.threads|);
    }
  }

  /** However many teardowns are under way, the program can call methods of what it
      refers to, close it through its own owner if no thread has it in its hands, and
      drop each reference that no method needs; it can close and drop sessions too.
      Only a close through another owner stands in the way of all but methods. */
  lemma Admits(st: State, c: Ptr)
    requires Inv(st) && c in st.objs && st.objs[c].user > 0
    requires forall i :: 0 <= i < |st.threads| ==> !Strays(st, st.threads[i])
    ensures var w := st.objs[c];
      && (w.holder < 0 && Usr(st, w.owner) ==>
            match w.kind
            case Chan => Enabled(st, CloseChannel(w.owner, c))
            case Sftp => Enabled(st, ShutdownSftp(w.owner, c))
            case Listen => Enabled(st, CancelListener(w.owner, c))
            case _ => true)
      && (w.holder < 0 && IsFile(w.kind) && w.owner in st.objs && st.objs[w.owner].user > 0 ==>
            Enabled(st, CloseFile(w.owner, c)))
      && (st.inside[c] < w.user ==> Enabled(st, Drop(c)))
    ensures st.objs[c].kind != Listen ==> Enabled(st, Method(c))
    ensures forall x :: Usr(st, x) ==> Enabled(st, CloseSession(x)) && Enabled(st, DropSession(x))
  {
    assert WrapperOk(st, c);
  }

  /** With an sftp all its directories and files have been given back, each once. */
  lemma ClosedSftpBelow(acts: seq<Action>, s: Ptr, d: Ptr)
    requires IsRun(Initial, acts)
    requires var st := After(Initial, acts);
      && s in st.objs && st.objs[s].kind == Sftp && st.objs[s].ptr == NULL
      && d in st.objs && IsFile(st.objs[d].kind) && st.objs[d].owner == s
    ensures Times(After(Initial, acts).log, CloseHandle(d)) == 1
  {
    ReachableInv(acts);
    var st := After(Initial, acts);
    assert WrapperOk(st, d) && WrapperLogged(st, d);
  }

  // The close of a session

  /** Thread `i` ends session `x`, and since the log was `n` calls long it has said
      goodbye if it is that far. */
  ghost predicate EndsAfter(st: State, i: nat, x: Ptr, n: nat) {
    && i < |st.threads| && !st.threads[i].root.Shut? && st.threads[i].root.x == x && n <= |st.log|
    && (st.threads[i].pc in {InDisconnect, AtFree, Done} ==> Disconnect(x) in st.log[n..])
  }

  lemma LaterLog(log: Log, calls: Log, n: nat)
    requires n <= |log|
    ensures (log + calls)[n..] == log[n..] + calls
  {
  }

  lemma EndsAfterStep(st: State, a: Action, i: nat, x: Ptr, n: nat)
    requires Inv(st) && Enabled(st, a) && EndsAfter(st, i, x, n)
    ensures EndsAfter(Apply(st, a), i, x, n)
  {
    StepMakes(st, a);
    LaterLog(st.log, CallOf(st, a), n);
    if a.Run? {
      RunStep(st, a.i, a.pick);
      if a.i == i && Apply(st, a).threads[i].pc == InDisconnect { GoodbyeCall(st, i, a.pick); }
    } else {
      ApiStep(st, a);
    }
  }

  lemma {:induction false} EndsAfterRun(st: State, acts: seq<Action>, i: nat, x: Ptr, n: nat)
    requires Inv(st) && IsRun(st, acts) && EndsAfter(st, i, x, n)
    ensures EndsAfter(After(st, acts), i, x, n)
    decreases |acts|
  {
    if acts != [] {
      StepInv(st, acts[0]);
      EndsAfterStep(st, acts[0], i, x, n);
      EndsAfterRun(Apply(st, acts[0]), acts[1..], i, x, n);
    }
  }

  /** In every run, a close of a session that is up starts a thread; once that is back,
      the session has said goodbye since then, and it is down unless it was started
      again. */
  lemma CloseSessionCompletes(acts: seq<Action>, x: Ptr, rest: seq<Action>)
    requires IsRun(Initial, acts) && Enabled(After(Initial, acts), CloseSession(x))
    requires After(Initial, acts).sessions[x].up && IsRun(Apply(After(Initial, acts), CloseSession(x)), rest)
    ensures var st0, i := After(Initial, acts), |After(Initial, acts).threads|;
      var st := After(Apply(st0, CloseSession(x)), rest);
      && i < |st.threads| && x in st.sessions && |st0.log| <= |st.log|
      && (st.threads[i].pc == Done ==> Disconnect(x) in st.log[|st0.log|..])
      && (st.threads[i].pc == Done && Startup(x, true) !in rest ==> !st.sessions[x].up)
  {
    ReachableInv(acts);
    var st0 := After(Initial, acts);
    var i, st1 := |st0.threads|, Apply(st0, CloseSession(x));
    CloseSessionEffect(st0, x);
    StepInv(st0, CloseSession(x));
    EndsAfterRun(st1, rest, i, x, |st0.log|);
    StaysKnown(st1, rest, x);
    if Startup(x, true) !in rest { EndedStays(st1, rest, i, x); }
  }

  lemma {:induction false} StaysKnown(st: State, acts: seq<Action>, x: Ptr)
    requires Inv(st) && IsRun(st, acts) && x in st.sessions
    ensures x in After(st, acts).sessions
    decreases |acts|
  {
    if acts != [] {
      StepInv(st, acts[0]);
      if acts[0].Run? { RunStep(st, acts[0].i, acts[0].pick); } else { ApiStep(st, acts[0]); }
      StaysKnown(Apply(st, acts[0]), acts[1..], x);
    }
  }

  // Deallocation

  /** Thread `i` deallocates session `x`, whose handle is gone if that is over. */
  ghost predicate Frees(st: State, i: nat, x: Ptr) {
    && i < |st.threads| && st.threads[i].root == Dealloc(x) && x in st.sessions
    && (st.threads[i].pc == Done ==> st.sessions[x].ptr == NULL)
  }

  lemma FreesStep(st: State, a: Action, i: nat, x: Ptr)
    requires Inv(st) && Enabled(st, a) && Frees(st, i, x)
    ensures Frees(Apply(st, a), i, x)
  {
    if a.Run? {
      RunStep(st, a.i, a.pick);
      if a.i == i { DeallocGoesOn(st, i, a.pick); }
    } else {
      ApiStep(st, a);
    }
  }

  lemma DeallocGoesOn(st: State, i: nat, pick: Ptr)
    requires Inv(st) && CanRun(st, i, pick) && st.threads[i].root.Dealloc? && RunMoves(st, RunThread(st, i, pick), i)
    ensures var t := RunThread(st, i, pick).threads[i];
      t.root == st.threads[i].root && (t.pc == Done ==> st.threads[i].pc == AtFree)
  {
    assert ThreadOk(st, i);
  }

  lemma {:induction false} FreesRun(st: State, acts: seq<Action>, i: nat, x: Ptr)
    requires Inv(st) && IsRun(st, acts) && Frees(st, i, x)
    ensures Inv(After(st, acts)) && Frees(After(st, acts), i, x)
    decreases |acts|
  {
    if acts != [] {
      StepInv(st, acts[0]);
      FreesStep(st, acts[0], i, x);
      FreesRun(Apply(st, acts[0]), acts[1..], i, x);
    }
  }

  /** In every run, the last reference to a session starts a thread; once that is back,
      the session was freed, exactly once, and until then it was not. */
  lemma DeallocCompletes(acts: seq<Action>, x: Ptr, rest: seq<Action>)
    requires IsRun(Initial, acts) && Enabled(After(Initial, acts), DropSession(x))
    requires After(Initial, acts).sessions[x].refs == 1
    requires IsRun(Apply(After(Initial, acts), DropSession(x)), rest)
    ensures var i, st := |After(Initial, acts).threads|, After(Apply(After(Initial, acts), DropSession(x)), rest);
      && i < |st.threads| && x in st.sessions
      && (st.threads[i].pc == Done <==> st.sessions[x].ptr == NULL)
      && (st.threads[i].pc == Done <==> Times(st.log, SessionFree(x)) == 1)
  {
    ReachableInv(acts);
    var st0 := After(Initial, acts);
    assert SessionOk(st0, x);
    DropSessionEffect(st0, x);
    StepInv(st0, DropSession(x));
    FreesRun(Apply(st0, DropSession(x)), rest, |st0.threads|, x);
    var st := After(Apply(st0, DropSession(x)), rest);
    assert ThreadOk(st, |st0.threads|) && SessionLogged(st, x);
  }

  // Every thread can come back

  lemma CanStep(st: State, i: nat) returns (pick: Ptr)
    requires Inv(st) && i < |st.threads| && st.threads[i].pc != Done
    ensures CanRun(st, i, pick)
  {
    assert ThreadOk(st, i);
    var (loops, o, k) := Looping(st.threads[i]);
    pick := NULL;
    if loops && Members(st, o, k) != {} { pick :| pick in Members(st, o, k); }
  }

  lemma {:induction false} Finishes(st: State, i: nat) returns (st': State)
    requires Inv(st) && i < |st.threads|
    ensures Reaches(st, st', i) && i < |st'.threads| && st'.threads[i].pc == Done
    decreases Work(st)
  {
    if st.threads[i].pc == Done {
      st' := st;
      ReachesSelf(st, i);
    } else {
      var pick := CanStep(st, i);
      WorkDecreases(st, i, pick);
      StepInv(st, Run(i, pick));
      RunStep(st, i, pick);
      st' := Finishes(RunThread(st, i, pick), i);
      ReachesStep(st, i, pick);
      ReachesTrans(st, RunThread(st, i, pick), st', i);
    }
  }

  /** In every state of a run, each thread can come back by its own steps alone. */
  lemma ThreadsFinish(acts: seq<Action>, i: nat)
    requires IsRun(Initial, acts) && i < |After(Initial, acts).threads|
    ensures exists st' :: Reaches(After(Initial, acts), st', i) && i < |st'.threads| && st'.threads[i].pc == Done
  {
    ReachableInv(acts);
    var st' := Finishes(After(Initial, acts), i);
  }
}
