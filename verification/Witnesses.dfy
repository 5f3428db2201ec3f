/** Runs that do use a dead handle, one of each kind: a listener cancelled after its
    session was freed, by its last reference or through another session; a method that
    starts while its handle is being closed; a method that comes back after its handle
    was given back; a cancel, and an explicit close of a directory, that come back
    after their session was freed. */
module Witnesses {
  import opened LibSsh2
  import opened Machine
  import opened LogPreservation
  import opened Steps
  import opened Preservation
  import opened Rounds
  import opened Exposure

  ghost predicate Reachable(st: State) {
    exists acts :: IsRun(Initial, acts) && After(Initial, acts) == st
  }

  lemma Extend(st: State, a: Action)
    requires Reachable(st) && Enabled(st, a)
    ensures Reachable(Apply(st, a))
  {
    var acts :| IsRun(Initial, acts) && After(Initial, acts) == st;
    assert IsRun(Apply(st, a), []) && [a][1..] == [];
    assert IsRun(st, [a]) && After(st, [a]) == Apply(st, a);
    RunConcat(Initial, acts, [a]);
  }

  /** A run can go on with an exposed action, and then has used a dead handle. */
  ghost predicate Misuses(log: Log) {
    exists acts :: IsRun(Initial, acts) && After(Initial, acts).log == log && !Sound(Everything, log)
  }

  lemma Misuse(st: State, a: Action)
    requires Reachable(st) && Enabled(st, a) && Exposed(st, a)
    ensures Misuses(Apply(st, a).log)
  {
    var before :| IsRun(Initial, before) && After(Initial, before) == st;
    ReachableInv(before);
    StepSound(Everything, st, a);
    Extend(st, a);
    var acts :| IsRun(Initial, acts) && After(Initial, acts) == Apply(st, a);
  }

  const S: Ptr := 1
  const L: Ptr := 2

  function Opening(): Log {
    [Opened(Sess, S, NULL, true), Started(S), Opened(Listen, L, S, true)]
  }

  /** One session, one listener, and the thread that deallocates the session. */
  function Late(s: Session, l: Wrapper, members: set<Ptr>, pc: Pc, log: Log): State {
    State(map[S := s], map[L := l], map[(S, Listen) := members], [Thread(Dealloc(S), pc)], multiset{}, {S, L}, log)
  }

  function Listening(log: Log): State {
    State(map[S := Session(S, true, 1, 1, -1)], map[L := Wrapper(Listen, S, L, 2, 1, 0, -1)], map[(S, Listen) := {L}],
        [], multiset{}, {S, L}, log)
  }

  lemma Starts() returns (st: State)
    ensures Reachable(st)
    ensures st == State(map[S := Session(S, true, 1, 1, -1)], map[], map[], [], multiset{}, {S},
      [Opened(Sess, S, NULL, true), Started(S)])
  {
    assert IsRun(Initial, []) && After(Initial, []) == Initial;
    Extend(Initial, NewSession(S));
    var st1 := Apply(Initial, NewSession(S));
    Extend(st1, Startup(S, true));
    st := Apply(st1, Startup(S, true));
    assert st.sessions == map[S := Session(S, true, 1, 1, -1)];
  }

  lemma Opens()
    ensures Reachable(Listening(Opening()))
  {
    var st := Starts();
    var a := Open(S, Listen, false, L, true);
    Extend(st, a);
    var st' := Apply(st, a);
    assert {} + {L} == {L} && {S} + {L} == {S, L};
    assert st'.objs == Listening(Opening()).objs;
    assert st'.sets == Listening(Opening()).sets;
    assert st'.log == Opening();
    assert st' == Listening(Opening());
  }

  const Kept: Wrapper := Wrapper(Listen, S, L, 1, 1, 0, -1)
  const Dying: Session := Session(S, true, 0, 0, 0)

  lemma Drops(log: Log)
    requires Reachable(Listening(log))
    ensures Reachable(Late(Dying, Kept.(refs := 2), {L}, AtSftps, log))
  {
    Extend(Listening(log), DropSession(S));
    assert Apply(Listening(log), DropSession(S)) == Late(Dying, Kept.(refs := 2), {L}, AtSftps, log);
  }

  /** The loops over sftps and channels find nothing. */
  lemma Passes(log: Log)
    requires Reachable(Late(Dying, Kept.(refs := 2), {L}, AtSftps, log))
    ensures Reachable(Late(Dying, Kept.(refs := 2), {L}, AtListeners, log))
  {
    var st := Late(Dying, Kept.(refs := 2), {L}, AtSftps, log);
    Extend(st, Run(0, L));
    var st1 := Late(Dying, Kept.(refs := 2), {L}, AtChannels, log);
    assert Apply(st, Run(0, L)) == st1;
    Extend(st1, Run(0, L));
    assert Apply(st1, Run(0, L)) == Late(Dying, Kept.(refs := 2), {L}, AtListeners, log);
  }

  /** The listener is popped, but not cancelled: the program has a reference. */
  lemma PopsListener(log: Log)
    requires Reachable(Late(Dying, Kept.(refs := 2), {L}, AtListeners, log))
    ensures Reachable(Late(Dying, Kept, {}, AtListeners, log))
  {
    var st := Late(Dying, Kept.(refs := 2), {L}, AtListeners, log);
    Extend(st, Run(0, L));
    assert Discard(st, S, L) == Late(Dying, Kept, {}, AtListeners, log) by {
      assert {L} - {L} == {};
      assert Remove(st, S, Listen, L).sets == map[(S, Listen) := {}];
    }
  }

  lemma SaysGoodbye(log: Log)
    requires Reachable(Late(Dying, Kept, {}, AtListeners, log))
    ensures Reachable(Late(Dying, Kept, {}, InDisconnect, log + [Disconnect(S)]))
  {
    var st := Late(Dying, Kept, {}, AtListeners, log);
    Extend(st, Run(0, L));
    assert Apply(st, Run(0, L)) == Late(Dying, Kept, {}, InDisconnect, log + [Disconnect(S)]);
  }

  lemma Goodbyes(log: Log)
    requires Reachable(Late(Dying, Kept, {}, AtListeners, log))
    ensures Reachable(Late(Dying.(up := false), Kept, {}, AtFree, log + [Disconnect(S)] + [Back(S)]))
  {
    SaysGoodbye(log);
    var st := Late(Dying, Kept, {}, InDisconnect, log + [Disconnect(S)]);
    Extend(st, Run(0, L));
    assert Apply(st, Run(0, L)) == Late(Dying.(up := false), Kept, {}, AtFree, log + [Disconnect(S)] + [Back(S)]);
  }

  lemma Frees(log: Log)
    requires Reachable(Late(Dying.(up := false), Kept, {}, AtFree, log))
    ensures Reachable(Late(Dying.(up := false, ptr := NULL), Kept, {}, Done, log + [SessionFree(S)]))
  {
    var st := Late(Dying.(up := false), Kept, {}, AtFree, log);
    Extend(st, Run(0, L));
    assert Apply(st, Run(0, L)) == Late(Dying.(up := false, ptr := NULL), Kept, {}, Done, log + [SessionFree(S)]);
  }

  function Ended(): Log {
    Opening() + [Disconnect(S)] + [Back(S)]
  }

  /** The program keeps the listener, and the session has said goodbye, */
  lemma ListenerSurvives()
    ensures Reachable(Late(Dying.(up := false), Kept, {}, AtFree, Ended()))
  {
    Opens();
    Drops(Opening());
    Passes(Opening());
    PopsListener(Opening());
    Goodbyes(Opening());
  }

  /** and is freed. */
  lemma SessionGoes()
    ensures Reachable(Late(Dying.(up := false, ptr := NULL), Kept, {}, Done, Ended() + [SessionFree(S)]))
  {
    ListenerSurvives();
    Frees(Ended());
  }

  /** The program opens a listener, drops the session, keeps the listener, and drops
      that too: it is cancelled on a session that is gone. */
  lemma CancelAfterFree()
    ensures Misuses(Ended() + [SessionFree(S)] + [Cancel(L)])
  {
    SessionGoes();
    var st := Late(Dying.(up := false, ptr := NULL), Kept, {}, Done, Ended() + [SessionFree(S)]);
    Misuse(st, Drop(L));
  }

  const S2: Ptr := 3

  /** Or it cancels the listener through another session. */
  lemma CancelThroughOther()
    ensures Misuses(Ended() + [SessionFree(S)] + [Opened(Sess, S2, NULL, true)] + [Cancel(L)])
  {
    SessionGoes();
    var st := Late(Dying.(up := false, ptr := NULL), Kept, {}, Done, Ended() + [SessionFree(S)]);
    Extend(st, NewSession(S2));
    var st1 := Apply(st, NewSession(S2));
    Misuse(st1, CancelListener(S2, L));
  }

  /** Or it drops the listener in time: */
  lemma DropsListener() returns (st: State)
    ensures Reachable(st)
    ensures st.threads == [Thread(Dealloc(S), AtFree), Thread(Shut(L, NULL), InCancel(L))]
    ensures st.sessions == map[S := Dying.(up := false)] && st.objs == map[L := Kept.(user := 0, holder := 1)]
    ensures st.log == Ended() + [Cancel(L)]
  {
    ListenerSurvives();
    var st0 := Late(Dying.(up := false), Kept, {}, AtFree, Ended());
    Extend(st0, Drop(L));
    st := Apply(st0, Drop(L));
  }

  lemma FreesMeanwhile() returns (st: State)
    ensures Reachable(st)
    ensures st.threads == [Thread(Dealloc(S), Done), Thread(Shut(L, NULL), InCancel(L))]
    ensures S in st.sessions && st.sessions[S].ptr == NULL && st.objs == map[L := Kept.(user := 0, holder := 1)]
    ensures st.log == Ended() + [Cancel(L)] + [SessionFree(S)]
  {
    var st0 := DropsListener();
    Extend(st0, Run(0, NULL));
    st := Apply(st0, Run(0, NULL));
  }

  /** the cancel is under way when the session is freed, and comes back after that. */
  lemma CancelAcrossFree()
    ensures Misuses(Ended() + [Cancel(L)] + [SessionFree(S)] + [Back(S)])
  {
    var st := FreesMeanwhile();
    Misuse(st, Run(1, NULL));
  }

  // Methods

  const C: Ptr := 2
  const Chan1: Wrapper := Wrapper(Chan, S, C, 2, 1, 0, -1)
  const Up: Session := Session(S, true, 1, 1, -1)

  lemma OpensChannel() returns (st: State)
    ensures Reachable(st)
    ensures st == State(map[S := Up], map[C := Chan1], map[(S, Chan) := {C}], [], multiset{}, {S, C}, st.log)
    ensures st.log == [Opened(Sess, S, NULL, true), Started(S)] + [Opened(Chan, C, S, true)]
  {
    var st0 := Starts();
    var a := Open(S, Chan, false, C, true);
    Extend(st0, a);
    st := Apply(st0, a);
    assert {} + {C} == {C} && {S} + {C} == {S, C};
    assert st.objs == map[C := Chan1] && st.sets == map[(S, Chan) := {C}];
  }

  function Reading(): Log {
    [Opened(Sess, S, NULL, true), Started(S)] + [Opened(Chan, C, S, true)] + [Enter(C)]
  }

  lemma Reads() returns (st: State)
    ensures Reachable(st)
    ensures st == State(map[S := Up], map[C := Chan1.(refs := 3, user := 2)], map[(S, Chan) := {C}], [], multiset{C},
      {S, C}, Reading())
  {
    var st0 := OpensChannel();
    Extend(st0, Method(C));
    st := Apply(st0, Method(C));
    assert st.objs == map[C := Chan1.(refs := 3, user := 2)];
    assert st.inside == multiset{C};
  }

  lemma StartsClose() returns (st: State)
    ensures Reachable(st)
    ensures st.threads == [Thread(Shut(C, S), InChannel(C))] && st.log == Reading() + [ChannelClose(C)]
    ensures st.inside == multiset{C}
    ensures C in st.objs && st.objs[C] == Wrapper(Chan, S, C, 3, 2, 0, 0)
  {
    var st0 := Reads();
    Extend(st0, CloseChannel(S, C));
    st := Apply(st0, CloseChannel(S, C));
  }

  lemma ClosesChannel() returns (st: State)
    ensures Reachable(st)
    ensures C in st.objs && st.objs[C].kind == Chan && st.objs[C].user == 2 && st.objs[C].ptr == NULL && C in st.inside
    ensures st.log == Reading() + [ChannelClose(C)] + [ChannelFree(C)]
  {
    var st1 := StartsClose();
    Extend(st1, Run(0, C));
    st := Apply(st1, Run(0, C));
  }

  /** One thread reads from a channel, another closes it, the read comes back. */
  lemma ReadAcrossClose()
    ensures Misuses(Reading() + [ChannelClose(C)] + [ChannelFree(C)] + [Leave(C)])
  {
    var st := ClosesChannel();
    Misuse(st, Return(C));
    ReturnLog(st);
  }

  lemma ReturnLog(st: State)
    requires C in st.objs && st.objs[C].kind == Chan && st.objs[C].ptr == NULL
    ensures DoReturn(st, C).log == st.log + [Leave(C)]
  {
  }

  const F: Ptr := 2
  const D: Ptr := 4

  function Listing(): Log {
    [Opened(Sess, S, NULL, true), Started(S)] + [Opened(Sftp, F, S, true)] + [Opened(Dir, D, F, true)]
  }

  /** A session with one sftp, which has one directory open. */
  lemma OpensDir() returns (st: State)
    ensures Reachable(st)
    ensures st == State(map[S := Up], map[F := Wrapper(Sftp, S, F, 2, 1, 0, -1), D := Wrapper(Dir, F, D, 2, 1, 0, -1)],
                        map[(S, Sftp) := {F}, (F, Dir) := {D}], [], multiset{}, {S, F, D}, Listing())
  {
    var st0 := Starts();
    var a := Open(S, Sftp, false, F, true);
    Extend(st0, a);
    var st1 := Apply(st0, a);
    assert {} + {F} == {F};
    assert st1.objs == map[F := Wrapper(Sftp, S, F, 2, 1, 0, -1)] && st1.sets == map[(S, Sftp) := {F}];
    var b := OpenHandle(F, Dir, D, true);
    Extend(st1, b);
    st := Apply(st1, b);
    assert {} + {D} == {D};
    assert st.issued == {S, F, D};
    assert st.objs == map[F := Wrapper(Sftp, S, F, 2, 1, 0, -1), D := Wrapper(Dir, F, D, 2, 1, 0, -1)];
    assert st.sets == map[(S, Sftp) := {F}, (F, Dir) := {D}];
  }

  /** Another thread has started to close the session and popped the sftp, */
  lemma PopsSftp() returns (st: State)
    ensures Reachable(st)
    ensures st.threads == [Thread(Close(S), AtDirs(F))] && D in Members(st, F, Dir) && st.log == Listing()
    ensures S in st.sessions && D in st.objs && st.objs[D] == Wrapper(Dir, F, D, 2, 1, 0, -1)
  {
    var st0 := OpensDir();
    Extend(st0, CloseSession(S));
    var st1 := Apply(st0, CloseSession(S));
    assert st1.threads == [Thread(Close(S), AtSftps)];
    Extend(st1, Run(0, F));
    st := Apply(st1, Run(0, F));
  }

  /** and has just given the directory back. */
  lemma ClosesDir() returns (st: State)
    ensures Reachable(st)
    ensures D in st.objs && st.objs[D] == Wrapper(Dir, F, D, 2, 1, 0, 0)
    ensures st.log == Listing() + [CloseHandle(D)]
  {
    var st0 := PopsSftp();
    Extend(st0, Run(0, D));
    st := Apply(st0, Run(0, D));
  }

  /** A read of the directory still passes the guard. */
  lemma ReadDuringClose()
    ensures Misuses(Listing() + [CloseHandle(D)] + [Enter(D)])
  {
    var st := ClosesDir();
    Misuse(st, Method(D));
  }

  // An explicit close

  // The directory while it is closed, the sftp before and after it is shut down

  const Closed1: Wrapper := Wrapper(Dir, F, D, 2, 1, 0, 0)
  const Sftp1: Wrapper := Wrapper(Sftp, S, F, 2, 1, 0, -1)
  const Shut1: Wrapper := Sftp1.(ptr := NULL, refs := 1)

  /** Thread 0 closes the directory, thread 1 deallocates the session. */
  function Across(s: Session, f: Wrapper, fs: set<Ptr>, pc: Pc, log: Log): State {
    State(map[S := s], map[F := f, D := Closed1], map[(S, Sftp) := fs, (F, Dir) := {}],
          [Thread(Shut(D, NULL), InClose(D)), Thread(Dealloc(S), pc)], multiset{}, {S, F, D}, log)
  }

  const Going: Session := Session(S, true, 0, 0, 1)

  lemma StartsDirClose() returns (st: State)
    ensures Reachable(st)
    ensures st == State(map[S := Up], map[F := Sftp1, D := Closed1], map[(S, Sftp) := {F}, (F, Dir) := {}],
                        [Thread(Shut(D, NULL), InClose(D))], multiset{}, {S, F, D}, Listing() + [CloseHandle(D)])
  {
    var st0 := OpensDir();
    Extend(st0, CloseFile(F, D));
    st := Apply(st0, CloseFile(F, D));
    assert {D} - {D} == {};
    assert st.sets == map[(S, Sftp) := {F}, (F, Dir) := {}];
    assert st.objs == map[F := Sftp1, D := Closed1];
  }

  lemma DropsSession(log: Log)
    requires log == Listing() + [CloseHandle(D)]
    ensures Reachable(Across(Going, Sftp1, {F}, AtSftps, log))
  {
    var st := StartsDirClose();
    Extend(st, DropSession(S));
    assert Apply(st, DropSession(S)) == Across(Going, Sftp1, {F}, AtSftps, log);
  }

  /** Thread 1 pops the sftp and shuts it down: its one directory is in other hands. */
  lemma TakesSftp(log: Log)
    requires Reachable(Across(Going, Sftp1, {F}, AtSftps, log))
    ensures Reachable(Across(Going, Sftp1.(holder := 1), {}, AtDirs(F), log))
  {
    var st := Across(Going, Sftp1, {F}, AtSftps, log);
    Extend(st, Run(1, F));
    assert {F} - {F} == {};
    assert Take(st, 1, S, F).sets == map[(S, Sftp) := {}, (F, Dir) := {}];
    assert Apply(st, Run(1, F)) == Across(Going, Sftp1.(holder := 1), {}, AtDirs(F), log);
  }

  /** Thread 1 takes a step that only moves it on, with or without a call. */
  lemma Onward(s: Session, f: Wrapper, pc: Pc, log: Log, pc': Pc, log': Log)
    requires Reachable(Across(s, f, {}, pc, log)) && CanRun(Across(s, f, {}, pc, log), 1, NULL)
    requires RunThread(Across(s, f, {}, pc, log), 1, NULL) == Across(s, f, {}, pc', log')
    ensures Reachable(Across(s, f, {}, pc', log'))
  {
    Extend(Across(s, f, {}, pc, log), Run(1, NULL));
  }

  lemma ShutsSftp(log: Log)
    requires Reachable(Across(Going, Sftp1.(holder := 1), {}, AtDirs(F), log))
    ensures Reachable(Across(Going, Shut1, {}, AtSftps, log + [LibSsh2.Shutdown(F)]))
  {
    var f := Sftp1.(holder := 1);
    Onward(Going, f, AtDirs(F), log, AtFiles(F), log);
    Onward(Going, f, AtFiles(F), log, AtShut(F), log);
    DropsSftp(log);
  }

  lemma DropsSftp(log: Log)
    requires Reachable(Across(Going, Sftp1.(holder := 1), {}, AtShut(F), log))
    ensures Reachable(Across(Going, Shut1, {}, AtSftps, log + [LibSsh2.Shutdown(F)]))
  {
    var st := Across(Going, Sftp1.(holder := 1), {}, AtShut(F), log);
    Extend(st, Run(1, NULL));
    FinishShape(Logged(st, [LibSsh2.Shutdown(F)]), 1, F, AtSftps);
    var st' := Apply(st, Run(1, NULL));
    assert st'.objs == map[F := Shut1, D := Closed1];
    assert st'.threads == [Thread(Shut(D, NULL), InClose(D)), Thread(Dealloc(S), AtSftps)];
    assert st' == Across(Going, Shut1, {}, AtSftps, log + [LibSsh2.Shutdown(F)]);
  }

  lemma SaysItsGoodbye(log: Log)
    requires Reachable(Across(Going, Shut1, {}, AtSftps, log))
    ensures Reachable(Across(Going, Shut1, {}, InDisconnect, log + [Disconnect(S)]))
  {
    Onward(Going, Shut1, AtSftps, log, AtChannels, log);
    Onward(Going, Shut1, AtChannels, log, AtListeners, log);
    Onward(Going, Shut1, AtListeners, log, InDisconnect, log + [Disconnect(S)]);
  }

  /** Thread 1 is done with the loops; the directory is still being closed. */
  ghost predicate Leaves(st: State, s: Session, pc: Pc) {
    && Reachable(st) && st.sessions == map[S := s] && st.objs == map[F := Shut1, D := Closed1]
    && st.threads == [Thread(Shut(D, NULL), InClose(D)), Thread(Dealloc(S), pc)]
  }

  /** The goodbye comes back, */
  lemma ComesBack(st: State) returns (st': State)
    requires Leaves(st, Going, InDisconnect)
    ensures Leaves(st', Going.(up := false), AtFree) && st'.log == st.log + [Back(S)]
  {
    Extend(st, Run(1, NULL));
    st' := Apply(st, Run(1, NULL));
  }

  /** and the session is freed. */
  lemma FreesSession(st: State) returns (st': State)
    requires Leaves(st, Going.(up := false), AtFree)
    ensures Leaves(st', Going.(up := false, ptr := NULL), Done) && st'.log == st.log + [SessionFree(S)]
  {
    Extend(st, Run(1, NULL));
    st' := Apply(st, Run(1, NULL));
  }

  function Farewell(): Log {
    Listing() + [CloseHandle(D)] + [LibSsh2.Shutdown(F)] + [Disconnect(S)]
  }

  lemma SftpGoes()
    ensures Reachable(Across(Going, Shut1, {}, InDisconnect, Farewell()))
  {
    var log := Listing() + [CloseHandle(D)];
    DropsSession(log);
    TakesSftp(log);
    ShutsSftp(log);
    SaysItsGoodbye(log + [LibSsh2.Shutdown(F)]);
  }

  /** The directory is closed explicitly; while libssh2 is at work on it the session is
      deallocated, and then the call comes back. */
  lemma CloseAcrossFree()
    ensures Misuses(Farewell() + [Back(S)] + [SessionFree(S)] + [Back(F)])
  {
    SftpGoes();
    var st := ComesBack(Across(Going, Shut1, {}, InDisconnect, Farewell()));
    var st' := FreesSession(st);
    Misuse(st', Run(0, NULL));
  }
}
