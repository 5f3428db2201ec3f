/** The actions that start or end a teardown keep the tree part of the invariant. */
module SessionPreservation {
  import opened LibSsh2
  import opened Machine
  import opened Invariant
  import opened Preservation

  // Nothing moves but one session record and the list of threads

  ghost predicate OnlySession(st: State, st': State, x: Ptr) {
    && TreeOk(st) && x in st.sessions && x in st'.sessions
    && st'.objs == st.objs && st'.sets == st.sets && st'.issued == st.issued
    && st'.sessions == st.sessions[x := st'.sessions[x]]
    && |st'.threads| >= |st.threads|
  }

  lemma OnlySessionWrappers(st: State, st': State, x: Ptr)
    requires OnlySession(st, st', x) && st'.sessions[x].ptr == st.sessions[x].ptr
    requires forall j, c :: 0 <= j < |st.threads| && Holds(st.threads[j], c) ==> st'.threads[j] == st.threads[j]
    ensures Sets(st') && Wrappers(st')
  {
    SetsShrink(st, st');
    forall d {:trigger WrapperOk(st', d)} | d in st'.objs ensures WrapperOk(st', d) {
      assert WrapperOk(st, d);
    }
  }

  lemma OnlySessionThread(st: State, st': State, x: Ptr, j: nat)
    requires OnlySession(st, st', x) && j < |st.threads| && st'.threads[j] == st.threads[j]
    requires st.threads[j].root == Dealloc(x) && st.threads[j].pc != Done ==>
      var s := st'.sessions[x]; s.refs == 0 && s.ptr != NULL && s.holder == j && (st.threads[j].pc == AtFree ==> !s.up)
    ensures ThreadOk(st', j)
  {
    assert ThreadOk(st, j);
  }

  /** What a teardown that already runs says about its session's record. */
  lemma DeallocatingSession(st: State, j: nat)
    requires TreeOk(st) && j < |st.threads| && st.threads[j].pc != Done && st.threads[j].root.Dealloc?
    ensures st.threads[j].root.x in st.sessions
    ensures var s := st.sessions[st.threads[j].root.x];
            s.refs == 0 && s.user == 0 && s.ptr != NULL && s.holder == j && (st.threads[j].pc == AtFree ==> !s.up)
  {
    assert ThreadOk(st, j) && SessionOk(st, st.threads[j].root.x);
  }

  lemma OnlySessionThreads(st: State, st': State, x: Ptr)
    requires OnlySession(st, st', x) && st.sessions[x].user > 0 && st'.threads == st.threads
    ensures Threads(st')
  {
    forall j {:trigger ThreadOk(st', j)} | 0 <= j < |st'.threads| ensures ThreadOk(st', j) {
      if st.threads[j].root.Dealloc? && st.threads[j].pc != Done { DeallocatingSession(st, j); }
      OnlySessionThread(st, st', x, j);
    }
    ApartStays(st, st');
  }

  lemma ShareSessionTree(st: State, x: Ptr)
    requires TreeOk(st) && Usr(st, x)
    ensures TreeOk(DoShareSession(st, x))
  {
    var st' := DoShareSession(st, x);
    OnlySessionWrappers(st, st', x);
    OnlySessionThreads(st, st', x);
    assert SessionOk(st, x);
    forall y {:trigger SessionOk(st', y)} | y in st'.sessions ensures SessionOk(st', y) {
      assert SessionOk(st, y);
    }
  }

  lemma StartupTree(st: State, x: Ptr, ok: bool)
    requires TreeOk(st) && Usr(st, x)
    ensures TreeOk(DoStartup(st, x, ok))
  {
    var st' := DoStartup(st, x, ok);
    OnlySessionWrappers(st, st', x);
    OnlySessionThreads(st, st', x);
    assert SessionOk(st, x);
    forall y {:trigger SessionOk(st', y)} | y in st'.sessions ensures SessionOk(st', y) {
      assert SessionOk(st, y);
    }
  }

  lemma {:induction false} ClosersWitness(ts: seq<Thread>, x: Ptr) returns (i: nat)
    requires Closers(ts, x) > 0
    ensures i < |ts| && Refers(ts[i], x)
  {
    var n := |ts| - 1;
    if Refers(ts[n], x) {
      i := n;
    } else {
      i := ClosersWitness(ts[..n], x);
    }
  }

  lemma NothingBelow(st: State, p: Ptr)
    requires TreeOk(st) && p != NULL && p !in st.sessions && p !in st.objs
    ensures Closers(st.threads, p) == 0 && forall k :: Members(st, p, k) == {}
  {
    forall i | 0 <= i < |st.threads| ensures !Refers(st.threads[i], p) {
      assert ThreadOk(st, i);
    }
    forall c | c in st.objs ensures st.objs[c].owner in st.sessions || st.objs[c].owner in st.objs {
      assert WrapperOk(st, c);
    }
    if Closers(st.threads, p) > 0 {
      var i := ClosersWitness(st.threads, p);
      assert false;
    }
    forall k ensures Members(st, p, k) == {} {
      if c :| c in Members(st, p, k) { assert false; }
    }
  }

  lemma NewSessionThreads(st: State, p: Ptr)
    requires TreeOk(st) && p != NULL && p !in st.issued && p !in st.objs && p !in st.sessions
    ensures Threads(DoNewSession(st, p))
  {
    var st' := DoNewSession(st, p);
    assert forall a, b {:trigger Members(st', a, b)} :: Members(st', a, b) == Members(st, a, b);
    forall j {:trigger ThreadOk(st', j)} | 0 <= j < |st'.threads| ensures ThreadOk(st', j) {
      assert ThreadOk(st, j);
    }
    ApartStays(st, st');
  }

  lemma NewSessionTree(st: State, p: Ptr)
    requires TreeOk(st) && p != NULL && p !in st.issued
    ensures TreeOk(DoNewSession(st, p))
  {
    var st' := DoNewSession(st, p);
    FreshIsNew(st, p);
    NothingBelow(st, p);
    SetsShrink(st, st');
    NewSessionThreads(st, p);
    assert forall a, b {:trigger Members(st', a, b)} :: Members(st', a, b) == Members(st, a, b);
    forall d {:trigger WrapperOk(st', d)} | d in st'.objs ensures WrapperOk(st', d) {
      assert WrapperOk(st, d);
    }
    forall y {:trigger SessionOk(st', y)} | y in st'.sessions ensures SessionOk(st', y) {
      if y != p { assert SessionOk(st, y); }
    }
  }

  // A thread is added

  /** Thread `t` may start as the last one of `st'`: no close is astray below its
      session, and if it is astray itself nobody else is at work there. */
  ghost predicate Welcome(st: State, st': State, t: Thread) {
    && st'.threads == st.threads + [t] && !Astray(st, RootSession(st', t.root))
    && (Strays(st', t) ==> !Busy(st, RootSession(st', t.root)))
  }

  lemma ApartAppend(st: State, st': State, t: Thread)
    requires TreeOk(st) && Welcome(st, st', t)
    requires forall j :: 0 <= j < |st.threads| && st.threads[j].pc != Done ==>
      && RootSession(st', st.threads[j].root) == RootSession(st, st.threads[j].root)
      && (Strays(st', st.threads[j]) ==> Strays(st, st.threads[j]))
    ensures forall j, k {:trigger Apart(st', j, k)} :: 0 <= j < |st'.threads| && 0 <= k < |st'.threads| ==>
      Apart(st', j, k)
  {
    forall j, k {:trigger Apart(st', j, k)} | 0 <= j < |st'.threads| && 0 <= k < |st'.threads|
      ensures Apart(st', j, k)
    {
      if j < |st.threads| && k < |st.threads| {
        assert Apart(st, j, k);
      }
    }
  }

  lemma CloseSessionThreads(st: State, x: Ptr)
    requires TreeOk(st) && Usr(st, x) && !Astray(st, x) && st.sessions[x].up
    ensures Threads(DoCloseSession(st, x))
  {
    var st' := DoCloseSession(st, x);
    ApartAppend(st, st', Thread(Close(x), AtSftps));
    forall j {:trigger ThreadOk(st', j)} | 0 <= j < |st'.threads| ensures ThreadOk(st', j) {
      if j < |st.threads| {
        if st.threads[j].root.Dealloc? && st.threads[j].pc != Done { DeallocatingSession(st, j); }
        OnlySessionThread(st, st', x, j);
      }
    }
  }

  lemma CloseSessionTree(st: State, x: Ptr)
    requires TreeOk(st) && Usr(st, x) && !Astray(st, x)
    ensures TreeOk(DoCloseSession(st, x))
  {
    var st' := DoCloseSession(st, x);
    if st.sessions[x].up {
      OnlySessionWrappers(st, st', x);
      CloseSessionThreads(st, x);
      forall y {:trigger SessionOk(st', y)} | y in st'.sessions ensures SessionOk(st', y) {
        assert SessionOk(st, y);
        ClosersAppend(st.threads, Thread(Close(x), AtSftps), y);
      }
    }
  }

  lemma DropSessionThreads(st: State, x: Ptr)
    requires TreeOk(st) && Usr(st, x) && !Astray(st, x)
    ensures Threads(DoDropSession(st, x))
  {
    var st' := DoDropSession(st, x);
    assert SessionOk(st, x);
    forall j {:trigger ThreadOk(st', j)} | 0 <= j < |st'.threads| ensures ThreadOk(st', j) {
      if j < |st.threads| {
        if st.threads[j].root.Dealloc? && st.threads[j].pc != Done { DeallocatingSession(st, j); }
        OnlySessionThread(st, st', x, j);
      }
    }
    if st'.sessions[x].refs == 0 {
      ApartAppend(st, st', st'.threads[|st.threads|]);
    } else {
      ApartStays(st, st');
    }
  }

  lemma DropSome(st: State, x: Ptr, y: Ptr)
    requires x in st.sessions && y in st.sessions && SessionOk(st, x) && SessionOk(st, y)
    requires st.sessions[x].user > 0 && st.sessions[x].refs > 1
    ensures SessionOk(WithSession(st, x,
      st.sessions[x].(user := st.sessions[x].user - 1, refs := st.sessions[x].refs - 1)), y)
  {
  }

  lemma DropLast(st: State, x: Ptr, t: Thread, y: Ptr)
    requires x in st.sessions && y in st.sessions && SessionOk(st, x) && SessionOk(st, y)
    requires st.sessions[x].user > 0 && st.sessions[x].refs == 1 && t.root == Dealloc(x) && t.pc != Done
    ensures var s' := st.sessions[x].(user := st.sessions[x].user - 1, refs := 0, holder := |st.threads|);
      SessionOk(WithSession(st, x, s').(threads := st.threads + [t]), y)
  {
    ClosersAppend(st.threads, t, y);
  }

  lemma DropSessionSession(st: State, x: Ptr, y: Ptr)
    requires x in st.sessions && st.sessions[x].user > 0 && y in st.sessions && SessionOk(st, x) && SessionOk(st, y)
    ensures SessionOk(DoDropSession(st, x), y)
  {
    if st.sessions[x].refs != 1 {
      DropSome(st, x, y);
    } else {
      DropLast(st, x, Thread(Dealloc(x), if st.sessions[x].up then AtSftps else AtFree), y);
    }
  }

  lemma DropSessionTree(st: State, x: Ptr)
    requires TreeOk(st) && Usr(st, x) && !Astray(st, x)
    ensures TreeOk(DoDropSession(st, x))
  {
    var st' := DoDropSession(st, x);
    OnlySessionWrappers(st, st', x);
    DropSessionThreads(st, x);
    forall y {:trigger SessionOk(st', y)} | y in st'.sessions ensures SessionOk(st', y) {
      assert SessionOk(st, x) && SessionOk(st, y);
      DropSessionSession(st, x, y);
    }
  }

  lemma NotHeldWhenQuiet(st: State, s: Ptr)
    requires TreeOk(st) && s in st.objs && !Busy(st, SessionOf(st, s))
    ensures st.objs[s].holder == -1
  {
    assert WrapperOk(st, s);
    assert IsFile(st.objs[s].kind) ==> WrapperOk(st, st.objs[s].owner);
    assert st.objs[s].holder >= 0 ==> ThreadOk(st, st.objs[s].holder);
  }

  /** A new thread has the open wrapper `c` in its hands; `c` may have left its set and
      the thread may hold a reference to the session. */
  ghost predicate BeginOk(st: State, st': State, c: Ptr, via: Ptr, pc: Pc) {
    && TreeOk(st) && c in st.objs && c in st'.objs
    && st.objs[c].ptr != NULL && st.objs[c].holder == -1
    && st'.issued == st.issued
    && (via == NULL ==> st'.sessions == st.sessions)
    && (via != NULL ==>
          && Usr(st, via)
          && st'.sessions == st.sessions[via := st.sessions[via].(refs := st.sessions[via].refs + 1)])
    && st'.threads == st.threads + [Thread(Shut(c, via), pc)]
    && st'.objs == st.objs[c := st'.objs[c]]
    && st'.objs[c] == st.objs[c].(refs := st'.objs[c].refs, user := st'.objs[c].user, holder := |st.threads|)
    && (forall o, k :: Members(st', o, k) <= Members(st, o, k) <= Members(st', o, k) + {c})
    && (if Tracked(st', c) then !Busy(st, SessionOf(st, c)) else !Astray(st, SessionOf(st, c)))
    && CountOk(st', c) && Holds(st'.threads[|st.threads|], c) && ThreadOk(st', |st.threads|)
  }

  lemma BeginSets(st: State, st': State, c: Ptr, via: Ptr, pc: Pc)
    requires BeginOk(st, st', c, via, pc)
    ensures Sets(st')
  {
    SetsShrink(st, st');
  }

  lemma BeginWrapper(st: State, st': State, c: Ptr, via: Ptr, pc: Pc, d: Ptr)
    requires BeginOk(st, st', c, via, pc) && d in st.objs
    ensures WrapperOk(st', d)
  {
    assert WrapperOk(st, d);
    assert Members(st', d, Dir) <= Members(st, d, Dir) && Members(st', d, File) <= Members(st, d, File);
    var o, k := st.objs[d].owner, st.objs[d].kind;
    assert Members(st', o, k) <= Members(st, o, k) <= Members(st', o, k) + {c};
  }

  lemma BeginThread(st: State, st': State, c: Ptr, via: Ptr, pc: Pc, j: nat)
    requires BeginOk(st, st', c, via, pc) && j < |st.threads|
    ensures ThreadOk(st', j)
  {
    forall d | d in st.objs && d != c && Tracked(st, d) ensures Tracked(st', d) {
      var o, k := st.objs[d].owner, st.objs[d].kind;
      assert Members(st, o, k) <= Members(st', o, k) + {c};
    }
    assert via != NULL ==> SessionOk(st, via);
    UnaffectedThread(st, st', c, j);
  }

  lemma BeginSession(st: State, st': State, c: Ptr, via: Ptr, pc: Pc, y: Ptr)
    requires BeginOk(st, st', c, via, pc) && y in st'.sessions
    ensures SessionOk(st', y)
  {
    assert SessionOk(st, y);
    ClosersAppend(st.threads, Thread(Shut(c, via), pc), y);
    assert Members(st', y, Sftp) <= Members(st, y, Sftp) && Members(st', y, Chan) <= Members(st, y, Chan);
    assert Members(st', y, Listen) <= Members(st, y, Listen);
  }

  lemma BeginTree(st: State, st': State, c: Ptr, via: Ptr, pc: Pc)
    requires BeginOk(st, st', c, via, pc)
    ensures TreeOk(st')
  {
    BeginSets(st, st', c, via, pc);
    forall d {:trigger WrapperOk(st', d)} | d in st'.objs ensures WrapperOk(st', d) {
      BeginWrapper(st, st', c, via, pc, d);
    }
    forall j {:trigger ThreadOk(st', j)} | 0 <= j < |st'.threads| ensures ThreadOk(st', j) {
      if j < |st.threads| { BeginThread(st, st', c, via, pc, j); }
    }
    ApartAppend(st, st', Thread(Shut(c, via), pc));
    forall y {:trigger SessionOk(st', y)} | y in st'.sessions ensures SessionOk(st', y) {
      BeginSession(st, st', c, via, pc, y);
    }
  }

  /** What a close through session `x` needs so that it can start. */
  ghost predicate CloseReady(st: State, x: Ptr, c: Ptr) {
    TreeOk(st) && Usr(st, x) && c in st.objs && IsChild(st.objs[c].kind) && Closable(st, c, st.objs[c].owner == x)
  }

  lemma ShutdownSftpTree(st: State, x: Ptr, s: Ptr)
    requires CloseReady(st, x, s) && st.objs[s].kind == Sftp
    ensures TreeOk(DoShutdownSftp(st, x, s))
  {
    assert WrapperOk(st, s) && SessionOk(st, x);
    if st.objs[s].ptr == NULL {
      DiscardTree(st, x, s);
    } else {
      BeginTree(st, DoShutdownSftp(st, x, s), s, if st.objs[s].owner == x then x else NULL, AtDirs(s));
    }
  }

  lemma CloseChannelTree(st: State, x: Ptr, c: Ptr)
    requires CloseReady(st, x, c) && st.objs[c].kind == Chan
    ensures TreeOk(DoCloseChannel(st, x, c))
  {
    assert WrapperOk(st, c) && SessionOk(st, x);
    if st.objs[c].ptr == NULL {
      DiscardTree(st, x, c);
    } else {
      BeginTree(st, DoCloseChannel(st, x, c), c, if st.objs[c].owner == x then x else NULL, InChannel(c));
    }
  }

  lemma CancelNullTree(st: State, x: Ptr, l: Ptr)
    requires CloseReady(st, x, l) && st.objs[l].kind == Listen && st.objs[l].ptr == NULL
    ensures TreeOk(DoCancel(st, x, l))
  {
    assert WrapperOk(st, l);
    TweakTree(st, DoCancel(st, x, l), l);
  }

  lemma CancelTree(st: State, x: Ptr, l: Ptr)
    requires CloseReady(st, x, l) && st.objs[l].kind == Listen
    ensures TreeOk(DoCancel(st, x, l))
  {
    assert WrapperOk(st, l) && SessionOk(st, x);
    if st.objs[l].ptr == NULL {
      CancelNullTree(st, x, l);
    } else {
      BeginTree(st, DoCancel(st, x, l), l, if st.objs[l].owner == x then x else NULL, InCancel(l));
    }
  }

  /** The last reference to an open listener: the destructor cancels it. */
  lemma DropListenerTree(st: State, l: Ptr)
    requires TreeOk(st) && l in st.objs && st.objs[l].user > 0 && Cancels(st.objs[l]) && !Astray(st, SessionOf(st, l))
    ensures TreeOk(DoDrop(st, l))
  {
    assert WrapperOk(st, l);
    BeginTree(st, DoDrop(st, l), l, NULL, InCancel(l));
  }

  lemma CloseFileTree(st: State, s: Ptr, d: Ptr)
    requires TreeOk(st) && s in st.objs && d in st.objs && IsFile(st.objs[d].kind)
    requires Closable(st, d, st.objs[d].owner == s)
    ensures TreeOk(DoCloseFile(st, s, d))
  {
    assert WrapperOk(st, d);
    if st.objs[s].ptr != NULL {
      if st.objs[d].ptr == NULL {
        TweakTree(st, DoCloseFile(st, s, d), d);
      } else {
        BeginTree(st, DoCloseFile(st, s, d), d, NULL, InClose(d));
      }
    }
  }

  // The end of a teardown

  ghost predicate EndsSession(st: State, i: nat, x: Ptr) {
    && TreeOk(st) && i < |st.threads| && !st.threads[i].root.Shut? && st.threads[i].root.x == x && x in st.sessions
  }

  /** Thread `i` went on, perhaps as a deallocation of the same session. */
  lemma ApartUpdate(st: State, st': State, i: nat)
    requires Threads(st) && i < |st.threads| && st.threads[i].pc != Done
    requires st'.objs == st.objs && st'.sets == st.sets
    requires |st'.threads| == |st.threads| && st'.threads == st.threads[i := st'.threads[i]]
    requires var t, t' := st.threads[i], st'.threads[i];
      (Strays(st, t') ==> Strays(st, t)) && RootSession(st, t'.root) == RootSession(st, t.root)
    ensures forall j, k {:trigger Apart(st', j, k)} :: 0 <= j < |st'.threads| && 0 <= k < |st'.threads| ==>
      Apart(st', j, k)
  {
    forall j, k {:trigger Apart(st', j, k)} | 0 <= j < |st'.threads| && 0 <= k < |st'.threads|
      ensures Apart(st', j, k)
    {
      assert Apart(st, j, k);
    }
  }

  lemma RunDisconnectThreads(st: State, i: nat, x: Ptr)
    requires EndsSession(st, i, x) && st.threads[i].pc == InDisconnect
    ensures Threads(RunDisconnect(st, i, x))
  {
    var st' := RunDisconnect(st, i, x);
    assert ThreadOk(st, i) && SessionOk(st, x);
    if st.threads[i].root.Close? { ClosersPositive(st.threads, i, x); }
    forall j {:trigger ThreadOk(st', j)} | 0 <= j < |st'.threads| ensures ThreadOk(st', j) {
      if j != i {
        if st.threads[j].root.Dealloc? && st.threads[j].pc != Done { DeallocatingSession(st, j); }
        OnlySessionThread(st, st', x, j);
      }
    }
    ApartUpdate(st, st', i);
  }

  /** The two states in which a call that gives up its session may leave things. */
  lemma CallEnds(st: State, i: nat, x: Ptr, s: Session, t: Thread, y: Ptr)
    requires i < |st.threads| && x in st.sessions && y in st.sessions && SessionOk(st, x) && SessionOk(st, y)
    requires Refers(st.threads[i], x) && (forall z :: z != x ==> !Refers(st.threads[i], z))
    requires (forall z :: !Refers(t, z))
    requires var r := st.sessions[x]; r.refs > 0 && s == r.(up := s.up, refs := r.refs - 1, holder := s.holder)
    requires s.refs == 0 ==> s.holder == i && t.root == Dealloc(x) && t.pc != Done
    requires s.up ==> st.sessions[x].up
    requires !s.up ==> NoMembers(st, x)
    requires forall z :: z in st.sessions && st.threads[i] == Thread(Dealloc(z), st.threads[i].pc) ==>
      st.threads[i].pc == Done
    ensures SessionOk(WithSession(st, x, s).(threads := st.threads[i := t]), y)
  {
    ClosersUpdate(st.threads, i, t, y);
  }

  /** Session_close gives up its reference; the last one makes it a deallocation. */
  lemma CloseEndsSession(st: State, i: nat, x: Ptr, y: Ptr)
    requires EndsSession(st, i, x) && st.threads[i] == Thread(Close(x), InDisconnect) && y in st.sessions
    ensures SessionOk(RunDisconnect(st, i, x), y)
  {
    var s := st.sessions[x];
    assert ThreadOk(st, i) && SessionOk(st, x) && SessionOk(st, y);
    ClosersPositive(st.threads, i, x);
    var refs: nat := s.refs - 1;
    var last := refs == 0;
    var s' := s.(up := false, refs := refs, holder := if last then i else s.holder);
    var t := if last then Thread(Dealloc(x), AtFree) else Thread(Close(x), Done);
    CallEnds(st, i, x, s', t, y);
    assert RunDisconnect(st, i, x) ==
      WithSession(Logged(st, [Back(x)]), x, s').(threads := st.threads[i := t]);
  }

  lemma DeallocGoesOn(st: State, i: nat, x: Ptr, y: Ptr)
    requires EndsSession(st, i, x) && st.threads[i] == Thread(Dealloc(x), InDisconnect) && y in st.sessions
    ensures SessionOk(RunDisconnect(st, i, x), y)
  {
    assert ThreadOk(st, i) && SessionOk(st, x) && SessionOk(st, y);
    ClosersUpdate(st.threads, i, Thread(Dealloc(x), AtFree), y);
  }

  lemma RunDisconnectSession(st: State, i: nat, x: Ptr, y: Ptr)
    requires EndsSession(st, i, x) && st.threads[i].pc == InDisconnect && y in st.sessions
    ensures SessionOk(RunDisconnect(st, i, x), y)
  {
    if st.threads[i].root.Dealloc? { DeallocGoesOn(st, i, x, y); } else { CloseEndsSession(st, i, x, y); }
  }

  lemma RunDisconnectTree(st: State, i: nat, x: Ptr)
    requires EndsSession(st, i, x) && st.threads[i].pc == InDisconnect
    ensures TreeOk(RunDisconnect(st, i, x))
  {
    var st' := RunDisconnect(st, i, x);
    assert ThreadOk(st, i);
    OnlySessionWrappers(st, st', x);
    RunDisconnectThreads(st, i, x);
    forall y {:trigger SessionOk(st', y)} | y in st'.sessions ensures SessionOk(st', y) {
      RunDisconnectSession(st, i, x, y);
    }
  }

  // An explicit close returns

  ghost predicate Returns(st: State, i: nat) {
    TreeOk(st) && i < |st.threads| && st.threads[i].pc == AtReturn && st.threads[i].root.Shut?
  }

  lemma ReturningSession(st: State, i: nat)
    requires Returns(st, i)
    ensures var x := st.threads[i].root.via;
      && x in st.sessions && st.sessions[x].refs > 0 && st.sessions[x].ptr != NULL
      && RootSession(st, st.threads[i].root) == x
  {
    var x := st.threads[i].root.via;
    assert ThreadOk(st, i) && SessionOk(st, x);
    ClosersPositive(st.threads, i, x);
  }

  lemma RunReturnThreads(st: State, i: nat)
    requires Returns(st, i) && st.threads[i].root.via in st.sessions
    ensures Threads(RunReturn(st, i))
  {
    var x := st.threads[i].root.via;
    var st' := RunReturn(st, i);
    ReturningSession(st, i);
    forall j {:trigger ThreadOk(st', j)} | 0 <= j < |st'.threads| ensures ThreadOk(st', j) {
      if j != i {
        if st.threads[j].root.Dealloc? && st.threads[j].pc != Done { DeallocatingSession(st, j); }
        OnlySessionThread(st, st', x, j);
      }
    }
    ApartUpdate(st, st', i);
  }

  lemma RunReturnSession(st: State, i: nat, y: Ptr)
    requires Returns(st, i) && st.threads[i].root.via in st.sessions && y in st.sessions
    ensures SessionOk(RunReturn(st, i), y)
  {
    var x := st.threads[i].root.via;
    var s := st.sessions[x];
    ReturningSession(st, i);
    assert SessionOk(st, x) && SessionOk(st, y);
    var s' := s.(refs := s.refs - 1);
    if s.refs == 1 {
      CallEnds(st, i, x, s'.(holder := i), Thread(Dealloc(x), if s.up then AtSftps else AtFree), y);
    } else {
      CallEnds(st, i, x, s', Thread(st.threads[i].root, Done), y);
    }
  }

  lemma RunReturnTree(st: State, i: nat)
    requires Returns(st, i) && st.threads[i].root.via in st.sessions
    ensures TreeOk(RunReturn(st, i))
  {
    var st' := RunReturn(st, i);
    ReturningSession(st, i);
    OnlySessionWrappers(st, st', st.threads[i].root.via);
    RunReturnThreads(st, i);
    forall y {:trigger SessionOk(st', y)} | y in st'.sessions ensures SessionOk(st', y) {
      RunReturnSession(st, i, y);
    }
  }

  // The session is freed

  /** At this point nothing that hangs directly below the session is open. */
  lemma NothingLeft(st: State, i: nat, x: Ptr, c: Ptr)
    requires TreeOk(st) && i < |st.threads| && st.threads[i] == Thread(Dealloc(x), AtFree)
    requires c in st.objs && st.objs[c].owner == x && (st.objs[c].kind == Chan || st.objs[c].kind == Sftp)
    ensures st.objs[c].ptr == NULL
  {
    assert ThreadOk(st, i) && WrapperOk(st, c) && SessionOk(st, x);
    var j := st.objs[c].holder;
    if st.objs[c].ptr != NULL && j >= 0 {
      assert ThreadOk(st, j);
      assert j != i && !Tracked(st, c);
      assert Refers(st.threads[j], x);
      ClosersPositive(st.threads, j, x);
      assert false;
    }
  }

  lemma RunFreeThreads(st: State, i: nat, x: Ptr)
    requires EndsSession(st, i, x) && st.threads[i] == Thread(Dealloc(x), AtFree)
    ensures Threads(RunFree(st, i, x))
  {
    var st' := RunFree(st, i, x);
    assert ThreadOk(st, i);
    forall j {:trigger ThreadOk(st', j)} | 0 <= j < |st'.threads| ensures ThreadOk(st', j) {
      if j != i {
        if st.threads[j].root.Dealloc? && st.threads[j].pc != Done { DeallocatingSession(st, j); }
        OnlySessionThread(st, st', x, j);
      }
    }
    ApartStays(st, st');
  }

  lemma RunFreeTree(st: State, i: nat, x: Ptr)
    requires EndsSession(st, i, x) && st.threads[i] == Thread(Dealloc(x), AtFree)
    ensures TreeOk(RunFree(st, i, x))
  {
    var st' := RunFree(st, i, x);
    RunFreeThreads(st, i, x);
    SetsShrink(st, st');
    forall d {:trigger WrapperOk(st', d)} | d in st'.objs ensures WrapperOk(st', d) {
      assert WrapperOk(st, d);
      if st.objs[d].owner == x && (st.objs[d].kind == Chan || st.objs[d].kind == Sftp) {
        NothingLeft(st, i, x, d);
      }
    }
    assert ThreadOk(st, i) && SessionOk(st, x);
    forall y {:trigger SessionOk(st', y)} | y in st'.sessions ensures SessionOk(st', y) {
      assert SessionOk(st, y);
      ClosersUpdate(st.threads, i, st'.threads[i], y);
    }
  }
}
