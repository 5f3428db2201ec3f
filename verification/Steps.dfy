/** Every action keeps the whole invariant. */
module Steps {
  import opened LibSsh2
  import opened Machine
  import opened Invariant
  import opened Preservation
  import opened SessionPreservation
  import opened LogPreservation

  // A step of a thread

  /** A wrapper that is in a set and in a thread's hands is one whose close went astray. */
  lemma HolderThread(st: State, c: Ptr)
    requires TreeOk(st) && c in st.objs
    ensures var j := st.objs[c].holder; j >= 0 && Tracked(st, c) ==>
      j < |st.threads| && Strays(st, st.threads[j]) && st.threads[j].root.c == c
  {
    assert WrapperOk(st, c);
    assert st.objs[c].holder >= 0 ==> ThreadOk(st, st.objs[c].holder);
  }

  /** A thread pops only wrappers that nobody else works on. */
  lemma PopUnheld(st: State, i: nat, o: Ptr, k: Kind, c: Ptr)
    requires TreeOk(st) && i < |st.threads| && st.threads[i].pc != Done && c in Members(st, o, k)
    requires if IsFile(k) then Working(st, i, o) else !st.threads[i].root.Shut? && st.threads[i].root.x == o
    ensures c in st.objs && st.objs[c].kind == k && st.objs[c].owner == o && st.objs[c].holder == -1
  {
    assert WrapperOk(st, c);
    HolderThread(st, c);
    var j := st.objs[c].holder;
    assert SessionOf(st, c) == RootSession(st, st.threads[i].root);
    assert j >= 0 ==> Apart(st, j, i);
  }

  lemma RunSftpsInv(st: State, i: nat, x: Ptr, pick: Ptr)
    requires Inv(st) && CanRun(st, i, pick) && st.threads[i].pc == AtSftps && st.threads[i].root.x == x
    ensures Inv(RunSftps(st, i, x, pick))
  {
    assert ThreadOk(st, i);
    var st' := RunSftps(st, i, x, pick);
    if Members(st, x, Sftp) == {} {
      GotoTree(st, i, AtChannels);
    } else {
      PopUnheld(st, i, x, Sftp, pick);
      assert WrapperOk(st, pick);
      if st.objs[pick].ptr == NULL {
        DiscardTree(st, x, pick);
      } else {
        TakeTree(st, i, x, pick, AtDirs(pick));
      }
    }
    LogSilent(st, st');
  }

  lemma RunDirsInv(st: State, i: nat, s: Ptr, pick: Ptr)
    requires Inv(st) && CanRun(st, i, pick) && st.threads[i].pc == AtDirs(s)
    ensures Inv(RunDirs(st, i, s, pick))
  {
    assert ThreadOk(st, i);
    var st' := RunDirs(st, i, s, pick);
    if Members(st, s, Dir) == {} {
      GotoTree(st, i, AtFiles(s));
      LogSilent(st, st');
    } else {
      PopUnheld(st, i, s, Dir, pick);
      RunHandlePop(st, i, s, pick, st');
    }
  }

  lemma RunFilesInv(st: State, i: nat, s: Ptr, pick: Ptr)
    requires Inv(st) && CanRun(st, i, pick) && st.threads[i].pc == AtFiles(s)
    ensures Inv(RunFiles(st, i, s, pick))
  {
    assert ThreadOk(st, i);
    var st' := RunFiles(st, i, s, pick);
    if Members(st, s, File) == {} {
      GotoTree(st, i, AtShut(s));
      LogSilent(st, st');
    } else {
      PopUnheld(st, i, s, File, pick);
      RunHandlePop(st, i, s, pick, st');
    }
  }

  lemma RunHandlePop(st: State, i: nat, s: Ptr, pick: Ptr, st': State)
    requires Inv(st) && i < |st.threads| && (st.threads[i].pc == AtDirs(s) || st.threads[i].pc == AtFiles(s))
    requires pick in st.objs && IsFile(st.objs[pick].kind) && st.objs[pick].owner == s && st.objs[pick].holder == -1
    requires pick in Members(st, s, st.objs[pick].kind)
    requires (st.objs[pick].kind == Dir <==> st.threads[i].pc == AtDirs(s))
    requires st' == Goto(Logged(Take(st, i, s, pick), [CloseHandle(st.objs[pick].ptr)]), i, InHandle(s, pick))
    ensures Inv(st')
  {
    assert ThreadOk(st, i) && WrapperOk(st, pick);
    var st1 := Goto(Take(st, i, s, pick), i, InHandle(s, pick));
    TakeTree(st, i, s, pick, InHandle(s, pick));
    TreeIgnoresLog(st1, st');
    HandlePopLog(st, i, s, pick, st');
  }

  lemma HandlePopLog(st: State, i: nat, s: Ptr, pick: Ptr, st': State)
    requires Inv(st) && i < |st.threads| && pick in st.objs && IsFile(st.objs[pick].kind) && st.objs[pick].holder == -1
    requires st' == Goto(Logged(Take(st, i, s, pick), [CloseHandle(st.objs[pick].ptr)]), i, InHandle(s, pick))
    ensures LogOk(st')
  {
    assert WrapperOk(st, pick);
    if st.objs[pick].ptr != NULL { WrapperUsable(st, pick); }
    forall p {:trigger Released(st', p)} | p in st.objs
      ensures B(Released(st', p)) == B(Released(st, p))
        + B(CloseHandle(st.objs[pick].ptr) == ReleaseOf(st.objs[p].kind, p))
    {
      assert WrapperOk(st, p);
    }
    LogCall(st, st', CloseHandle(st.objs[pick].ptr));
  }

  /** The tree does not depend on the log, on who is inside a method, or on handles
      that nobody knows. */
  lemma TreeIgnoresLog(st: State, st': State)
    requires TreeOk(st) && st' == st.(log := st'.log, inside := st'.inside, issued := st'.issued)
    requires st.issued <= st'.issued
    ensures TreeOk(st')
  {
    SetsShrink(st, st');
    forall c {:trigger WrapperOk(st', c)} | c in st'.objs ensures WrapperOk(st', c) { assert WrapperOk(st, c); }
    forall x {:trigger SessionOk(st', x)} | x in st'.sessions ensures SessionOk(st', x) { assert SessionOk(st, x); }
    forall i {:trigger ThreadOk(st', i)} | 0 <= i < |st'.threads| ensures ThreadOk(st', i) { assert ThreadOk(st, i); }
    ApartStays(st, st');
  }

  /** The call `call` gives the wrapper back, which is nulled and dropped. */
  lemma EndInv(st: State, i: nat, c: Ptr, pc: Pc, call: Call)
    requires Inv(st) && FinishOk(st, i, c, pc) && !Released(st, c) && call == ReleaseOf(st.objs[c].kind, c)
    requires CallOk(st.log, call)
    ensures Inv(Finish(Logged(st, [call]), i, c, pc))
  {
    assert WrapperOk(st, c);
    var st' := Finish(Logged(st, [call]), i, c, pc);
    FinishTree(st, i, c, pc);
    FinishShape(st, i, c, pc);
    FinishShape(Logged(st, [call]), i, c, pc);
    TreeIgnoresLog(Finish(st, i, c, pc), st');
    LogCall(st, st', call);
  }

  /** A call that closed something comes back: the wrapper is nulled and dropped. */
  lemma BackInv(st: State, i: nat, c: Ptr, pc: Pc, q: Ptr)
    requires Inv(st) && FinishOk(st, i, c, pc) && Released(st, c) && (q in st.objs || q in st.sessions)
    ensures Inv(Finish(Logged(st, [Back(q)]), i, c, pc))
  {
    assert WrapperOk(st, c);
    var st' := Finish(Logged(st, [Back(q)]), i, c, pc);
    FinishTree(st, i, c, pc);
    FinishShape(st, i, c, pc);
    FinishShape(Logged(st, [Back(q)]), i, c, pc);
    TreeIgnoresLog(Finish(st, i, c, pc), st');
    LogCall(st, st', Back(q));
  }

  lemma RunHandleNull(st: State, i: nat, s: Ptr, d: Ptr)
    requires Inv(st) && i < |st.threads| && st.threads[i].pc == InHandle(s, d) && d in st.objs
    requires st.objs[d].ptr == NULL
    ensures Inv(RunHandle(st, i, s, d))
  {
    assert ThreadOk(st, i) && WrapperOk(st, d);
    FinishTree(st, i, d, if st.objs[d].kind == Dir then AtDirs(s) else AtFiles(s));
    LogSilent(st, RunHandle(st, i, s, d));
  }

  lemma RunHandleInv(st: State, i: nat, s: Ptr, d: Ptr)
    requires Inv(st) && i < |st.threads| && st.threads[i].pc == InHandle(s, d) && d in st.objs
    ensures Inv(RunHandle(st, i, s, d))
  {
    assert ThreadOk(st, i) && WrapperOk(st, d);
    if st.objs[d].ptr == NULL {
      RunHandleNull(st, i, s, d);
    } else {
      BackInv(st, i, d, if st.objs[d].kind == Dir then AtDirs(s) else AtFiles(s), s);
    }
  }

  lemma RunCloseInv(st: State, i: nat, d: Ptr)
    requires Inv(st) && i < |st.threads| && st.threads[i].pc == InClose(d) && d in st.objs
    ensures Inv(RunClose(st, i, d))
  {
    assert ThreadOk(st, i) && WrapperOk(st, d);
    BackInv(st, i, d, Done, st.objs[d].owner);
  }

  lemma RunCancelInv(st: State, i: nat, l: Ptr)
    requires Inv(st) && i < |st.threads| && st.threads[i].pc == InCancel(l) && l in st.objs
    ensures Inv(RunCancel(st, i, l))
  {
    assert ThreadOk(st, i) && WrapperOk(st, l);
    BackInv(st, i, l, Leaving(st.threads[i].root, AtListeners), st.objs[l].owner);
  }

  lemma RunReturnInv(st: State, i: nat)
    requires Inv(st) && Returns(st, i) && st.threads[i].root.via in st.sessions
    ensures Inv(RunReturn(st, i))
  {
    RunReturnTree(st, i);
    LogSilent(st, RunReturn(st, i));
  }

  lemma RunShutInv(st: State, i: nat, s: Ptr)
    requires Inv(st) && i < |st.threads| && st.threads[i].pc == AtShut(s) && s in st.objs
    ensures Inv(RunShut(st, i, s))
  {
    assert ThreadOk(st, i) && WrapperOk(st, s);
    SftpChildrenReleased(st, i, s);
    WrapperUsable(st, s);
    EndInv(st, i, s, Leaving(st.threads[i].root, AtSftps), Shutdown(s));
  }

  lemma RunChannelsInv(st: State, i: nat, x: Ptr, pick: Ptr)
    requires Inv(st) && CanRun(st, i, pick) && st.threads[i].pc == AtChannels && st.threads[i].root.x == x
    ensures Inv(RunChannels(st, i, x, pick))
  {
    assert ThreadOk(st, i);
    var st' := RunChannels(st, i, x, pick);
    if Members(st, x, Chan) == {} {
      GotoTree(st, i, AtListeners);
      LogSilent(st, st');
    } else {
      PopUnheld(st, i, x, Chan, pick);
      assert WrapperOk(st, pick);
      if st.objs[pick].ptr == NULL {
        DiscardTree(st, x, pick);
        LogSilent(st, st');
      } else {
        TakeTree(st, i, x, pick, InChannel(pick));
        TreeIgnoresLog(Goto(Take(st, i, x, pick), i, InChannel(pick)), st');
        ChannelPopLog(st, i, x, pick);
      }
    }
  }

  lemma ChannelPopLog(st: State, i: nat, x: Ptr, c: Ptr)
    requires Inv(st) && i < |st.threads| && c in st.objs && st.objs[c].kind == Chan && st.objs[c].ptr != NULL
    requires st.objs[c].holder == -1
    ensures LogOk(Goto(Logged(Take(st, i, x, c), [ChannelClose(st.objs[c].ptr)]), i, InChannel(c)))
  {
    assert WrapperOk(st, c);
    WrapperUsable(st, c);
    LogCall(st, Goto(Logged(Take(st, i, x, c), [ChannelClose(c)]), i, InChannel(c)), ChannelClose(c));
  }

  lemma RunChannelInv(st: State, i: nat, c: Ptr)
    requires Inv(st) && i < |st.threads| && st.threads[i].pc == InChannel(c) && c in st.objs
    ensures Inv(RunChannel(st, i, c))
  {
    assert ThreadOk(st, i) && WrapperOk(st, c);
    WrapperUsable(st, c);
    EndInv(st, i, c, Leaving(st.threads[i].root, AtChannels), ChannelFree(c));
  }

  lemma RunListenersInv(st: State, i: nat, x: Ptr, pick: Ptr)
    requires Inv(st) && CanRun(st, i, pick) && st.threads[i].pc == AtListeners && st.threads[i].root.x == x
    ensures Inv(RunListeners(st, i, x, pick))
  {
    assert ThreadOk(st, i);
    var st' := RunListeners(st, i, x, pick);
    if Members(st, x, Listen) == {} {
      GotoTree(st, i, InDisconnect);
      TreeIgnoresLog(Goto(st, i, InDisconnect), st');
      assert SessionOk(st, x);
      if st.threads[i].root.Close? { ClosersPositive(st.threads, i, x); }
      SessionUsable(st, x);
      LogCall(st, st', Disconnect(x));
    } else {
      PopUnheld(st, i, x, Listen, pick);
      if Cancels(st.objs[pick]) { ListenerPopInv(st, i, x, pick); } else { DiscardInv(st, x, pick); }
    }
  }

  /** Losing a reference that is not the last one to an open wrapper. */
  lemma DiscardInv(st: State, o: Ptr, c: Ptr)
    requires Inv(st) && c in st.objs && st.objs[c].holder == -1
    requires st.objs[c].ptr == NULL || (st.objs[c].kind == Listen && !Cancels(st.objs[c]))
    ensures Inv(Discard(st, o, c))
  {
    assert WrapperOk(st, c);
    DiscardTree(st, o, c);
    LogSilent(st, Discard(st, o, c));
  }

  /** The set held the last reference: the destructor starts to cancel. */
  lemma ListenerPopInv(st: State, i: nat, x: Ptr, l: Ptr)
    requires Inv(st) && i < |st.threads| && st.threads[i].pc == AtListeners && !st.threads[i].root.Shut?
    requires st.threads[i].root.x == x && l in Members(st, x, Listen)
    requires l in st.objs && st.objs[l].kind == Listen && st.objs[l].holder == -1 && Cancels(st.objs[l])
    ensures Inv(Goto(Logged(Take(st, i, x, l), [Cancel(st.objs[l].ptr)]), i, InCancel(l)))
  {
    assert ThreadOk(st, i) && WrapperOk(st, l);
    var st' := Goto(Logged(Take(st, i, x, l), [Cancel(l)]), i, InCancel(l));
    TakeTree(st, i, x, l, InCancel(l));
    TreeIgnoresLog(Goto(Take(st, i, x, l), i, InCancel(l)), st');
    CancelLog(st, st', l);
  }

  /** `l` gets a thread that cancels it. */
  lemma CancelLog(st: State, st': State, l: Ptr)
    requires Inv(st) && l in st.objs && st.objs[l].kind == Listen && st.objs[l].ptr == l && st.objs[l].holder == -1
    requires st'.log == st.log + [Cancel(l)] && st'.issued == st.issued && st'.sessions.Keys == st.sessions.Keys
    requires forall x {:trigger st'.sessions[x]} :: x in st.sessions ==> st'.sessions[x].ptr == st.sessions[x].ptr
    requires l in st'.objs && st'.objs == st.objs[l := st'.objs[l]]
    requires st'.objs[l].kind == Listen && st'.objs[l].owner == st.objs[l].owner && st'.objs[l].holder >= 0
    ensures LogOk(st')
  {
    forall p {:trigger Released(st', p)} | p in st.objs
      ensures B(Released(st', p)) == B(Released(st, p)) + B(Cancel(l) == ReleaseOf(st.objs[p].kind, p))
    {
      assert WrapperOk(st, p);
    }
    LogCall(st, st', Cancel(l));
  }

  lemma RunDisconnectInv(st: State, i: nat, x: Ptr)
    requires Inv(st) && EndsSession(st, i, x) && st.threads[i].pc == InDisconnect
    ensures Inv(RunDisconnect(st, i, x))
  {
    RunDisconnectTree(st, i, x);
    LogCall(st, RunDisconnect(st, i, x), Back(x));
  }

  lemma RunFreeInv(st: State, i: nat, x: Ptr)
    requires Inv(st) && EndsSession(st, i, x) && st.threads[i] == Thread(Dealloc(x), AtFree)
    ensures Inv(RunFree(st, i, x))
  {
    assert ThreadOk(st, i) && SessionOk(st, x);
    RunFreeTree(st, i, x);
    SessionChildrenReleased(st, i, x);
    SessionUsable(st, x);
    LogCall(st, RunFree(st, i, x), SessionFree(x));
  }

  lemma RunInv(st: State, i: nat, pick: Ptr)
    requires Inv(st) && CanRun(st, i, pick)
    ensures Inv(RunThread(st, i, pick))
  {
    assert ThreadOk(st, i);
    var t := st.threads[i];
    match t.pc
    case AtSftps => RunSftpsInv(st, i, t.root.x, pick);
    case AtDirs(s) => RunDirsInv(st, i, s, pick);
    case AtFiles(s) => RunFilesInv(st, i, s, pick);
    case InHandle(s, d) => RunHandleInv(st, i, s, d);
    case InClose(d) => RunCloseInv(st, i, d);
    case InCancel(l) => RunCancelInv(st, i, l);
    case AtReturn => RunReturnInv(st, i);
    case AtShut(s) => RunShutInv(st, i, s);
    case AtChannels => RunChannelsInv(st, i, t.root.x, pick);
    case InChannel(c) => RunChannelInv(st, i, c);
    case AtListeners => RunListenersInv(st, i, t.root.x, pick);
    case InDisconnect => RunDisconnectInv(st, i, t.root.x);
    case AtFree => RunFreeInv(st, i, t.root.x);
    case Done =>
  }

  // The API

  /** A session the program still refers to has a live libssh2 session. */
  lemma UserSession(st: State, x: Ptr)
    requires Inv(st) && Usr(st, x)
    ensures st.sessions[x].ptr == x && Usable(st.log, x) && Live(st.log, Sess, x, NULL)
  {
    assert SessionOk(st, x);
    SessionUsable(st, x);
  }

  lemma NewSessionInv(st: State, p: Ptr)
    requires Inv(st) && FreshOrNull(st, p) && p != NULL
    ensures Inv(DoNewSession(st, p))
  {
    NewSessionTree(st, p);
    FreshIsNew(st, p);
    LogOpened(st, DoNewSession(st, p), Opened(Sess, p, NULL, true));
  }

  lemma StartupInv(st: State, x: Ptr, ok: bool)
    requires Inv(st) && Usr(st, x)
    ensures Inv(DoStartup(st, x, ok))
  {
    StartupTree(st, x, ok);
    UserSession(st, x);
    LogCall(st, DoStartup(st, x, ok), if ok then Started(x) else Use(x));
  }

  /** Nobody ends the session of `o` or has `o` in his hands. */
  lemma QuietThreads(st: State, o: Ptr, x: Ptr)
    requires TreeOk(st) && !Ending(st, x) && (o in st.sessions || (o in st.objs && st.objs[o].holder == -1))
    ensures OutOfTheWay(st, o, x)
  {
    assert o in st.sessions ==> SessionOk(st, o);
    forall i {:trigger Elsewhere(st.threads[i], o, x)} | 0 <= i < |st.threads| ensures Elsewhere(st.threads[i], o, x) {
      assert ThreadOk(st, i);
    }
  }

  lemma UseInv(st: State, p: Ptr)
    requires Inv(st) && Usable(st.log, p) && (p in st.objs || p in st.sessions)
    ensures Inv(Logged(st, [Use(p)]))
  {
    TreeIgnoresLog(st, Logged(st, [Use(p)]));
    LogCall(st, Logged(st, [Use(p)]), Use(p));
  }

  /** The wrapper could not be allocated: the handle is known to nobody. */
  lemma LeakInv(st: State, c: Call)
    requires Inv(st) && c.Opened? && !c.wrapped && c.p != NULL && c.p !in st.issued && Usable(st.log, c.parent)
    ensures Inv(Logged(st.(issued := st.issued + {c.p}), [c]))
  {
    var st' := Logged(st.(issued := st.issued + {c.p}), [c]);
    FreshIsNew(st, c.p);
    TreeIgnoresLog(st, st');
    LogOpened(st, st', c);
  }

  lemma AddInv(st: State, o: Ptr, k: Kind, p: Ptr, extra: nat)
    requires Inv(st) && AddOk(st, o, k, p, extra) && Usable(st.log, o)
    ensures Inv(Logged(Added(st, o, k, p, extra), [Opened(k, p, o, true)]))
  {
    var st' := Logged(Added(st, o, k, p, extra), [Opened(k, p, o, true)]);
    FreshIsNew(st, p);
    AddTree(st, o, k, p, extra);
    TreeIgnoresLog(Added(st, o, k, p, extra), st');
    LogOpened(st, st', Opened(k, p, o, true));
  }

  lemma OpenInv(st: State, x: Ptr, k: Kind, recv: bool, p: Ptr, alloc: bool)
    requires Inv(st) && Enabled(st, Open(x, k, recv, p, alloc))
    ensures Inv(DoOpen(st, x, k, recv, p, alloc))
  {
    UserSession(st, x);
    QuietThreads(st, x, x);
    if p == NULL {
      UseInv(st, x);
    } else if !alloc {
      LeakInv(st, Opened(k, p, x, false));
    } else {
      var extra := if k == Chan && recv then 1 else 0;
      AddInv(st, x, k, p, extra);
      assert DoOpen(st, x, k, recv, p, alloc) == Logged(Added(st, x, k, p, extra), [Opened(k, p, x, true)]);
    }
  }

  lemma OpenHandleInv(st: State, s: Ptr, k: Kind, p: Ptr, alloc: bool)
    requires Inv(st) && Enabled(st, OpenHandle(s, k, p, alloc))
    ensures Inv(DoOpenHandle(st, s, k, p, alloc))
  {
    assert WrapperOk(st, s);
    QuietThreads(st, s, st.objs[s].owner);
    if st.objs[s].ptr != NULL {
      WrapperUsable(st, s);
      if p == NULL {
        UseInv(st, s);
      } else if !alloc {
        LeakInv(st, Opened(k, p, s, false));
      } else {
        AddInv(st, s, k, p, 0);
        assert DoOpenHandle(st, s, k, p, alloc) == Logged(Added(st, s, k, p, 0), [Opened(k, p, s, true)]);
      }
    }
  }

  lemma MethodInv(st: State, c: Ptr)
    requires Inv(st) && c in st.objs
    ensures Inv(DoMethod(st, c))
  {
    assert WrapperOk(st, c);
    var st' := DoMethod(st, c);
    if st.objs[c].ptr != NULL {
      ShareTree(st, c);
      TreeIgnoresLog(DoShare(st, c), st');
      LogCall(st, st', Enter(c));
    }
  }

  lemma ReturnInv(st: State, c: Ptr)
    requires Inv(st) && c in st.objs && st.objs[c].user > 0 && st.objs[c].kind != Listen
    ensures Inv(DoReturn(st, c))
  {
    var st1 := Logged(st, [Leave(c)]).(inside := st.inside - multiset{c});
    TreeIgnoresLog(st, st1);
    LogCall(st, st1, Leave(c));
    DropInv(st1, c);
  }

  /** Giving up the set's reference makes no call while somebody else has one. */
  lemma DiscardSilent(st: State, o: Ptr, c: Ptr)
    requires Inv(st) && c in st.objs && st.objs[c].user > 0
    ensures var st' := Discard(st, o, c);
      && st'.log == st.log && st'.threads == st.threads && st'.sessions == st.sessions && st'.issued == st.issued
      && st'.inside == st.inside
      && c in st'.objs && st'.objs == st.objs[c := st'.objs[c]]
      && st'.objs[c] == st.objs[c].(refs := st'.objs[c].refs) && st'.objs[c].refs > 0
  {
    assert WrapperOk(st, c);
  }

  lemma CloseChannelLog(st: State, x: Ptr, c: Ptr)
    requires Inv(st) && CloseReady(st, x, c) && st.objs[c].kind == Chan
    ensures LogOk(DoCloseChannel(st, x, c))
  {
    assert WrapperOk(st, c);
    var st' := DoCloseChannel(st, x, c);
    DiscardSilent(st, x, c);
    if st.objs[c].ptr == NULL {
      LogSilent(st, st');
    } else {
      WrapperUsable(st, c);
      LogCall(st, st', ChannelClose(c));
    }
  }

  lemma CloseChannelInv(st: State, x: Ptr, c: Ptr)
    requires Inv(st) && CloseReady(st, x, c) && st.objs[c].kind == Chan
    ensures Inv(DoCloseChannel(st, x, c))
  {
    CloseChannelTree(st, x, c);
    CloseChannelLog(st, x, c);
  }

  lemma CloseFileLog(st: State, s: Ptr, d: Ptr)
    requires Inv(st) && s in st.objs && st.objs[s].ptr != NULL
    requires d in st.objs && IsFile(st.objs[d].kind) && st.objs[d].user > 0 && st.objs[d].holder == -1
    ensures LogOk(DoCloseFile(st, s, d))
  {
    assert WrapperOk(st, d);
    var st' := DoCloseFile(st, s, d);
    var p := st.objs[d].ptr;
    DiscardSilent(st, s, d);
    forall q {:trigger Released(st', q)} | q in st.objs
      ensures B(Released(st', q)) == B(Released(st, q)) + B(CloseHandle(p) == ReleaseOf(st.objs[q].kind, q))
    {
      assert WrapperOk(st, q);
    }
    if p != NULL { WrapperUsable(st, d); }
    LogCall(st, st', CloseHandle(p));
  }

  lemma CloseFileInv(st: State, s: Ptr, d: Ptr)
    requires Inv(st) && Enabled(st, CloseFile(s, d))
    ensures Inv(DoCloseFile(st, s, d))
  {
    CloseFileTree(st, s, d);
    if st.objs[s].ptr != NULL { CloseFileLog(st, s, d); }
  }

  lemma CancelInv(st: State, x: Ptr, l: Ptr)
    requires Inv(st) && CloseReady(st, x, l) && st.objs[l].kind == Listen
    ensures Inv(DoCancel(st, x, l))
  {
    assert WrapperOk(st, l);
    var st' := DoCancel(st, x, l);
    CancelTree(st, x, l);
    DiscardSilent(st, x, l);
    if st.objs[l].ptr == NULL {
      forall p {:trigger Released(st', p)} | p in st.objs ensures Released(st', p) == Released(st, p) && p != NULL {
        assert WrapperOk(st, p);
      }
      LogCall(st, st', Cancel(NULL));
    } else {
      CancelLog(st, st', l);
    }
  }

  lemma ShutdownSftpInv(st: State, x: Ptr, s: Ptr)
    requires Inv(st) && CloseReady(st, x, s) && st.objs[s].kind == Sftp
    ensures Inv(DoShutdownSftp(st, x, s))
  {
    ShutdownSftpTree(st, x, s);
    DiscardSilent(st, x, s);
    LogSilent(st, DoShutdownSftp(st, x, s));
  }

  lemma DropInv(st: State, c: Ptr)
    requires Inv(st) && c in st.objs && st.objs[c].user > 0
    requires Cancels(st.objs[c]) ==> !Astray(st, SessionOf(st, c))
    ensures Inv(DoDrop(st, c))
  {
    assert WrapperOk(st, c);
    if Cancels(st.objs[c]) {
      DropListenerTree(st, c);
      CancelLog(st, DoDrop(st, c), c);
    } else {
      DropTree(st, c);
      LogSilent(st, DoDrop(st, c));
    }
  }

  predicate Closes(a: Action) {
    a.CloseChannel? || a.CloseFile? || a.CancelListener? || a.ShutdownSftp? || a.CloseSession?
  }

  lemma CloserInv(st: State, a: Action)
    requires Inv(st) && Enabled(st, a) && Closes(a)
    ensures Inv(Apply(st, a))
  {
    match a
    case CloseChannel(x, c) => CloseChannelInv(st, x, c);
    case CloseFile(s, d) => CloseFileInv(st, s, d);
    case CancelListener(x, l) => CancelInv(st, x, l);
    case ShutdownSftp(x, s) => ShutdownSftpInv(st, x, s);
    case CloseSession(x) => CloseSessionTree(st, x); LogSilent(st, DoCloseSession(st, x));
  }

  predicate Counts(a: Action) {
    a.Share? || a.Drop? || a.ShareSession? || a.DropSession?
  }

  lemma ReferenceInv(st: State, a: Action)
    requires Inv(st) && Enabled(st, a) && Counts(a)
    ensures Inv(Apply(st, a))
  {
    match a
    case Share(c) => ShareTree(st, c); LogSilent(st, DoShare(st, c));
    case Drop(c) => DropInv(st, c);
    case ShareSession(x) => ShareSessionTree(st, x); LogSilent(st, DoShareSession(st, x));
    case DropSession(x) => DropSessionTree(st, x); LogSilent(st, DoDropSession(st, x));
  }

  lemma StepInv(st: State, a: Action)
    requires Inv(st) && Enabled(st, a)
    ensures Inv(Apply(st, a))
  {
    match a
    case NewSession(p) => if p != NULL { NewSessionInv(st, p); }
    case Startup(x, ok) => StartupInv(st, x, ok);
    case Open(x, k, recv, p, alloc) => OpenInv(st, x, k, recv, p, alloc);
    case OpenHandle(s, k, p, alloc) => OpenHandleInv(st, s, k, p, alloc);
    case Method(c) => MethodInv(st, c);
    case Return(c) => ReturnInv(st, c);
    case Run(i, pick) => RunInv(st, i, pick);
    case _ => if Counts(a) { ReferenceInv(st, a); } else { CloserInv(st, a); }
  }

  lemma {:induction false} RunInvHolds(st: State, acts: seq<Action>)
    requires Inv(st) && IsRun(st, acts)
    ensures Inv(After(st, acts))
    decreases |acts|
  {
    if acts != [] {
      StepInv(st, acts[0]);
      RunInvHolds(Apply(st, acts[0]), acts[1..]);
    }
  }

  lemma InitialInv()
    ensures Inv(Initial)
  {
  }

  /** Every state that some run reaches satisfies the invariant. */
  lemma ReachableInv(acts: seq<Action>)
    requires IsRun(Initial, acts)
    ensures Inv(After(Initial, acts))
  {
    InitialInv();
    RunInvHolds(Initial, acts);
  }
}
