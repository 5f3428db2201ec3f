/** Which library call each action makes: one at most. */
module Calls {
  import opened LibSsh2
  import opened Machine
  import opened Invariant
  import opened SessionPreservation
  import opened LogPreservation
  import opened Steps

  function PopCall(st: State, t: Thread, o: Ptr, k: Kind, pick: Ptr): Log
    requires pick in st.objs
  {
    var w := st.objs[pick];
    match k
    case Dir => [CloseHandle(w.ptr)]
    case File => [CloseHandle(w.ptr)]
    case Chan => if w.ptr == NULL then [] else [ChannelClose(w.ptr)]
    case Listen => if Cancels(w) then [Cancel(w.ptr)] else []
    case _ => []
  }

  function RunCall(st: State, i: nat, pick: Ptr): Log
    requires CanRun(st, i, pick)
  {
    var t := st.threads[i];
    var (loops, o, k) := Looping(t);
    if loops && Members(st, o, k) != {} then PopCall(st, t, o, k, pick)
    else
      match t.pc
      case InHandle(s, d) => if st.objs[d].ptr == NULL then [] else [Back(s)]
      case InClose(d) => [Back(st.objs[d].owner)]
      case InCancel(l) => [Back(st.objs[l].owner)]
      case InDisconnect => [Back(t.root.x)]
      case AtListeners => [Disconnect(st.sessions[t.root.x].ptr)]
      case AtShut(s) => [Shutdown(st.objs[s].ptr)]
      case InChannel(c) => [ChannelFree(st.objs[c].ptr)]
      case AtFree => [SessionFree(st.sessions[t.root.x].ptr)]
      case _ => []
  }

  function CallOf(st: State, a: Action): Log
    requires Enabled(st, a)
  {
    match a
    case NewSession(p) => if p == NULL then [] else [Opened(Sess, p, NULL, true)]
    case Startup(x, ok) => [if ok then Started(st.sessions[x].ptr) else Use(st.sessions[x].ptr)]
    case Open(x, k, _, p, alloc) =>
      [if p == NULL then Use(st.sessions[x].ptr) else Opened(k, p, st.sessions[x].ptr, alloc)]
    case OpenHandle(s, k, p, alloc) =>
      var q := st.objs[s].ptr;
      if q == NULL then [] else [if p == NULL then Use(q) else Opened(k, p, q, alloc)]
    case Method(c) => if st.objs[c].ptr == NULL then [] else [Enter(st.objs[c].ptr)]
    case Return(c) => [Leave(c)]
    case CloseChannel(_, c) => if st.objs[c].ptr == NULL then [] else [ChannelClose(st.objs[c].ptr)]
    case CloseFile(s, d) => if st.objs[s].ptr == NULL then [] else [CloseHandle(st.objs[d].ptr)]
    case CancelListener(_, l) => [Cancel(st.objs[l].ptr)]
    case Drop(c) => if Cancels(st.objs[c]) then [Cancel(st.objs[c].ptr)] else []
    case Run(i, pick) => RunCall(st, i, pick)
    case _ => []
  }

  lemma PopMakes(st: State, i: nat, pick: Ptr)
    requires Inv(st) && CanRun(st, i, pick)
    requires var (loops, o, k) := Looping(st.threads[i]); loops && Members(st, o, k) != {}
    ensures RunThread(st, i, pick).log == st.log + RunCall(st, i, pick)
  {
    var (_, o, k) := Looping(st.threads[i]);
    assert ThreadOk(st, i);
    PopUnheld(st, i, o, k, pick);
    assert WrapperOk(st, pick);
  }

  lemma FinishSilent(st: State, i: nat, c: Ptr, pc: Pc)
    requires c in st.objs && i < |st.threads|
    ensures Finish(st, i, c, pc).log == st.log
  {
  }

  lemma MoveMakes(st: State, i: nat, pick: Ptr)
    requires Inv(st) && CanRun(st, i, pick)
    requires var (loops, o, k) := Looping(st.threads[i]); loops ==> Members(st, o, k) == {}
    ensures RunThread(st, i, pick).log == st.log + RunCall(st, i, pick)
  {
    var t := st.threads[i];
    match t.pc
    case InHandle(s, d) =>
      FinishSilent(if st.objs[d].ptr == NULL then st else Logged(st, [Back(s)]), i, d,
                   if st.objs[d].kind == Dir then AtDirs(s) else AtFiles(s));
    case InClose(d) => FinishSilent(Logged(st, [Back(st.objs[d].owner)]), i, d, Done);
    case InCancel(l) => FinishSilent(Logged(st, [Back(st.objs[l].owner)]), i, l, Leaving(t.root, AtListeners));
    case AtShut(s) => FinishSilent(Logged(st, [Shutdown(st.objs[s].ptr)]), i, s, Leaving(t.root, AtSftps));
    case InChannel(c) => FinishSilent(Logged(st, [ChannelFree(st.objs[c].ptr)]), i, c, Leaving(t.root, AtChannels));
    case _ =>
  }

  lemma RunMakes(st: State, i: nat, pick: Ptr)
    requires Inv(st) && CanRun(st, i, pick)
    ensures RunThread(st, i, pick).log == st.log + RunCall(st, i, pick)
  {
    var (loops, o, k) := Looping(st.threads[i]);
    if loops && Members(st, o, k) != {} { PopMakes(st, i, pick); } else { MoveMakes(st, i, pick); }
  }

  lemma DropMakes(st: State, c: Ptr)
    requires Inv(st) && c in st.objs && st.objs[c].user > 0
    ensures DoDrop(st, c).log == st.log + (if Cancels(st.objs[c]) then [Cancel(st.objs[c].ptr)] else [])
  {
    assert WrapperOk(st, c);
  }

  lemma ReturnMakes(st: State, c: Ptr)
    requires Inv(st) && c in st.objs && st.objs[c].user > 0 && st.objs[c].kind != Listen
    ensures DoReturn(st, c).log == st.log + [Leave(c)]
  {
    var st1 := Logged(st, [Leave(c)]).(inside := st.inside - multiset{c});
    assert WrapperOk(st, c);
    assert st1.objs == st.objs;
  }

  lemma CloserMakes(st: State, a: Action)
    requires Inv(st) && Enabled(st, a) && Closes(a)
    ensures Apply(st, a).log == st.log + CallOf(st, a)
  {
    match a
    case CloseChannel(x, c) => DiscardSilent(st, x, c);
    case CloseFile(s, d) => DiscardSilent(st, s, d);
    case CancelListener(x, l) => DiscardSilent(st, x, l);
    case ShutdownSftp(x, s) => DiscardSilent(st, x, s);
    case CloseSession(_) =>
  }

  lemma StepMakes(st: State, a: Action)
    requires Inv(st) && Enabled(st, a)
    ensures Apply(st, a).log == st.log + CallOf(st, a)
  {
    if Closes(a) {
      CloserMakes(st, a);
    } else {
      match a
      case Drop(c) => DropMakes(st, c);
      case Return(c) => ReturnMakes(st, c);
      case Run(i, pick) => RunMakes(st, i, pick);
      case _ =>
    }
  }
}