/** The classes and the machine: a session object whose fields, sets and counts agree
    with a state of the machine agrees with it again after `Close` or `Dealloc`, and
    the calls it made are those of a run of the machine. */
module Simulation {
  import opened LibSsh2
  import opened Machine
  import opened Invariant
  import opened LogPreservation
  import opened Traces
  import opened Renaming
  import opened Rounds
  import opened Refinement
  import W = Wrappers

  type Called = Naming<W.Sftp, W.SftpHandle, W.Channel, W.Listener>

  // An object agrees with the wrapper that is called `p`

  ghost predicate HandleIs(d: W.SftpHandle, st: State, p: Ptr)
    reads d
  {
    p in st.objs && d.handle == st.objs[p].ptr && d.refs == st.objs[p].refs && d.sftp == st.objs[p].owner
  }

  ghost predicate ChannelIs(c: W.Channel, st: State, p: Ptr)
    reads c
  {
    p in st.objs && c.channel == st.objs[p].ptr && c.refs == st.objs[p].refs
  }

  ghost predicate ListenerIs(l: W.Listener, st: State, p: Ptr)
    reads l
  {
    p in st.objs && l.listener == st.objs[p].ptr && l.refs == st.objs[p].refs && l.session == st.objs[p].owner
  }

  ghost predicate SftpIs(s: W.Sftp, st: State, p: Ptr)
    reads s
  {
    p in st.objs && s.sftp == st.objs[p].ptr && s.refs == st.objs[p].refs
  }

  /** The two sets of `s` and their members agree with those of the sftp `p`. */
  ghost predicate ChildrenAre(s: W.Sftp, st: State, n: Called, p: Ptr)
    reads s, s.Children()
  {
    && Names(s.directories, n.handles, Members(st, p, Dir)) && Names(s.files, n.handles, Members(st, p, File))
    && (forall d :: d in s.directories ==> HandleIs(d, st, n.handles[d]))
    && (forall d :: d in s.files ==> HandleIs(d, st, n.handles[d]))
  }

  /** These objects agree with the members of a set of session `x`, all of them. */
  ghost predicate SftpsAre(ss: set<W.Sftp>, st: State, x: Ptr, n: Called)
    reads ss, set s, d | s in ss && d in s.Children() :: d
  {
    && Names(ss, n.sftps, Members(st, x, Sftp))
    && (forall s :: s in ss ==> SftpIs(s, st, n.sftps[s]) && ChildrenAre(s, st, n, n.sftps[s]))
  }

  ghost predicate ChannelsAre(cs: set<W.Channel>, st: State, x: Ptr, n: Called)
    reads cs
  {
    Names(cs, n.channels, Members(st, x, Chan)) && forall c :: c in cs ==> ChannelIs(c, st, n.channels[c])
  }

  ghost predicate ListenersAre(ls: set<W.Listener>, st: State, x: Ptr, n: Called)
    reads ls
  {
    Names(ls, n.listeners, Members(st, x, Listen)) && forall l :: l in ls ==> ListenerIs(l, st, n.listeners[l])
  }

  ghost predicate OneToOne(n: Called) {
    Injective(n.sftps) && Injective(n.handles) && Injective(n.channels) && Injective(n.listeners)
  }

  /** The session object agrees with session `x`, and all objects below it with the
      wrappers below `x`, under names that are not shared. */
  ghost predicate Represents(o: W.Session, st: State, x: Ptr, n: Called)
    reads o, o.sftps, o.channels, o.listeners, o.Handles()
  {
    && x in st.sessions && o.session == st.sessions[x].ptr && o.isOpen == st.sessions[x].up && OneToOne(n)
    && SftpsAre(o.sftps, st, x, n) && ChannelsAre(o.channels, st, x, n) && ListenersAre(o.listeners, st, x, n)
  }

  // The views agree

  lemma HandlesImage(s: set<W.SftpHandle>, st: State, o: Ptr, k: Kind, h: map<W.SftpHandle, Ptr>)
    requires Sets(st) && IsFile(k) && Names(s, h, Members(st, o, k)) && forall d :: d in s ==> HandleIs(d, st, h[d])
    ensures Image(W.HandleCalls(s), h, CallMap(st, o, k))
  {
    assert W.HandleCalls(s).Keys == s;
    assert CallMap(st, o, k).Keys == Members(st, o, k);
    assert forall d :: d in s ==> h[d] in Members(st, o, k);
  }

  lemma SftpImage(s: W.Sftp, st: State, n: Called, p: Ptr)
    requires Sets(st) && s.Valid() && SftpIs(s, st, p) && ChildrenAre(s, st, n, p)
    ensures ViewImage(s.view, n.handles, ViewOf(st, p))
  {
    HandlesImage(s.directories, st, p, Dir, n.handles);
    HandlesImage(s.files, st, p, File, n.handles);
  }

  lemma SftpsImage(o: W.Session, st: State, x: Ptr, n: Called)
    requires Sets(st) && o.Valid() && OneToOne(n) && SftpsAre(o.sftps, st, x, n)
    ensures ViewsImage(o.SftpViews(), n.sftps, n.handles, Views(st, x))
  {
    assert o.SftpViews().Keys == o.sftps;
    assert Views(st, x).Keys == Members(st, x, Sftp);
    forall s | s in o.sftps ensures ViewImage(s.view, n.handles, Views(st, x)[n.sftps[s]]) {
      assert o.Holds(s);
      SftpImage(s, st, n, n.sftps[s]);
    }
  }

  lemma ChannelsImage(o: W.Session, st: State, x: Ptr, n: Called)
    requires Sets(st) && ChannelsAre(o.channels, st, x, n)
    ensures Image(o.ChannelCalls(), n.channels, CallMap(st, x, Chan))
  {
    assert o.ChannelCalls().Keys == o.channels;
    assert CallMap(st, x, Chan).Keys == Members(st, x, Chan);
    assert forall c :: c in o.channels ==> n.channels[c] in Members(st, x, Chan);
  }

  lemma ListenersImage(o: W.Session, st: State, x: Ptr, n: Called)
    requires Sets(st) && ListenersAre(o.listeners, st, x, n)
    ensures Image(o.ListenerCalls(), n.listeners, CallMap(st, x, Listen))
  {
    assert o.ListenerCalls().Keys == o.listeners;
    assert CallMap(st, x, Listen).Keys == Members(st, x, Listen);
    assert forall l :: l in o.listeners ==> n.listeners[l] in Members(st, x, Listen);
  }

  lemma ViewsAgree(o: W.Session, st: State, x: Ptr, n: Called)
    requires Inv(st) && o.Valid() && Represents(o, st, x, n)
    ensures SessionImage(o.View(), n, SessionViewOf(st, x))
  {
    SftpsImage(o, st, x, n);
    ChannelsImage(o, st, x, n);
    ListenersImage(o, st, x, n);
  }

  // What the machine makes of the wrappers

  lemma SftpOutcome(st: State, st': State, x: Ptr, s: Ptr)
    requires Sets(st) && ClosesAll(st, st', x) && s in Members(st, x, Sftp)
    ensures s in st.objs && s in st'.objs && st'.objs[s].ptr == NULL && st'.objs[s].refs == Less(st.objs[s].refs)
  {
    assert s !in Members(st, x, Chan) && s !in Members(st, x, Listen);
    assert st'.objs[s] == CloseOutcome(st, x, s);
  }

  lemma HandleOutcome(st: State, st': State, x: Ptr, s: Ptr, k: Kind, d: Ptr)
    requires Sets(st) && ClosesAll(st, st', x) && s in Members(st, x, Sftp) && IsFile(k) && d in Members(st, s, k)
    ensures d in st.objs && d in st'.objs && st'.objs[d].ptr == NULL && st'.objs[d].refs == Less(st.objs[d].refs)
    ensures st'.objs[d].owner == st.objs[d].owner
  {
    assert d !in Members(st, x, Chan) && d !in Members(st, x, Listen) && d !in Members(st, x, Sftp);
    assert st'.objs[d] == CloseOutcome(st, x, d);
  }

  lemma ChannelOutcome(st: State, st': State, x: Ptr, c: Ptr)
    requires Sets(st) && ClosesAll(st, st', x) && c in Members(st, x, Chan)
    ensures c in st.objs && c in st'.objs && st'.objs[c].ptr == NULL && st'.objs[c].refs == Less(st.objs[c].refs)
  {
    assert st'.objs[c] == CloseOutcome(st, x, c);
  }

  lemma ListenerOutcome(st: State, st': State, x: Ptr, l: Ptr)
    requires Sets(st) && ClosesAll(st, st', x) && l in Members(st, x, Listen)
    ensures l in st.objs && l in st'.objs && st'.objs[l].refs == Less(st.objs[l].refs)
    ensures st'.objs[l].ptr == if st.objs[l].refs == 1 then NULL else st.objs[l].ptr
    ensures st'.objs[l].owner == st.objs[l].owner
  {
    assert st'.objs[l] == CloseOutcome(st, x, l);
  }

  // The objects after a close

  /** These objects agree with the wrappers that they are called. */
  ghost predicate Agree(ss: set<W.Sftp>, hs: set<W.SftpHandle>, cs: set<W.Channel>, ls: set<W.Listener>, st: State,
    n: Called)
    reads ss, hs, cs, ls
  {
    && (forall s :: s in ss ==> s in n.sftps && SftpIs(s, st, n.sftps[s]))
    && (forall d :: d in hs ==> d in n.handles && HandleIs(d, st, n.handles[d]))
    && (forall c :: c in cs ==> c in n.channels && ChannelIs(c, st, n.channels[c]))
    && (forall l :: l in ls ==> l in n.listeners && ListenerIs(l, st, n.listeners[l]))
  }

  /** `p` is a file or directory of an sftp that session `x` tracks. */
  ghost predicate Grandchild(st: State, x: Ptr, p: Ptr) {
    exists s, k :: s in Members(st, x, Sftp) && IsFile(k) && p in Members(st, s, k)
  }

  lemma HandlesBelow(o: W.Session, st: State, x: Ptr, n: Called)
    requires SftpsAre(o.sftps, st, x, n)
    ensures forall d :: d in o.Handles() ==>
      d in n.handles && Grandchild(st, x, n.handles[d]) && HandleIs(d, st, n.handles[d])
  {
    forall d | d in o.Handles()
      ensures d in n.handles && Grandchild(st, x, n.handles[d]) && HandleIs(d, st, n.handles[d])
    {
      var s :| s in o.sftps && d in s.Children();
      assert ChildrenAre(s, st, n, n.sftps[s]);
      var k := if d in s.directories then Dir else File;
      assert n.handles[d] in Members(st, n.sftps[s], k);
    }
  }

  lemma SftpsAgree(ss: set<W.Sftp>, st: State, st': State, x: Ptr, n: Called)
    requires Sets(st) && ClosesAll(st, st', x) && Names(ss, n.sftps, Members(st, x, Sftp))
    requires forall s :: s in ss ==> n.sftps[s] in st.objs && s.sftp == NULL && s.refs == st.objs[n.sftps[s]].refs - 1
    ensures forall s :: s in ss ==> SftpIs(s, st', n.sftps[s])
  {
    forall s | s in ss ensures SftpIs(s, st', n.sftps[s]) {
      SftpOutcome(st, st', x, n.sftps[s]);
    }
  }

  lemma HandlesAgree(hs: set<W.SftpHandle>, st: State, st': State, x: Ptr, n: Called)
    requires Sets(st) && ClosesAll(st, st', x) && hs <= n.handles.Keys
    requires forall d :: d in hs ==> n.handles[d] in st.objs && Grandchild(st, x, n.handles[d])
    requires forall d :: d in hs ==>
      d.handle == NULL && d.refs == st.objs[n.handles[d]].refs - 1 && d.sftp == st.objs[n.handles[d]].owner
    ensures forall d :: d in hs ==> HandleIs(d, st', n.handles[d])
  {
    forall d | d in hs ensures HandleIs(d, st', n.handles[d]) {
      var s, k :| s in Members(st, x, Sftp) && IsFile(k) && n.handles[d] in Members(st, s, k);
      HandleOutcome(st, st', x, s, k, n.handles[d]);
    }
  }

  lemma ChannelsAgree(cs: set<W.Channel>, st: State, st': State, x: Ptr, n: Called)
    requires Sets(st) && ClosesAll(st, st', x) && Names(cs, n.channels, Members(st, x, Chan))
    requires forall c :: c in cs ==>
      n.channels[c] in st.objs && c.channel == NULL && c.refs == st.objs[n.channels[c]].refs - 1
    ensures forall c :: c in cs ==> ChannelIs(c, st', n.channels[c])
  {
    forall c | c in cs ensures ChannelIs(c, st', n.channels[c]) {
      ChannelOutcome(st, st', x, n.channels[c]);
    }
  }

  lemma ListenersAgree(ls: set<W.Listener>, st: State, st': State, x: Ptr, n: Called)
    requires Sets(st) && ClosesAll(st, st', x) && Names(ls, n.listeners, Members(st, x, Listen))
    requires forall l :: l in ls ==> n.listeners[l] in st.objs && l.refs == st.objs[n.listeners[l]].refs - 1
    requires forall l :: l in ls ==> l.listener == if l.refs == 0 then NULL else st.objs[n.listeners[l]].ptr
    requires forall l :: l in ls ==> l.session == st.objs[n.listeners[l]].owner
    ensures forall l :: l in ls ==> ListenerIs(l, st', n.listeners[l])
  {
    forall l | l in ls ensures ListenerIs(l, st', n.listeners[l]) {
      ListenerOutcome(st, st', x, n.listeners[l]);
    }
  }

  /** What the contract of a close leaves of the objects, measured by the old state. */
  ghost predicate Reduced(ss: set<W.Sftp>, hs: set<W.SftpHandle>, cs: set<W.Channel>, ls: set<W.Listener>, st: State,
    n: Called)
    reads ss, hs, cs, ls
  {
    && (forall s :: s in ss ==>
          s in n.sftps && n.sftps[s] in st.objs && s.sftp == NULL && s.refs == st.objs[n.sftps[s]].refs - 1)
    && (forall d :: d in hs ==>
          && d in n.handles && n.handles[d] in st.objs && d.handle == NULL && d.refs == st.objs[n.handles[d]].refs - 1
          && d.sftp == st.objs[n.handles[d]].owner)
    && (forall c :: c in cs ==>
          c in n.channels && n.channels[c] in st.objs && c.channel == NULL && c.refs == st.objs[n.channels[c]].refs - 1)
    && (forall l :: l in ls ==>
          && l in n.listeners && n.listeners[l] in st.objs && l.refs == st.objs[n.listeners[l]].refs - 1
          && l.session == st.objs[n.listeners[l]].owner
          && l.listener == if l.refs == 0 then NULL else st.objs[n.listeners[l]].ptr)
  }

  lemma AllAgree(ss: set<W.Sftp>, hs: set<W.SftpHandle>, cs: set<W.Channel>, ls: set<W.Listener>, st: State,
    st': State, x: Ptr,
                 n: Called)
    requires Sets(st) && ClosesAll(st, st', x) && Reduced(ss, hs, cs, ls, st, n)
    requires Names(ss, n.sftps, Members(st, x, Sftp)) && Names(cs, n.channels, Members(st, x, Chan))
    requires Names(ls, n.listeners, Members(st, x, Listen)) && forall d :: d in hs ==> Grandchild(st, x, n.handles[d])
    ensures Agree(ss, hs, cs, ls, st', n)
  {
    SftpsAgree(ss, st, st', x, n);
    HandlesAgree(hs, st, st', x, n);
    ChannelsAgree(cs, st, st', x, n);
    ListenersAgree(ls, st, st', x, n);
  }

  lemma EmptyRepresents(o: W.Session, st: State, x: Ptr, n: Called)
    requires o.sftps == {} && o.channels == {} && o.listeners == {} && NoMembers(st, x)
    requires OneToOne(n)
    requires x in st.sessions && o.session == st.sessions[x].ptr && o.isOpen == st.sessions[x].up
    ensures Represents(o, st, x, n)
  {
  }

  // The calls of the classes are those of runs

  lemma CloseRun(st: State, i: nat, x: Ptr, n: Called, v: SessionView<W.Sftp, W.SftpHandle, W.Channel, W.Listener>,
                 order: CloseOrder<W.Sftp, W.SftpHandle, W.Channel, W.Listener>) returns (acts: seq<Action>)
    requires At(st, i, Root.Close(x), AtSftps) && x in st.sessions && SessionImage(v, n, SessionViewOf(st, x))
    requires PopsAll(order, v)
    ensures OnlyThread(acts, i) && IsRun(st, acts) && Sets(st)
    ensures var st' := After(st, acts);
      && st'.log == st.log + CloseTrace(order, v) && SafeLog(st'.log) && ClosesAll(st, st', x)
      && x in st'.sessions && !st'.sessions[x].up && st'.sessions[x].ptr == st.sessions[x].ptr
  {
    var order' := CloseRenamed(order, v, n, SessionViewOf(st, x));
    CloseIsARun(st, i, x, order');
    acts :| OnlyThread(acts, i) && IsRun(st, acts) && ClosedBy(st, After(st, acts), x, order');
  }

  lemma DeallocRun(st: State, i: nat, x: Ptr, n: Called, v: SessionView<W.Sftp, W.SftpHandle, W.Channel, W.Listener>,
                   order: CloseOrder<W.Sftp, W.SftpHandle, W.Channel, W.Listener>) returns (acts: seq<Action>)
    requires At(st, i, Root.Dealloc(x), AtSftps) && x in st.sessions && SessionImage(v, n, SessionViewOf(st, x))
    requires PopsAll(order, v)
    ensures OnlyThread(acts, i) && IsRun(st, acts) && Sets(st)
    ensures var st' := After(st, acts);
      && st'.log == st.log + CloseTrace(order, v) + [SessionFree(st.sessions[x].ptr)] && SafeLog(st'.log)
           && ClosesAll(st, st', x)
      && x in st'.sessions && !st'.sessions[x].up && st'.sessions[x].ptr == NULL
  {
    var order' := CloseRenamed(order, v, n, SessionViewOf(st, x));
    DeallocIsARun(st, i, x, order');
    acts :| OnlyThread(acts, i) && IsRun(st, acts) && FreedBy(st, After(st, acts), x, order');
  }

  // The methods beside the machine

  /** Session_close on an object that agrees with the machine, where thread `i` has
      just started the same: alone, that thread can make exactly the same calls, which
      are safe, and then everything agrees again. */
  method Close(lib: W.Library, o: W.Session, answer: int, ghost st: State, ghost i: nat, ghost x: Ptr, ghost n: Called)
    returns (ghost acts: seq<Action>)
    requires At(st, i, Root.Close(x), AtSftps) && o.Valid() && Represents(o, st, x, n) && o.isOpen && lib.log == st.log
    modifies lib, o, o.sftps, o.channels, o.listeners, o.Handles()
    ensures OnlyThread(acts, i) && IsRun(st, acts) && After(st, acts).log == lib.log && SafeLog(lib.log)
    ensures Represents(o, After(st, acts), x, n)
    ensures Agree(old(o.sftps), old(o.Handles()), old(o.channels), old(o.listeners), After(st, acts), n)
  {
    ViewsAgree(o, st, x, n);
    HandlesBelow(o, st, x, n);
    ghost var v := o.View();
    ghost var ss, hs, cs, ls := o.sftps, o.Handles(), o.channels, o.listeners;
    var rc;
    ghost var order;
    rc, order := o.Close(lib, answer);
    assert Reduced(ss, hs, cs, ls, st, n);
    acts := CloseRun(st, i, x, n, v, order);
    AllAgree(ss, hs, cs, ls, st, After(st, acts), x, n);
    EmptyRepresents(o, After(st, acts), x, n);
  }

  /** Session_dealloc of a session that is up, likewise. */
  method Dealloc(lib: W.Library, o: W.Session, answer: int, ghost st: State, ghost i: nat, ghost x: Ptr,
    ghost n: Called)
    returns (ghost acts: seq<Action>)
    requires At(st, i, Root.Dealloc(x), AtSftps) && o.Valid() && Represents(o, st, x, n) && o.isOpen
    requires o.session != NULL && lib.log == st.log
    modifies lib, o, o.sftps, o.channels, o.listeners, o.Handles()
    ensures OnlyThread(acts, i) && IsRun(st, acts) && After(st, acts).log == lib.log && SafeLog(lib.log)
    ensures Represents(o, After(st, acts), x, n)
    ensures Agree(old(o.sftps), old(o.Handles()), old(o.channels), old(o.listeners), After(st, acts), n)
  {
    ViewsAgree(o, st, x, n);
    HandlesBelow(o, st, x, n);
    ghost var v := o.View();
    ghost var ss, hs, cs, ls := o.sftps, o.Handles(), o.channels, o.listeners;
    ghost var order := o.Dealloc(lib, answer);
    acts := DeallocRun(st, i, x, n, v, order);
    AllAgree(ss, hs, cs, ls, st, After(st, acts), x, n);
    EmptyRepresents(o, After(st, acts), x, n);
  }
}
