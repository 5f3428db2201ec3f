/** The traces of the teardown methods are runs of the machine: for every order in
    which the sets can be popped, a thread that is left alone makes exactly the
    calls that the class `Session` makes. What holds in every run of the machine
    thus holds for the methods. */
module Refinement {
  import opened LibSsh2
  import opened Machine
  import opened Invariant
  import opened LogPreservation
  import opened Steps
  import opened Traces
  import opened Rounds

  /** The set `(o, k)` is the one that a thread at `pc` pops. */
  predicate Pops(root: Root, pc: Pc, o: Ptr, k: Kind) {
    || (pc == AtDirs(o) && k == Dir)
    || (pc == AtFiles(o) && k == File)
    || (!root.Shut? && o == root.x && ((pc == AtChannels && k == Chan) || (pc == AtListeners && k == Listen)))
  }

  /** What popping the wrapper `w` leaves of its handle, and which calls it makes. */
  function PtrAfter(w: Wrapper): Ptr {
    if w.kind == Listen && !Cancels(w) then w.ptr else NULL
  }

  function PopCalls(w: Wrapper): Log {
    if w.kind == Listen && !Cancels(w) then [] else CloseCalls(w.kind, w.ptr, w.owner)
  }

  function Popped(w: Wrapper): Wrapper {
    w.(refs := Less(w.refs), ptr := PtrAfter(w))
  }

  ghost function CallMap(st: State, o: Ptr, k: Kind): map<Ptr, Log> {
    map c | c in Members(st, o, k) && c in st.objs :: PopCalls(st.objs[c])
  }

  /** Nothing moved from `st` to `st'` but the wrappers in `done`, popped from `(o, k)`. */
  ghost predicate Drained(st: State, st': State, o: Ptr, k: Kind, done: set<Ptr>) {
    && st'.sessions == st.sessions && |st'.threads| == |st.threads| && st'.objs.Keys == st.objs.Keys
    && (forall c {:trigger st'.objs[c]} :: c in st.objs ==>
         st'.objs[c] == if c in done then Popped(st.objs[c]) else st.objs[c])
    && (forall a, b {:trigger Members(st', a, b)} ::
          Members(st', a, b) == if a == o && b == k then Members(st, a, b) - done else Members(st, a, b))
  }

  function Set(order: seq<Ptr>): set<Ptr> {
    set c | c in order
  }

  lemma OneTurn(st: State, i: nat, root: Root, pc: Pc, o: Ptr, k: Kind, c: Ptr) returns (st': State)
    requires At(st, i, root, pc) && Pops(root, pc, o, k) && c in Members(st, o, k)
    ensures At(st', i, root, pc) && Reaches(st, st', i)
    ensures c in st.objs && st.objs[c].kind == k && Turn(st, st', o, c, PtrAfter(st.objs[c]), PopCalls(st.objs[c]))
  {
    match k
    case Dir => st' := HandleTurn(st, i, root, pc, o, k, c);
    case File => st' := HandleTurn(st, i, root, pc, o, k, c);
    case Chan => st' := ChannelTurn(st, i, root, c);
    case Listen => st' := ListenerTurn(st, i, root, c);
  }

  lemma DrainedTurn(st: State, st1: State, st': State, o: Ptr, k: Kind, done: set<Ptr>, c: Ptr)
    requires Drained(st, st1, o, k, done) && c !in done && c in st1.objs && st1.objs[c].kind == k
    requires Turn(st1, st', o, c, PtrAfter(st1.objs[c]), PopCalls(st1.objs[c]))
    ensures Drained(st, st', o, k, done + {c})
  {
    assert c in st.objs && st1.objs[c] == st.objs[c];
    forall d {:trigger st'.objs[d]} | d in st.objs
      ensures st'.objs[d] == if d in done + {c} then Popped(st.objs[d]) else st.objs[d]
    {
      if d != c { assert st'.objs[d] == st1.objs[d]; }
    }
    forall a, b {:trigger Members(st', a, b)}
      ensures Members(st', a, b) == if a == o && b == k then Members(st, a, b) - (done + {c}) else Members(st, a, b)
    {
      assert Members(st1, a, b) == if a == o && b == k then Members(st, a, b) - done else Members(st, a, b);
    }
  }

  /** One of the four loops over children, as far as `order`. */
  lemma {:induction false} PopMany(st: State, i: nat, root: Root, pc: Pc, o: Ptr, k: Kind, order: seq<Ptr>)
    returns (st': State)
    requires At(st, i, root, pc) && Pops(root, pc, o, k)
    requires Set(order) <= Members(st, o, k) && forall a, b :: 0 <= a < b < |order| ==> order[a] != order[b]
    ensures At(st', i, root, pc) && Reaches(st, st', i) && Drained(st, st', o, k, Set(order))
    ensures st'.log == st.log + CallsOf(order, CallMap(st, o, k))
    decreases |order|
  {
    if order == [] {
      st' := st;
      ReachesSelf(st, i);
    } else {
      var init, c := order[..|order| - 1], order[|order| - 1];
      SetInit(order);
      var st1 := PopMany(st, i, root, pc, o, k, init);
      assert c in Members(st1, o, k);
      st' := OneTurn(st1, i, root, pc, o, k, c);
      ReachesTrans(st, st1, st', i);
      DrainedTurn(st, st1, st', o, k, Set(init), c);
      CallsLog(st.log, order, CallMap(st, o, k));
    }
  }

  lemma CallsLog(log: Log, order: seq<Ptr>, calls: map<Ptr, Log>)
    requires order != [] && order[|order| - 1] in calls
    ensures log + CallsOf(order[..|order| - 1], calls) + calls[order[|order| - 1]] == log + CallsOf(order, calls)
  {
  }

  lemma SetInit(order: seq<Ptr>)
    requires order != [] && forall a, b :: 0 <= a < b < |order| ==> order[a] != order[b]
    ensures var init, c := order[..|order| - 1], order[|order| - 1]; Set(order) == Set(init) + {c} && c !in Set(init)
  {
    var init, c := order[..|order| - 1], order[|order| - 1];
    assert order == init + [c];
  }

  lemma ListsSet(st: State, o: Ptr, k: Kind, order: seq<Ptr>)
    requires Sets(st) && Lists(order, CallMap(st, o, k).Keys)
    ensures Set(order) == Members(st, o, k)
  {
    assert forall c :: c in Members(st, o, k) ==> c in st.objs;
  }

  function NextPc(pc: Pc): Pc {
    match pc
    case AtDirs(s) => AtFiles(s)
    case AtFiles(s) => AtShut(s)
    case AtChannels => AtListeners
    case _ => InDisconnect
  }

  /** One of the four loops over children, from its start to its end. */
  lemma LoopRound(st: State, i: nat, root: Root, pc: Pc, o: Ptr, k: Kind, order: seq<Ptr>) returns (st': State)
    requires At(st, i, root, pc) && Pops(root, pc, o, k) && Lists(order, CallMap(st, o, k).Keys)
    ensures At(st', i, root, NextPc(pc)) && Reaches(st, st', i) && Drained(st, st', o, k, Members(st, o, k))
    ensures k != Listen ==> st'.log == st.log + CallsOf(order, CallMap(st, o, k))
    ensures k == Listen ==>
      o in st.sessions && st'.log == st.log + CallsOf(order, CallMap(st, o, k)) + [Disconnect(st.sessions[o].ptr)]
  {
    ListsSet(st, o, k, order);
    var mid := PopMany(st, i, root, pc, o, k, order);
    assert Members(mid, o, k) == {};
    st' := LoopDone(mid, i, root, pc);
    ReachesTrans(st, mid, st', i);
    DrainedLater(st, mid, st', o, k, Set(order));
  }

  lemma DrainedLater(st: State, mid: State, st': State, o: Ptr, k: Kind, done: set<Ptr>)
    requires Drained(st, mid, o, k, done) && st' == mid.(threads := st'.threads, log := st'.log)
    requires |st'.threads| == |mid.threads|
    ensures Drained(st, st', o, k, done)
  {
    forall a, b {:trigger Members(st', a, b)}
      ensures Members(st', a, b) == if a == o && b == k then Members(st, a, b) - done else Members(st, a, b)
    {
      assert Members(st', a, b) == Members(mid, a, b);
    }
  }

  // Sftps

  ghost function ViewOf(st: State, s: Ptr): SftpView<Ptr>
    requires s in st.objs
  {
    SftpView(st.objs[s].ptr, CallMap(st, s, Dir), CallMap(st, s, File))
  }

  ghost function Views(st: State, x: Ptr): map<Ptr, SftpView<Ptr>> {
    map s | s in Members(st, x, Sftp) && s in st.objs :: ViewOf(st, s)
  }

  /** What becomes of the wrapper `c` when the sftps in `done` are shut down and
      dropped: they are, their files and directories are popped, the others stay. */
  function Outcome(st: State, done: set<Ptr>, c: Ptr): Wrapper
    requires c in st.objs
  {
    var w := st.objs[c];
    if c in done then w.(ptr := NULL, refs := Less(w.refs))
    else if IsFile(w.kind) && w.owner in done && Tracked(st, c) then Popped(w)
    else w
  }

  /** From `st` to `st'` that is what happened to the sftps in `done`, out of the set
      of `x`, and nothing else. */
  ghost predicate Shuts(st: State, st': State, x: Ptr, done: set<Ptr>) {
    && st'.sessions == st.sessions && |st'.threads| == |st.threads| && st'.objs.Keys == st.objs.Keys
    && (forall c {:trigger st'.objs[c]} :: c in st.objs ==> st'.objs[c] == Outcome(st, done, c))
    && (forall a, b {:trigger Members(st', a, b)} :: !(IsFile(b) && a in done) ==>
          Members(st', a, b) == if a == x && b == Sftp then Members(st, a, b) - done else Members(st, a, b))
  }

  lemma DrainedCall(st: State, st': State, o: Ptr, k: Kind, done: set<Ptr>, a: Ptr, b: Kind, c: Ptr)
    requires Sets(st) && Drained(st, st', o, k, done) && done <= Members(st, o, k) && (a != o || b != k)
    requires c in Members(st, a, b)
    ensures c in st.objs && c in st'.objs && st'.objs[c] == st.objs[c]
  {
    assert c in done ==> c in Members(st, o, k);
  }

  lemma DrainedCalls(st: State, st': State, o: Ptr, k: Kind, done: set<Ptr>, a: Ptr, b: Kind)
    requires Sets(st) && Drained(st, st', o, k, done) && done <= Members(st, o, k) && (a != o || b != k)
    ensures CallMap(st', a, b) == CallMap(st, a, b)
  {
    var ms := Members(st, a, b);
    assert Members(st', a, b) == ms;
    forall c | c in ms ensures c in st.objs && c in st'.objs && st'.objs[c] == st.objs[c] {
      DrainedCall(st, st', o, k, done, a, b, c);
    }
  }

  /** The two loops over the children of an sftp. */
  lemma ChildrenRound(st: State, i: nat, root: Root, s: Ptr, ds: seq<Ptr>, fs: seq<Ptr>)
    returns (mid: State, st': State)
    requires At(st, i, root, AtDirs(s)) && Lists(ds, CallMap(st, s, Dir).Keys) && Lists(fs, CallMap(st, s, File).Keys)
    ensures Drained(st, mid, s, Dir, Members(st, s, Dir)) && Drained(mid, st', s, File, Members(mid, s, File))
    ensures At(st', i, root, AtShut(s)) && Reaches(st, st', i)
    ensures st'.log == st.log + CallsOf(ds, CallMap(st, s, Dir)) + CallsOf(fs, CallMap(st, s, File))
  {
    mid := LoopRound(st, i, root, AtDirs(s), s, Dir, ds);
    FileCalls(st, mid, s);
    st' := LoopRound(mid, i, root, AtFiles(s), s, File, fs);
    ReachesTrans(st, mid, st', i);
  }

  lemma FileCalls(st: State, mid: State, s: Ptr)
    requires Inv(st) && Drained(st, mid, s, Dir, Members(st, s, Dir))
    ensures CallMap(mid, s, File) == CallMap(st, s, File)
  {
    DrainedCalls(st, mid, s, Dir, Members(st, s, Dir), s, File);
  }

  lemma TakenCalls(st: State, st1: State, s: Ptr, k: Kind)
    requires Sets(st) && s in st.objs && st.objs[s].kind == Sftp
    requires s in st1.objs && st1.objs == st.objs[s := st1.objs[s]] && IsFile(k)
    requires Members(st1, s, k) == Members(st, s, k)
    ensures CallMap(st1, s, k) == CallMap(st, s, k)
  {
    assert forall c :: c in Members(st, s, k) ==> c in st.objs && c != s && st1.objs[c] == st.objs[c];
  }

  /** The parts of the round: the sftp is taken, its children go, it is dropped. */
  ghost predicate RoundParts(st: State, st1: State, mid: State, st2: State, st': State, x: Ptr, s: Ptr) {
    && Sets(st) && s in st.objs && st.objs[s].kind == Sftp && st.objs[s].holder == -1 && st.objs[s].refs > 0
    && st1.sessions == st.sessions && |st1.threads| == |st.threads|
    && s in st1.objs && st1.objs == st.objs[s := st1.objs[s]]
         && st1.objs[s] == st.objs[s].(holder := st1.objs[s].holder)
    && (forall a, b {:trigger Members(st1, a, b)} ::
          Members(st1, a, b) == if a == x && b == Sftp then Members(st, a, b) - {s} else Members(st, a, b))
    && Drained(st1, mid, s, Dir, Members(st1, s, Dir)) && Drained(mid, st2, s, File, Members(mid, s, File))
    && st'.sessions == st2.sessions && st'.sets == st2.sets && |st'.threads| == |st2.threads|
    && s in st2.objs && st2.objs[s].refs > 0
    && st'.objs == st2.objs[s := st2.objs[s].(ptr := NULL, holder := -1, refs := st2.objs[s].refs - 1)]
  }

  /** One open sftp, from the pop to the drop. */
  lemma OpenSftpParts(st: State, i: nat, root: Root, v: SftpOrder<Ptr, Ptr>)
    returns (st1: State, mid: State, st2: State, st': State)
    requires At(st, i, root, AtSftps) && !root.Shut? && v.s in Members(st, root.x, Sftp) && v.s in st.objs
    requires st.objs[v.s].ptr != NULL
    requires Follows(v, ViewOf(st, v.s))
    ensures At(st', i, root, AtSftps) && Reaches(st, st', i) && RoundParts(st, st1, mid, st2, st', root.x, v.s)
    ensures st'.log == st.log + CallsOf(v.ds, CallMap(st, v.s, Dir)) + CallsOf(v.fs, CallMap(st, v.s, File))
      + [Shutdown(v.s)]
  {
    var s := v.s;
    PopUnheld(st, i, root.x, Sftp, s);
    assert WrapperOk(st, s);
    st1 := SftpTaken(st, i, root, s);
    TakenCalls(st, st1, s, Dir);
    TakenCalls(st, st1, s, File);
    mid, st2 := ChildrenRound(st1, i, root, s, v.ds, v.fs);
    st' := SftpDropped(st2, i, root, s);
    ReachesTrans(st, st1, st2, i);
    ReachesTrans(st, st2, st', i);
  }

  lemma OpenSftpRound(st: State, i: nat, root: Root, v: SftpOrder<Ptr, Ptr>) returns (st': State)
    requires At(st, i, root, AtSftps) && !root.Shut? && v.s in Members(st, root.x, Sftp) && v.s in st.objs
    requires st.objs[v.s].ptr != NULL
    requires Follows(v, ViewOf(st, v.s))
    ensures At(st', i, root, AtSftps) && Reaches(st, st', i) && Shuts(st, st', root.x, {v.s})
    ensures st'.log == st.log + ShutdownCalls(v, ViewOf(st, v.s))
  {
    var st1, mid, st2;
    st1, mid, st2, st' := OpenSftpParts(st, i, root, v);
    RoundShuts(st, st1, mid, st2, st', root.x, v.s);
    assert WrapperOk(st, v.s);
    ShutdownParts(st.log, v, ViewOf(st, v.s));
  }

  lemma RoundObj(st: State, st1: State, mid: State, st2: State, st': State, x: Ptr, s: Ptr, c: Ptr)
    requires RoundParts(st, st1, mid, st2, st', x, s) && c in st.objs
    ensures c in st'.objs && st'.objs[c] == Outcome(st, {s}, c)
  {
    assert Members(st1, s, Dir) == Members(st, s, Dir);
    assert Members(mid, s, File) == Members(st1, s, File) == Members(st, s, File);
    assert mid.objs[c] == if c in Members(st, s, Dir) then Popped(st1.objs[c]) else st1.objs[c];
    assert st2.objs[c] == if c in Members(st, s, File) then Popped(mid.objs[c]) else mid.objs[c];
  }

  lemma RoundShuts(st: State, st1: State, mid: State, st2: State, st': State, x: Ptr, s: Ptr)
    requires RoundParts(st, st1, mid, st2, st', x, s)
    ensures Shuts(st, st', x, {s})
  {
    forall c {:trigger st'.objs[c]} | c in st.objs ensures st'.objs[c] == Outcome(st, {s}, c) {
      RoundObj(st, st1, mid, st2, st', x, s, c);
    }
    forall a, b {:trigger Members(st', a, b)} | !(IsFile(b) && a == s)
      ensures Members(st', a, b) == if a == x && b == Sftp then Members(st, a, b) - {s} else Members(st, a, b)
    {
      assert Members(st', a, b) == Members(st2, a, b) == Members(mid, a, b) == Members(st1, a, b);
    }
  }

  /** A closed sftp has no children left. */
  lemma ClosedSftpShuts(st: State, st': State, x: Ptr, s: Ptr)
    requires TreeOk(st) && s in st.objs && st.objs[s].kind == Sftp && st.objs[s].ptr == NULL
    requires Turn(st, st', x, s, NULL, [])
    ensures Shuts(st, st', x, {s})
  {
    assert WrapperOk(st, s);
    forall c {:trigger st'.objs[c]} | c in st.objs ensures st'.objs[c] == Outcome(st, {s}, c) {
      assert Tracked(st, c) ==> c in Members(st, st.objs[c].owner, st.objs[c].kind);
    }
    forall a, b {:trigger Members(st', a, b)} | !(IsFile(b) && a == s)
      ensures Members(st', a, b) == if a == x && b == Sftp then Members(st, a, b) - {s} else Members(st, a, b)
    {
    }
  }

  lemma SftpRound(st: State, i: nat, root: Root, v: SftpOrder<Ptr, Ptr>) returns (st': State)
    requires At(st, i, root, AtSftps) && !root.Shut? && v.s in Members(st, root.x, Sftp) && v.s in st.objs
    requires Follows(v, ViewOf(st, v.s))
    ensures At(st', i, root, AtSftps) && Reaches(st, st', i) && Shuts(st, st', root.x, {v.s})
    ensures st'.log == st.log + ShutdownCalls(v, ViewOf(st, v.s))
  {
    if st.objs[v.s].ptr != NULL {
      st' := OpenSftpRound(st, i, root, v);
    } else {
      st' := ClosedSftpTurn(st, i, root, v.s);
      ClosedSftpShuts(st, st', root.x, v.s);
    }
  }

  // A whole close

  function Heads(order: seq<SftpOrder<Ptr, Ptr>>): set<Ptr> {
    set v | v in order :: v.s
  }

  lemma HeadsInit(order: seq<SftpOrder<Ptr, Ptr>>)
    requires order != [] && forall a, b :: 0 <= a < b < |order| ==> order[a].s != order[b].s
    ensures var init, v := order[..|order| - 1], order[|order| - 1];
      Heads(order) == Heads(init) + {v.s} && v.s !in Heads(init)
  {
    var init, v := order[..|order| - 1], order[|order| - 1];
    assert order == init + [v];
    assert forall w :: w in order <==> w in init || w == v;
  }

  /** An sftp is not affected by the shutdown of others. */
  lemma ViewStays(st: State, st1: State, x: Ptr, done: set<Ptr>, s: Ptr)
    requires Sets(st) && Shuts(st, st1, x, done) && done <= Members(st, x, Sftp) && s in Members(st, x, Sftp)
    requires s !in done
    ensures s in st.objs && s in Members(st1, x, Sftp) && s in st1.objs && ViewOf(st1, s) == ViewOf(st, s)
  {
    assert s in st.objs && st.objs[s].kind == Sftp && st1.objs[s] == st.objs[s];
    CallsStay(st, st1, x, done, s, Dir);
    CallsStay(st, st1, x, done, s, File);
  }

  /** Nor are channels and listeners. */
  lemma CallsStay(st: State, st1: State, x: Ptr, done: set<Ptr>, o: Ptr, k: Kind)
    requires Sets(st) && Shuts(st, st1, x, done) && k != Sftp && o !in done && done <= Members(st, x, Sftp)
    ensures CallMap(st1, o, k) == CallMap(st, o, k)
  {
    assert Members(st1, o, k) == Members(st, o, k);
    forall c | c in Members(st, o, k) ensures c in st.objs && st1.objs[c] == st.objs[c] {
      assert c in done ==> c in Members(st, x, Sftp);
    }
  }

  lemma ShutsTrans(st: State, st1: State, st': State, x: Ptr, done: set<Ptr>, s: Ptr)
    requires Sets(st) && Shuts(st, st1, x, done) && Shuts(st1, st', x, {s}) && done <= Members(st, x, Sftp)
    requires s in Members(st, x, Sftp) && s !in done
    ensures Shuts(st, st', x, done + {s})
  {
    forall c {:trigger st'.objs[c]} | c in st.objs ensures st'.objs[c] == Outcome(st, done + {s}, c) {
      OutcomeTrans(st, st1, x, done, s, c);
    }
    forall a, b {:trigger Members(st', a, b)} | !(IsFile(b) && a in done + {s})
      ensures Members(st', a, b) == if a == x && b == Sftp then Members(st, a, b) - (done + {s}) else Members(st, a, b)
    {
      assert Members(st1, a, b) == if a == x && b == Sftp then Members(st, a, b) - done else Members(st, a, b);
    }
  }

  lemma OutcomeTrans(st: State, st1: State, x: Ptr, done: set<Ptr>, s: Ptr, c: Ptr)
    requires Sets(st) && Shuts(st, st1, x, done) && done <= Members(st, x, Sftp)
    requires s in Members(st, x, Sftp) && s !in done && c in st.objs
    ensures c in st1.objs && Outcome(st1, {s}, c) == Outcome(st, done + {s}, c)
  {
    assert st1.objs[c] == Outcome(st, done, c);
    assert Members(st1, s, Dir) == Members(st, s, Dir) && Members(st1, s, File) == Members(st, s, File);
    assert c in done ==> st.objs[c].kind == Sftp;
    assert s in st.objs && st.objs[s].kind == Sftp;
  }

  /** The loop over the sftps, as far as `order`. */
  lemma {:induction false} SftpsMany(st: State, i: nat, root: Root, order: seq<SftpOrder<Ptr, Ptr>>)
    returns (st': State)
    requires At(st, i, root, AtSftps) && !root.Shut?
    requires forall v :: v in order ==> v.s in Views(st, root.x) && Follows(v, Views(st, root.x)[v.s])
    requires forall a, b :: 0 <= a < b < |order| ==> order[a].s != order[b].s
    ensures At(st', i, root, AtSftps) && Reaches(st, st', i) && Shuts(st, st', root.x, Heads(order))
    ensures Heads(order) <= Members(st, root.x, Sftp) && st'.log == st.log + SftpsCalls(order, Views(st, root.x))
    decreases |order|
  {
    if order == [] {
      st' := st;
      ReachesSelf(st, i);
    } else {
      var init, v := order[..|order| - 1], order[|order| - 1];
      HeadsInit(order);
      assert v in order;
      var st1 := SftpsMany(st, i, root, init);
      ViewStays(st, st1, root.x, Heads(init), v.s);
      st' := SftpRound(st1, i, root, v);
      ReachesTrans(st, st1, st', i);
      ShutsTrans(st, st1, st', root.x, Heads(init), v.s);
      SftpsLog(st.log, order, Views(st, root.x));
    }
  }

  lemma SftpsLog(log: Log, order: seq<SftpOrder<Ptr, Ptr>>, v: map<Ptr, SftpView<Ptr>>)
    requires order != [] && order[|order| - 1].s in v
    ensures var init, o := order[..|order| - 1], order[|order| - 1];
      log + SftpsCalls(init, v) + ShutdownCalls(o, v[o.s]) == log + SftpsCalls(order, v)
  {
  }

  /** All sftps: */
  lemma AllSftps(st: State, i: nat, root: Root, order: seq<SftpOrder<Ptr, Ptr>>) returns (st': State)
    requires At(st, i, root, AtSftps) && !root.Shut? && Plays(order, Views(st, root.x), {})
    ensures At(st', i, root, AtSftps) && Reaches(st, st', i) && Members(st', root.x, Sftp) == {}
    ensures st'.log == st.log + SftpsCalls(order, Views(st, root.x))
    ensures Shuts(st, st', root.x, Members(st, root.x, Sftp))
  {
    st' := SftpsMany(st, i, root, order);
    HeadsAll(st, root.x, order);
  }

  /** and on to the channels. */
  lemma SftpsRound(st: State, i: nat, root: Root, order: seq<SftpOrder<Ptr, Ptr>>) returns (st': State)
    requires At(st, i, root, AtSftps) && !root.Shut? && Plays(order, Views(st, root.x), {})
    ensures At(st', i, root, AtChannels) && Reaches(st, st', i)
    ensures st'.log == st.log + SftpsCalls(order, Views(st, root.x))
    ensures Shuts(st, st', root.x, Members(st, root.x, Sftp))
  {
    var mid := AllSftps(st, i, root, order);
    st' := LoopDone(mid, i, root, AtSftps);
    ReachesTrans(st, mid, st', i);
    ShutsLater(st, mid, st', root.x, Members(st, root.x, Sftp));
  }

  lemma ShutsLater(st: State, mid: State, st': State, x: Ptr, done: set<Ptr>)
    requires Shuts(st, mid, x, done) && st' == mid.(threads := st'.threads, log := st'.log)
    requires |st'.threads| == |mid.threads|
    ensures Shuts(st, st', x, done)
  {
    forall a, b {:trigger Members(st', a, b)} | !(IsFile(b) && a in done)
      ensures Members(st', a, b) == if a == x && b == Sftp then Members(st, a, b) - done else Members(st, a, b)
    {
      assert Members(st', a, b) == Members(mid, a, b);
    }
  }

  lemma HeadsAll(st: State, x: Ptr, order: seq<SftpOrder<Ptr, Ptr>>)
    requires Sets(st) && Plays(order, Views(st, x), {})
    ensures Heads(order) == Members(st, x, Sftp)
  {
    forall s | s in Members(st, x, Sftp) ensures s in Heads(order) {
      assert s in Views(st, x).Keys;
      var j :| 0 <= j < |order| && order[j].s == s;
      assert order[j] in order;
    }
  }

  /** What becomes of the wrapper `c` when session `x` is closed. */
  function CloseOutcome(st: State, x: Ptr, c: Ptr): Wrapper
    requires c in st.objs
  {
    if c in Members(st, x, Chan) || c in Members(st, x, Listen) then Popped(st.objs[c])
    else Outcome(st, Members(st, x, Sftp), c)
  }

  ghost predicate ClosesAll(st: State, st': State, x: Ptr) {
    && st'.objs.Keys == st.objs.Keys
    && (forall c {:trigger st'.objs[c]} :: c in st.objs ==> st'.objs[c] == CloseOutcome(st, x, c))
    && NoMembers(st', x)
  }

  /** The two loops over channels and listeners, and the goodbye. */
  lemma OthersRound(st: State, i: nat, root: Root, co: seq<Ptr>, lo: seq<Ptr>) returns (mid: State, st': State)
    requires At(st, i, root, AtChannels) && !root.Shut?
    requires Lists(co, CallMap(st, root.x, Chan).Keys) && Lists(lo, CallMap(st, root.x, Listen).Keys)
    ensures At(st', i, root, InDisconnect) && Reaches(st, st', i) && root.x in st.sessions
    ensures st'.log ==
      st.log + CallsOf(co, CallMap(st, root.x, Chan)) + CallsOf(lo, CallMap(st, root.x, Listen))
          + [Disconnect(st.sessions[root.x].ptr)]
    ensures Drained(st, mid, root.x, Chan, Members(st, root.x, Chan))
    ensures Drained(mid, st', root.x, Listen, Members(mid, root.x, Listen))
  {
    mid := LoopRound(st, i, root, AtChannels, root.x, Chan, co);
    DrainedCalls(st, mid, root.x, Chan, Members(st, root.x, Chan), root.x, Listen);
    st' := LoopRound(mid, i, root, AtListeners, root.x, Listen, lo);
    ReachesTrans(st, mid, st', i);
  }

  lemma CloseObj(st: State, st1: State, mid: State, st': State, x: Ptr, c: Ptr)
    requires Sets(st) && Shuts(st, st1, x, Members(st, x, Sftp)) && x !in Members(st, x, Sftp) && c in st.objs
    requires Drained(st1, mid, x, Chan, Members(st1, x, Chan)) && Drained(mid, st', x, Listen, Members(mid, x, Listen))
    ensures c in st'.objs && st'.objs[c] == CloseOutcome(st, x, c)
  {
    assert Members(st1, x, Chan) == Members(st, x, Chan);
    assert Members(mid, x, Listen) == Members(st1, x, Listen) == Members(st, x, Listen);
    assert st1.objs[c] == Outcome(st, Members(st, x, Sftp), c);
    assert mid.objs[c] == if c in Members(st, x, Chan) then Popped(st1.objs[c]) else st1.objs[c];
    assert st'.objs[c] == if c in Members(st, x, Listen) then Popped(mid.objs[c]) else mid.objs[c];
  }

  lemma CloseSets(st: State, st1: State, mid: State, st': State, x: Ptr)
    requires Sets(st) && Shuts(st, st1, x, Members(st, x, Sftp)) && x !in Members(st, x, Sftp)
    requires Drained(st1, mid, x, Chan, Members(st1, x, Chan)) && Drained(mid, st', x, Listen, Members(mid, x, Listen))
    ensures ClosesAll(st, st', x)
  {
    forall c {:trigger st'.objs[c]} | c in st.objs ensures st'.objs[c] == CloseOutcome(st, x, c) {
      CloseObj(st, st1, mid, st', x, c);
    }
    assert Members(st', x, Sftp) == Members(mid, x, Sftp) == Members(st1, x, Sftp) == {};
    assert Members(st', x, Chan) == Members(mid, x, Chan) == {} && Members(st', x, Listen) == {};
  }

  ghost function SessionViewOf(st: State, x: Ptr): SessionView<Ptr, Ptr, Ptr, Ptr>
    requires x in st.sessions
  {
    SessionView(st.sessions[x].ptr, Views(st, x), CallMap(st, x, Chan), CallMap(st, x, Listen))
  }

  lemma SameViews(st: State, st1: State, i: nat, x: Ptr)
    requires Inv(st) && i < |st.threads| && !st.threads[i].root.Shut? && st.threads[i].root.x == x
    requires st.threads[i].pc != Done
    requires Shuts(st, st1, x, Members(st, x, Sftp))
    ensures x !in Members(st, x, Sftp) && x in st.sessions
    ensures CallMap(st1, x, Chan) == CallMap(st, x, Chan) && CallMap(st1, x, Listen) == CallMap(st, x, Listen)
  {
    assert ThreadOk(st, i) && SessionOk(st, x);
    CallsStay(st, st1, x, Members(st, x, Sftp), x, Chan);
    CallsStay(st, st1, x, Members(st, x, Sftp), x, Listen);
  }

  /** The loops of a close and the goodbye: the calls, and what has become of all
      wrappers. */
  lemma LoopsRun(st: State, i: nat, root: Root, o: CloseOrder<Ptr, Ptr, Ptr, Ptr>) returns (st': State)
    requires At(st, i, root, AtSftps) && !root.Shut? && root.x in st.sessions && PopsAll(o, SessionViewOf(st, root.x))
    ensures At(st', i, root, InDisconnect) && Reaches(st, st', i) && st'.sessions == st.sessions
    ensures st'.log == st.log + LoopTrace(o, SessionViewOf(st, root.x)) && ClosesAll(st, st', root.x)
  {
    var st1 := SftpsRound(st, i, root, o.sftps);
    SameViews(st, st1, i, root.x);
    var mid;
    mid, st' := OthersRound(st1, i, root, o.channels, o.listeners);
    ReachesTrans(st, st1, st', i);
    CloseSets(st, st1, mid, st', root.x);
    LoopTraceParts(st.log, o, SessionViewOf(st, root.x));
  }

  /** After a close that popped the sets in the order `o`, all alone. */
  ghost predicate ClosedBy(st: State, st': State, x: Ptr, o: CloseOrder<Ptr, Ptr, Ptr, Ptr>)
    requires x in st.sessions
  {
    && st'.log == st.log + CloseTrace(o, SessionViewOf(st, x)) && SafeLog(st'.log) && ClosesAll(st, st', x)
    && x in st'.sessions && !st'.sessions[x].up && st'.sessions[x].ptr == st.sessions[x].ptr
  }

  /** Nothing moves but the log and the session once the goodbye has been said. */
  lemma ClosesAllLater(st: State, mid: State, st': State, x: Ptr)
    requires ClosesAll(st, mid, x) && st'.objs == mid.objs && st'.sets == mid.sets
    ensures ClosesAll(st, st', x)
  {
    assert forall k :: Members(st', x, k) == Members(mid, x, k);
  }

  lemma Associated(log: Log, o: CloseOrder<Ptr, Ptr, Ptr, Ptr>, v: SessionView<Ptr, Ptr, Ptr, Ptr>)
    ensures log + LoopTrace(o, v) + [Back(v.ptr)] == log + CloseTrace(o, v)
  {
  }

  /** A session that is being closed still has its handle. */
  lemma HasHandle(st: State, i: nat, root: Root)
    requires At(st, i, root, AtSftps) && !root.Shut?
    ensures root.x in st.sessions && st.sessions[root.x].ptr == root.x
  {
    assert ThreadOk(st, i) && SessionOk(st, root.x);
    if root.Close? { ClosersPositive(st.threads, i, root.x); }
  }

  lemma CloseRuns(st: State, i: nat, x: Ptr, o: CloseOrder<Ptr, Ptr, Ptr, Ptr>) returns (st': State)
    requires At(st, i, Close(x), AtSftps) && x in st.sessions && PopsAll(o, SessionViewOf(st, x))
    ensures Reaches(st, st', i) && ClosedBy(st, st', x, o)
  {
    HasHandle(st, i, Close(x));
    var mid := LoopsRun(st, i, Close(x), o);
    st' := CloseDone(mid, i, x);
    ReachesTrans(st, mid, st', i);
    ClosesAllLater(st, mid, st', x);
    Associated(st.log, o, SessionViewOf(st, x));
  }

  /** For every such order there is a run in which one thread takes every step. */
  lemma CloseIsARun(st: State, i: nat, x: Ptr, o: CloseOrder<Ptr, Ptr, Ptr, Ptr>)
    requires At(st, i, Close(x), AtSftps) && x in st.sessions && PopsAll(o, SessionViewOf(st, x))
    ensures exists acts :: OnlyThread(acts, i) && IsRun(st, acts) && ClosedBy(st, After(st, acts), x, o)
  {
    var st' := CloseRuns(st, i, x, o);
    var acts :| OnlyThread(acts, i) && IsRun(st, acts) && After(st, acts) == st';
  }

  /** After the deallocation of a session that was up. */
  ghost predicate FreedBy(st: State, st': State, x: Ptr, o: CloseOrder<Ptr, Ptr, Ptr, Ptr>)
    requires x in st.sessions
  {
    && st'.log == st.log + CloseTrace(o, SessionViewOf(st, x)) + [SessionFree(st.sessions[x].ptr)] && SafeLog(st'.log)
    && ClosesAll(st, st', x) && x in st'.sessions && !st'.sessions[x].up && st'.sessions[x].ptr == NULL
  }

  lemma DeallocRuns(st: State, i: nat, x: Ptr, o: CloseOrder<Ptr, Ptr, Ptr, Ptr>) returns (st': State)
    requires At(st, i, Dealloc(x), AtSftps) && x in st.sessions && PopsAll(o, SessionViewOf(st, x))
    ensures Reaches(st, st', i) && FreedBy(st, st', x, o)
  {
    HasHandle(st, i, Dealloc(x));
    var mid := LoopsRun(st, i, Dealloc(x), o);
    st' := FreeDone(mid, i, x);
    ReachesTrans(st, mid, st', i);
    ClosesAllLater(st, mid, st', x);
    Associated(st.log, o, SessionViewOf(st, x));
  }

  lemma DeallocIsARun(st: State, i: nat, x: Ptr, o: CloseOrder<Ptr, Ptr, Ptr, Ptr>)
    requires At(st, i, Dealloc(x), AtSftps) && x in st.sessions && PopsAll(o, SessionViewOf(st, x))
    ensures exists acts :: OnlyThread(acts, i) && IsRun(st, acts) && FreedBy(st, After(st, acts), x, o)
  {
    var st' := DeallocRuns(st, i, x, o);
    var acts :| OnlyThread(acts, i) && IsRun(st, acts) && After(st, acts) == st';
  }
}
