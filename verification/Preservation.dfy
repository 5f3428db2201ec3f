/** Every action keeps the tree part of the invariant. */
module Preservation {
  import opened LibSsh2
  import opened Machine
  import opened Invariant

  /** Kinds and owners stay and no wrapper disappears. */
  ghost predicate SameShape(st: State, st': State) {
    && st.objs.Keys == st'.objs.Keys
    && (forall c {:trigger st'.objs[c]} :: c in st.objs ==>
         st'.objs[c].kind == st.objs[c].kind && st'.objs[c].owner == st.objs[c].owner)
  }

  lemma SetsShrink(st: State, st': State)
    requires Sets(st) && SameShape(st, st')
    requires forall o, k :: Members(st', o, k) <= Members(st, o, k)
    ensures Sets(st')
  {
    forall o, k, c {:trigger c in Members(st', o, k)} | c in Members(st', o, k)
      ensures c in st'.objs && st'.objs[c].kind == k && st'.objs[c].owner == o
    {
      assert c in Members(st, o, k);
    }
  }

  lemma ApartStays(st: State, st': State)
    requires Threads(st) && |st'.threads| == |st.threads|
    requires forall j :: 0 <= j < |st'.threads| && st'.threads[j].pc != Done ==>
      && st.threads[j].pc != Done && st'.threads[j].root == st.threads[j].root
      && RootSession(st', st'.threads[j].root) == RootSession(st, st.threads[j].root)
      && (Strays(st', st'.threads[j]) ==> Strays(st, st.threads[j]))
    ensures forall j, k {:trigger Apart(st', j, k)} :: 0 <= j < |st'.threads| && 0 <= k < |st'.threads| ==>
      Apart(st', j, k)
  {
    forall j, k {:trigger Apart(st', j, k)} | 0 <= j < |st'.threads| && 0 <= k < |st'.threads|
      ensures Apart(st', j, k)
    {
      assert Apart(st, j, k);
    }
  }

  // What a thread does not notice

  /** The object whose sets a thread relies on. */
  function Focus(t: Thread): Ptr {
    match t.pc
    case AtDirs(s) => s
    case AtFiles(s) => s
    case AtShut(s) => s
    case InHandle(s, _) => s
    case _ => if t.root.Shut? then t.root.c else t.root.x
  }

  /** The sets of `o` that were empty still are. */
  predicate StayEmpty(st: State, st': State, o: Ptr) {
    && (Members(st, o, Dir) == {} ==> Members(st', o, Dir) == {})
    && (Members(st, o, File) == {} ==> Members(st', o, File) == {})
    && (Members(st, o, Sftp) == {} ==> Members(st', o, Sftp) == {})
    && (Members(st, o, Chan) == {} ==> Members(st', o, Chan) == {})
    && (Members(st, o, Listen) == {} ==> Members(st', o, Listen) == {})
  }

  lemma FewerMembers(st: State, st': State, o: Ptr)
    requires forall k :: Members(st', o, k) <= Members(st, o, k)
    ensures StayEmpty(st, st', o)
  {
    assert Members(st', o, Dir) <= Members(st, o, Dir) && Members(st', o, File) <= Members(st, o, File);
    assert Members(st', o, Sftp) <= Members(st, o, Sftp) && Members(st', o, Chan) <= Members(st, o, Chan);
    assert Members(st', o, Listen) <= Members(st, o, Listen);
  }

  /** Thread `j` runs the same code, and what it has in its hands is as it was. */
  ghost predicate SameHands(st: State, st': State, j: nat) {
    && j < |st.threads| && j < |st'.threads| && st'.threads[j] == st.threads[j]
    && (forall d {:trigger st.objs[d]} :: d in st.objs && st.objs[d].holder == j ==>
          d in st'.objs && st'.objs[d].kind == st.objs[d].kind && st'.objs[d].owner == st.objs[d].owner
          && st'.objs[d].ptr == st.objs[d].ptr && st'.objs[d].holder == j)
  }

  lemma PcStays(st: State, st': State, j: nat)
    requires SameHands(st, st', j) && PcOk(st, j) && StayEmpty(st, st', Focus(st.threads[j]))
    requires forall x :: x in st.sessions ==> x in st'.sessions && (st'.sessions[x].up ==> st.sessions[x].up)
    ensures PcOk(st', j)
  {
  }

  lemma RootStays(st: State, st': State, j: nat)
    requires j < |st.threads| && j < |st'.threads| && st'.threads[j] == st.threads[j] && RootOk(st, j)
    requires forall x :: x in st.sessions ==> x in st'.sessions
    requires forall x :: x in st.sessions && st.sessions[x].refs == 0 ==> st'.sessions[x] == st.sessions[x]
    requires var r := st.threads[j].root; r.Shut? ==>
      && r.c in st'.objs && st'.objs[r.c].kind == st.objs[r.c].kind && st'.objs[r.c].owner == st.objs[r.c].owner
      && (r.via == NULL && Tracked(st, r.c) ==> Tracked(st', r.c))
    ensures RootOk(st', j)
  {
  }

  /** What an explicit close is about, it has in its hands until it is done with it. */
  lemma RootHeld(st: State, j: nat)
    requires j < |st.threads| && st.threads[j].pc !in {Done, AtReturn} && st.threads[j].root.Shut? && ThreadOk(st, j)
    ensures st.threads[j].root.c in st.objs && st.objs[st.threads[j].root.c].holder == j
  {
  }

  /** Thread `j` does not notice that an idle wrapper is taken up, that sets lose it, or
      that the program's session gains a reference. */
  lemma UnaffectedThread(st: State, st': State, c: Ptr, j: nat)
    requires TreeOk(st) && j < |st.threads| && j < |st'.threads| && st'.threads[j] == st.threads[j]
    requires c in st.objs && st.objs[c].holder == -1 && c in st'.objs && st'.objs == st.objs[c := st'.objs[c]]
    requires st'.objs[c].kind == st.objs[c].kind && st'.objs[c].owner == st.objs[c].owner
    requires var o := Focus(st.threads[j]); forall k :: Members(st', o, k) <= Members(st, o, k)
    requires forall d :: d in st.objs && d != c ==> (Tracked(st, d) ==> Tracked(st', d))
    requires st.sessions.Keys == st'.sessions.Keys
    requires forall x :: x in st.sessions && st.sessions[x].refs == 0 ==> st'.sessions[x] == st.sessions[x]
    requires forall x :: x in st.sessions ==> st'.sessions[x].up == st.sessions[x].up
    ensures ThreadOk(st', j)
  {
    assert ThreadOk(st, j);
    if st.threads[j].pc != Done {
      FewerMembers(st, st', Focus(st.threads[j]));
      PcStays(st, st', j);
      if st.threads[j].root.Shut? && st.threads[j].pc != AtReturn { RootHeld(st, j); }
      RootStays(st, st', j);
    }
  }

  // A thread pops a child and starts to close it

  ghost predicate TakeOk(st: State, i: nat, o: Ptr, c: Ptr, pc: Pc) {
    && TreeOk(st) && i < |st.threads| && st.threads[i].pc != Done && pc != Done
    && c in st.objs && c in Members(st, o, st.objs[c].kind) && st.objs[c].holder == -1
    && ThreadOk(Goto(Take(st, i, o, c), i, pc), i)
    && Holds(Thread(st.threads[i].root, pc), c)
    && (forall d :: Holds(st.threads[i], d) ==> Holds(Thread(st.threads[i].root, pc), d))
    && (st.threads[i].root.Shut? ==> st.threads[i].root.c != c)
  }

  lemma TakeWrappers(st: State, i: nat, o: Ptr, c: Ptr, pc: Pc)
    requires TakeOk(st, i, o, c, pc)
    ensures Wrappers(Goto(Take(st, i, o, c), i, pc))
  {
    var st' := Goto(Take(st, i, o, c), i, pc);
    assert WrapperOk(st, c);
    forall d {:trigger WrapperOk(st', d)} | d in st'.objs ensures WrapperOk(st', d) {
      assert WrapperOk(st, d);
    }
  }

  lemma TakeThread(st: State, i: nat, o: Ptr, c: Ptr, pc: Pc, j: nat)
    requires TakeOk(st, i, o, c, pc) && j < |st.threads| && j != i
    ensures ThreadOk(Goto(Take(st, i, o, c), i, pc), j)
  {
    UnaffectedThread(st, Goto(Take(st, i, o, c), i, pc), c, j);
  }

  lemma TakeThreads(st: State, i: nat, o: Ptr, c: Ptr, pc: Pc)
    requires TakeOk(st, i, o, c, pc)
    ensures Threads(Goto(Take(st, i, o, c), i, pc))
  {
    var st' := Goto(Take(st, i, o, c), i, pc);
    forall j {:trigger ThreadOk(st', j)} | 0 <= j < |st'.threads| ensures ThreadOk(st', j) {
      if j != i { TakeThread(st, i, o, c, pc, j); }
    }
    ApartStays(st, st');
  }

  lemma TakeTree(st: State, i: nat, o: Ptr, c: Ptr, pc: Pc)
    requires TakeOk(st, i, o, c, pc)
    ensures TreeOk(Goto(Take(st, i, o, c), i, pc))
  {
    var st' := Goto(Take(st, i, o, c), i, pc);
    TakeWrappers(st, i, o, c, pc);
    TakeThreads(st, i, o, c, pc);
    SetsShrink(st, st');
    forall x {:trigger SessionOk(st', x)} | x in st'.sessions ensures SessionOk(st', x) {
      assert SessionOk(st, x);
      ClosersUpdate(st.threads, i, st'.threads[i], x);
    }
  }

  // A thread has closed the child in its hands

  ghost predicate FinishOk(st: State, i: nat, c: Ptr, pc: Pc) {
    && TreeOk(st) && i < |st.threads| && st.threads[i].pc != Done && c in st.objs && st.objs[c].holder == i
    && (pc == Done ==> st.threads[i].root.Shut? && st.threads[i].root.via == NULL)
    && (forall d :: Holds(st.threads[i], d) && d != c ==> Holds(Thread(st.threads[i].root, pc), d))
    && !Holds(Thread(st.threads[i].root, pc), c)
    && ThreadOk(Finish(st, i, c, pc), i)
    && (st.objs[c].kind == Sftp ==>
         Members(st, c, Dir) == {} && Members(st, c, File) == {} && st.threads[i].pc == AtShut(c))
  }

  /** The destructor finds a NULL handle and does nothing. */
  lemma FinishShape(st: State, i: nat, c: Ptr, pc: Pc)
    requires c in st.objs && i < |st.threads| && st.objs[c].refs > 0
    ensures Finish(st, i, c, pc) ==
      Goto(With(st, c, st.objs[c].(ptr := NULL, holder := -1, refs := st.objs[c].refs - 1)), i, pc)
  {
  }

  lemma FinishOther(st: State, i: nat, c: Ptr, pc: Pc, d: Ptr)
    requires FinishOk(st, i, c, pc) && d in st.objs && d != c
    ensures WrapperOk(Finish(st, i, c, pc), d)
  {
    assert WrapperOk(st, c) && WrapperOk(st, d);
    FinishShape(st, i, c, pc);
    var st' := Finish(st, i, c, pc);
    assert st'.objs[d] == st.objs[d] && st'.sets == st.sets && st'.sessions == st.sessions;
    assert st.objs[d].holder == i ==> Holds(Thread(st.threads[i].root, pc), d);
  }

  lemma FinishWrappers(st: State, i: nat, c: Ptr, pc: Pc)
    requires FinishOk(st, i, c, pc)
    ensures Wrappers(Finish(st, i, c, pc))
  {
    var st' := Finish(st, i, c, pc);
    assert WrapperOk(st, c) && ThreadOk(st, i);
    FinishShape(st, i, c, pc);
    forall d {:trigger WrapperOk(st', d)} | d in st'.objs ensures WrapperOk(st', d) {
      if d != c { FinishOther(st, i, c, pc, d); }
    }
  }

  /** Thread `j` does not rely on the wrapper that thread `i` has in its hands. */
  lemma OtherThread(st: State, st': State, i: nat, c: Ptr, j: nat)
    requires j < |st.threads| && j < |st'.threads| && st'.threads[j] == st.threads[j] && ThreadOk(st, j) && j != i
    requires c in st.objs && st.objs[c].holder == i && c in st'.objs
    requires st'.sets == st.sets && st'.sessions == st.sessions && st'.objs == st.objs[c := st'.objs[c]]
    requires st'.objs[c].kind == st.objs[c].kind && st'.objs[c].owner == st.objs[c].owner
    ensures ThreadOk(st', j)
  {
  }

  lemma FinishThread(st: State, i: nat, c: Ptr, pc: Pc, j: nat)
    requires FinishOk(st, i, c, pc) && j < |st.threads| && j != i
    ensures ThreadOk(Finish(st, i, c, pc), j)
  {
    assert ThreadOk(st, j) && WrapperOk(st, c);
    FinishShape(st, i, c, pc);
    OtherThread(st, Finish(st, i, c, pc), i, c, j);
  }

  lemma FinishThreads(st: State, i: nat, c: Ptr, pc: Pc)
    requires FinishOk(st, i, c, pc)
    ensures Threads(Finish(st, i, c, pc))
  {
    var st' := Finish(st, i, c, pc);
    assert WrapperOk(st, c);
    FinishShape(st, i, c, pc);
    forall j {:trigger ThreadOk(st', j)} | 0 <= j < |st'.threads| ensures ThreadOk(st', j) {
      if j != i { FinishThread(st, i, c, pc, j); }
    }
    ApartStays(st, st');
  }

  lemma FinishTree(st: State, i: nat, c: Ptr, pc: Pc)
    requires FinishOk(st, i, c, pc)
    ensures TreeOk(Finish(st, i, c, pc))
  {
    var st' := Finish(st, i, c, pc);
    FinishWrappers(st, i, c, pc);
    FinishThreads(st, i, c, pc);
    SetsShrink(st, st');
    forall x {:trigger SessionOk(st', x)} | x in st'.sessions ensures SessionOk(st', x) {
      assert SessionOk(st, x);
      ClosersUpdate(st.threads, i, st'.threads[i], x);
    }
  }

  // A thread goes on to the next loop

  ghost predicate GotoOk(st: State, i: nat, pc: Pc) {
    && TreeOk(st) && i < |st.threads| && st.threads[i].pc != Done && pc != Done
    && (forall d :: Holds(st.threads[i], d) ==> Holds(Thread(st.threads[i].root, pc), d))
    && ThreadOk(Goto(st, i, pc), i)
  }

  lemma SameThread(st: State, st': State, j: nat)
    requires j < |st.threads| && j < |st'.threads| && st'.threads[j] == st.threads[j] && ThreadOk(st, j)
    requires st'.objs == st.objs && st'.sets == st.sets && st'.sessions == st.sessions
    ensures ThreadOk(st', j)
  {
    assert StayEmpty(st, st', Focus(st.threads[j]));
    if st.threads[j].pc != Done {
      PcStays(st, st', j);
      RootStays(st, st', j);
    }
  }

  lemma GotoThread(st: State, i: nat, pc: Pc, j: nat)
    requires GotoOk(st, i, pc) && j < |st.threads| && j != i
    ensures ThreadOk(Goto(st, i, pc), j)
  {
    assert ThreadOk(st, j);
    SameThread(st, Goto(st, i, pc), j);
  }

  lemma GotoThreads(st: State, i: nat, pc: Pc)
    requires GotoOk(st, i, pc)
    ensures Threads(Goto(st, i, pc))
  {
    var st' := Goto(st, i, pc);
    forall j {:trigger ThreadOk(st', j)} | 0 <= j < |st'.threads| ensures ThreadOk(st', j) {
      if j != i { GotoThread(st, i, pc, j); }
    }
    ApartStays(st, st');
  }

  lemma GotoTree(st: State, i: nat, pc: Pc)
    requires GotoOk(st, i, pc)
    ensures TreeOk(Goto(st, i, pc))
  {
    var st' := Goto(st, i, pc);
    GotoThreads(st, i, pc);
    SetsShrink(st, st');
    forall d {:trigger WrapperOk(st', d)} | d in st'.objs ensures WrapperOk(st', d) {
      assert WrapperOk(st, d);
    }
    forall x {:trigger SessionOk(st', x)} | x in st'.sessions ensures SessionOk(st', x) {
      assert SessionOk(st, x);
      ClosersUpdate(st.threads, i, st'.threads[i], x);
    }
  }

  // One wrapper loses or gains references, leaves its set, is closed: no thread is concerned

  ghost predicate TweakOk(st: State, st': State, c: Ptr) {
    && TreeOk(st) && c in st.objs && c in st'.objs
    && st'.sessions == st.sessions && st'.threads == st.threads && st'.issued == st.issued
    && st'.objs == st.objs[c := st'.objs[c]]
    && (var w, w' := st.objs[c], st'.objs[c];
        && w'.kind == w.kind && w'.owner == w.owner && w'.extra == w.extra && w'.holder == w.holder
        && (w'.ptr == w.ptr || (w'.ptr == NULL && w.kind != Sftp && w.holder == -1)))
    && (forall o, k :: Members(st', o, k) <= Members(st, o, k) <= Members(st', o, k) + {c})
    && (Tracked(st, c) && !Tracked(st', c) ==> st.objs[c].holder == -1)
    && (st'.objs[c].ptr != NULL && st.objs[c].kind != Listen ==> Tracked(st', c) || st.objs[c].holder >= 0)
    && CountOk(st', c)
  }

  lemma TweakWrapper(st: State, st': State, c: Ptr, d: Ptr)
    requires TweakOk(st, st', c) && d in st.objs
    ensures WrapperOk(st', d)
  {
    assert WrapperOk(st, d);
    assert Members(st', d, Dir) <= Members(st, d, Dir) && Members(st', d, File) <= Members(st, d, File);
    var o, k := st.objs[d].owner, st.objs[d].kind;
    assert Members(st', o, k) <= Members(st, o, k) <= Members(st', o, k) + {c};
  }

  lemma TweakWrappers(st: State, st': State, c: Ptr)
    requires TweakOk(st, st', c)
    ensures Wrappers(st')
  {
    forall d {:trigger WrapperOk(st', d)} | d in st'.objs ensures WrapperOk(st', d) {
      TweakWrapper(st, st', c, d);
    }
  }

  lemma TweakThread(st: State, st': State, c: Ptr, j: nat)
    requires TweakOk(st, st', c) && j < |st.threads|
    ensures ThreadOk(st', j)
  {
    assert ThreadOk(st, j);
    if st.threads[j].pc != Done {
      FewerMembers(st, st', Focus(st.threads[j]));
      PcStays(st, st', j);
      RootStays(st, st', j);
    }
  }

  lemma TweakThreads(st: State, st': State, c: Ptr)
    requires TweakOk(st, st', c)
    ensures Threads(st')
  {
    forall j {:trigger ThreadOk(st', j)} | 0 <= j < |st'.threads| ensures ThreadOk(st', j) {
      TweakThread(st, st', c, j);
    }
    ApartStays(st, st');
  }

  lemma TweakTree(st: State, st': State, c: Ptr)
    requires TweakOk(st, st', c)
    ensures TreeOk(st')
  {
    TweakWrappers(st, st', c);
    TweakThreads(st, st', c);
    SetsShrink(st, st');
    forall x {:trigger SessionOk(st', x)} | x in st'.sessions ensures SessionOk(st', x) {
      assert SessionOk(st, x);
      assert Members(st', x, Sftp) <= Members(st, x, Sftp) && Members(st', x, Chan) <= Members(st, x, Chan)
          && Members(st', x, Listen) <= Members(st, x, Listen);
    }
  }

  /** A wrapper leaves one reference fewer behind and nobody needs its handle. */
  lemma DiscardTree(st: State, o: Ptr, c: Ptr)
    requires TreeOk(st) && c in st.objs && st.objs[c].holder == -1
    requires
      || st.objs[c].ptr == NULL || (st.objs[c].kind == Listen && !Cancels(st.objs[c]))
      || c !in Members(st, o, st.objs[c].kind)
    ensures TreeOk(Discard(st, o, c))
  {
    assert WrapperOk(st, c);
    if c in Members(st, o, st.objs[c].kind) {
      TweakTree(st, Discard(st, o, c), c);
    }
  }

  lemma ShareTree(st: State, c: Ptr)
    requires TreeOk(st) && c in st.objs
    ensures TreeOk(DoShare(st, c))
  {
    assert WrapperOk(st, c);
    TweakTree(st, DoShare(st, c), c);
  }

  lemma DropTree(st: State, c: Ptr)
    requires TreeOk(st) && c in st.objs && st.objs[c].user > 0 && !Cancels(st.objs[c])
    ensures TreeOk(DoDrop(st, c))
  {
    assert WrapperOk(st, c);
    TweakTree(st, DoDrop(st, c), c);
  }

  // A new child

  lemma FreshIsNew(st: State, p: Ptr)
    requires TreeOk(st) && p !in st.issued
    ensures p !in st.objs && p !in st.sessions
  {
    forall c | c in st.objs ensures c in st.issued { assert WrapperOk(st, c); }
    forall x | x in st.sessions ensures x in st.issued { assert SessionOk(st, x); }
  }

  /** Thread `t` neither ends session `x` nor has `o` in its hands. */
  predicate Elsewhere(t: Thread, o: Ptr, x: Ptr) {
    t.pc != Done ==> if t.root.Shut? then !Holds(t, o) else t.root.x != x
  }

  ghost predicate OutOfTheWay(st: State, o: Ptr, x: Ptr) {
    forall i {:trigger Elsewhere(st.threads[i], o, x)} :: 0 <= i < |st.threads| ==> Elsewhere(st.threads[i], o, x)
  }

  ghost predicate AddOk(st: State, o: Ptr, k: Kind, p: Ptr, extra: nat) {
    && TreeOk(st) && p != NULL && p !in st.issued
    && (IsChild(k) ==> o in st.sessions && st.sessions[o].up)
    && (IsFile(k) ==> o in st.objs && st.objs[o].kind == Sftp && st.objs[o].ptr != NULL)
    && k != Sess && (extra > 0 ==> k == Chan)
    && OutOfTheWay(st, o, if IsFile(k) then st.objs[o].owner else o)
  }

  function Added(st: State, o: Ptr, k: Kind, p: Ptr, extra: nat): State {
    With(Add(st.(issued := st.issued + {p}), o, k, p), p, Wrapper(k, o, p, 2 + extra, 1, extra, -1))
  }

  lemma AddWrappers(st: State, o: Ptr, k: Kind, p: Ptr, extra: nat)
    requires AddOk(st, o, k, p, extra)
    ensures Sets(Added(st, o, k, p, extra)) && Wrappers(Added(st, o, k, p, extra))
  {
    var st' := Added(st, o, k, p, extra);
    FreshIsNew(st, p);
    if IsFile(k) { assert WrapperOk(st, o); } else { assert SessionOk(st, o); }
    forall a, b, c {:trigger c in Members(st', a, b)} | c in Members(st', a, b)
      ensures c in st'.objs && st'.objs[c].kind == b && st'.objs[c].owner == a
    {
      assert c in Members(st, a, b) || c == p;
    }
    forall d {:trigger WrapperOk(st', d)} | d in st'.objs ensures WrapperOk(st', d) {
      assert forall b :: p !in Members(st, p, b);
      if d != p {
        assert WrapperOk(st, d);
      }
    }
  }

  /** What goes on below the new wrapper's owner is not what thread `j` relies on. */
  lemma FocusElsewhere(st: State, o: Ptr, x: Ptr, j: nat)
    requires j < |st.threads| && st.threads[j].pc !in {Done, AtReturn} && ThreadOk(st, j)
    requires Elsewhere(st.threads[j], o, x)
    requires if o in st.objs then st.objs[o].owner == x && o !in st.sessions else o == x
    ensures Focus(st.threads[j]) != o
  {
  }

  lemma AddElsewhere(st: State, o: Ptr, k: Kind, p: Ptr, extra: nat, q: Ptr)
    requires q != o
    ensures StayEmpty(st, Added(st, o, k, p, extra), q)
  {
  }

  lemma AddFocus(st: State, o: Ptr, k: Kind, p: Ptr, extra: nat, j: nat)
    requires AddOk(st, o, k, p, extra) && j < |st.threads| && st.threads[j].pc !in {Done, AtReturn} && ThreadOk(st, j)
    ensures StayEmpty(st, Added(st, o, k, p, extra), Focus(st.threads[j]))
  {
    var x := if IsFile(k) then st.objs[o].owner else o;
    assert Elsewhere(st.threads[j], o, x);
    if IsFile(k) { assert WrapperOk(st, o); } else { assert SessionOk(st, o); }
    FocusElsewhere(st, o, x, j);
    AddElsewhere(st, o, k, p, extra, Focus(st.threads[j]));
  }

  lemma AddThread(st: State, o: Ptr, k: Kind, p: Ptr, extra: nat, j: nat)
    requires AddOk(st, o, k, p, extra) && j < |st.threads| && st.threads[j].pc != Done
    ensures ThreadOk(Added(st, o, k, p, extra), j)
  {
    var st' := Added(st, o, k, p, extra);
    FreshIsNew(st, p);
    assert ThreadOk(st, j);
    RootStays(st, st', j);
    if st.threads[j].pc != AtReturn {
      AddFocus(st, o, k, p, extra, j);
      PcStays(st, st', j);
    }
  }

  lemma AddRoot(st: State, o: Ptr, k: Kind, p: Ptr, extra: nat, j: nat)
    requires AddOk(st, o, k, p, extra) && j < |st.threads| && st.threads[j].pc != Done
    ensures var st', t := Added(st, o, k, p, extra), st.threads[j];
      RootSession(st', t.root) == RootSession(st, t.root) && (Strays(st', t) ==> Strays(st, t))
  {
    FreshIsNew(st, p);
    assert ThreadOk(st, j);
    var r := st.threads[j].root;
    if r.Shut? {
      assert WrapperOk(st, r.c);
    }
  }

  lemma AddThreads(st: State, o: Ptr, k: Kind, p: Ptr, extra: nat)
    requires AddOk(st, o, k, p, extra)
    ensures Threads(Added(st, o, k, p, extra))
  {
    var st' := Added(st, o, k, p, extra);
    forall j {:trigger ThreadOk(st', j)} | 0 <= j < |st'.threads| ensures ThreadOk(st', j) {
      if st.threads[j].pc != Done { AddThread(st, o, k, p, extra, j); }
    }
    forall j | 0 <= j < |st'.threads| && st'.threads[j].pc != Done
      ensures RootSession(st', st'.threads[j].root) == RootSession(st, st.threads[j].root)
      ensures Strays(st', st'.threads[j]) ==> Strays(st, st.threads[j])
    {
      AddRoot(st, o, k, p, extra, j);
    }
    ApartStays(st, st');
  }

  lemma AddTree(st: State, o: Ptr, k: Kind, p: Ptr, extra: nat)
    requires AddOk(st, o, k, p, extra)
    ensures TreeOk(Added(st, o, k, p, extra))
  {
    var st' := Added(st, o, k, p, extra);
    AddWrappers(st, o, k, p, extra);
    AddThreads(st, o, k, p, extra);
    FreshIsNew(st, p);
    forall x {:trigger SessionOk(st', x)} | x in st'.sessions ensures SessionOk(st', x) {
      assert SessionOk(st, x);
    }
  }
}
