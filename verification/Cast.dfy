/** What becomes of the set of wrappers: constructors add to it, nothing else does. */
module Cast {
  import opened LibSsh2
  import opened Machine
  import opened Invariant
  import opened Preservation
  import opened LogPreservation

  /** The wrapper whose references the program changes by `a`. */
  function WhoseUser(a: Action): Ptr {
    match a
    case Share(c) => c
    case Drop(c) => c
    case Method(c) => c
    case Return(c) => c
    case _ => NULL
  }

  /** No wrapper disappears, and none changes its kind, its owner or its leaked
      references, nor, except `who`, those of the program; a handle can only be nulled. */
  ghost predicate Keeps(st: State, st': State, who: Ptr) {
    && st.objs.Keys <= st'.objs.Keys
    && forall c {:trigger st'.objs[c]} :: c in st.objs ==>
      && st'.objs[c].kind == st.objs[c].kind && st'.objs[c].owner == st.objs[c].owner
      && st'.objs[c].extra == st.objs[c].extra && (c != who ==> st'.objs[c].user == st.objs[c].user)
      && (st'.objs[c].ptr == st.objs[c].ptr || st'.objs[c].ptr == NULL)
  }

  /** No wrapper is added either, and no method starts or comes back. */
  ghost predicate Stays(st: State, st': State, who: Ptr) {
    st'.objs.Keys == st.objs.Keys && st'.inside == st.inside && Keeps(st, st', who)
  }

  lemma DecRefStays(st: State, c: Ptr)
    requires c in st.objs
    ensures Stays(st, DecRef(st, c), NULL)
  {
  }

  lemma DiscardStays(st: State, o: Ptr, c: Ptr)
    requires c in st.objs
    ensures Stays(st, Discard(st, o, c), NULL)
  {
    DecRefStays(Remove(st, o, st.objs[c].kind, c), c);
  }

  lemma TakeStays(st: State, i: nat, o: Ptr, c: Ptr, calls: Log, pc: Pc)
    requires c in st.objs && i < |st.threads|
    ensures Stays(st, Goto(Logged(Take(st, i, o, c), calls), i, pc), NULL)
    ensures Stays(st, Goto(Take(st, i, o, c), i, pc), NULL)
  {
  }

  lemma FinishStays(st: State, i: nat, c: Ptr, pc: Pc)
    requires c in st.objs && i < |st.threads|
    ensures Stays(st, Finish(st, i, c, pc), NULL)
  {
    DecRefStays(Goto(With(st, c, st.objs[c].(ptr := NULL, holder := -1)), i, pc), c);
  }

  lemma PopStays(st: State, i: nat, pick: Ptr)
    requires CanRun(st, i, pick)
    requires var (loops, o, k) := Looping(st.threads[i]); loops && Members(st, o, k) != {}
    ensures Stays(st, RunThread(st, i, pick), NULL)
  {
    var (_, o, k) := Looping(st.threads[i]);
    var p := st.objs[pick].ptr;
    DiscardStays(st, o, pick);
    match k
    case Dir => TakeStays(st, i, o, pick, [CloseHandle(p)], InHandle(o, pick));
    case File => TakeStays(st, i, o, pick, [CloseHandle(p)], InHandle(o, pick));
    case Chan => TakeStays(st, i, o, pick, [ChannelClose(p)], InChannel(pick));
    case Sftp => TakeStays(st, i, o, pick, [], AtDirs(pick));
    case Listen => TakeStays(st, i, o, pick, [Cancel(p)], InCancel(pick));
    case _ =>
  }

  lemma MoveStays(st: State, i: nat, pick: Ptr)
    requires CanRun(st, i, pick)
    requires var (loops, o, k) := Looping(st.threads[i]); loops ==> Members(st, o, k) == {}
    ensures Stays(st, RunThread(st, i, pick), NULL)
  {
    var t := st.threads[i];
    match t.pc
    case InHandle(s, d) =>
      FinishStays(if st.objs[d].ptr == NULL then st else Logged(st, [Back(s)]), i, d,
                  if st.objs[d].kind == Dir then AtDirs(s) else AtFiles(s));
    case InClose(d) => FinishStays(Logged(st, [Back(st.objs[d].owner)]), i, d, Done);
    case InCancel(l) => FinishStays(Logged(st, [Back(st.objs[l].owner)]), i, l, Leaving(t.root, AtListeners));
    case AtShut(s) => FinishStays(Logged(st, [Shutdown(st.objs[s].ptr)]), i, s, Leaving(t.root, AtSftps));
    case InChannel(c) => FinishStays(Logged(st, [ChannelFree(st.objs[c].ptr)]), i, c, Leaving(t.root, AtChannels));
    case _ =>
  }

  lemma RunStays(st: State, i: nat, pick: Ptr)
    requires CanRun(st, i, pick)
    ensures Stays(st, RunThread(st, i, pick), NULL)
  {
    var (loops, o, k) := Looping(st.threads[i]);
    if loops && Members(st, o, k) != {} { PopStays(st, i, pick); } else { MoveStays(st, i, pick); }
  }

  /** `st'` has the wrappers of `st`, and possibly a new one. */
  ghost predicate Grows(st: State, st': State, p: Ptr, extra: nat) {
    && Keeps(st, st', NULL) && st'.inside == st.inside
    && forall c :: c in st'.objs && c !in st.objs ==> c == p && st'.objs[c].extra == extra
  }

  lemma OpenGrows(st: State, x: Ptr, k: Kind, recv: bool, p: Ptr, alloc: bool)
    requires Inv(st) && x in st.sessions && FreshOrNull(st, p)
    ensures Grows(st, DoOpen(st, x, k, recv, p, alloc), p, B(k == Chan && recv))
  {
    if p != NULL { FreshIsNew(st, p); }
  }

  lemma OpenHandleGrows(st: State, s: Ptr, k: Kind, p: Ptr, alloc: bool)
    requires Inv(st) && s in st.objs && FreshOrNull(st, p)
    ensures Grows(st, DoOpenHandle(st, s, k, p, alloc), p, 0)
  {
    if p != NULL { FreshIsNew(st, p); }
  }

  lemma CloseChannelStays(st: State, x: Ptr, c: Ptr)
    requires x in st.sessions && c in st.objs
    ensures Stays(st, DoCloseChannel(st, x, c), NULL)
  {
    DiscardStays(st, x, c);
  }

  lemma CloseFileStays(st: State, s: Ptr, d: Ptr)
    requires s in st.objs && d in st.objs
    ensures Stays(st, DoCloseFile(st, s, d), NULL)
  {
    DiscardStays(st, s, d);
  }

  lemma CancelStays(st: State, x: Ptr, l: Ptr)
    requires x in st.sessions && l in st.objs
    ensures Stays(st, DoCancel(st, x, l), NULL)
  {
    DiscardStays(st, x, l);
  }

  lemma ShutdownStays(st: State, x: Ptr, s: Ptr)
    requires x in st.sessions && s in st.objs
    ensures Stays(st, DoShutdownSftp(st, x, s), NULL)
  {
    DiscardStays(st, x, s);
  }

  lemma DropStays(st: State, c: Ptr)
    requires c in st.objs
    ensures Stays(st, DoDrop(st, c), c) && DoDrop(st, c).objs[c].user == Less(st.objs[c].user)
  {
    DecRefStays(With(st, c, st.objs[c].(user := Less(st.objs[c].user))), c);
  }

  predicate Calling(a: Action) {
    a.Method? || a.Return?
  }

  lemma ApiStays(st: State, a: Action)
    requires Enabled(st, a) && !a.Open? && !a.OpenHandle? && !a.Run? && !Calling(a)
    ensures Stays(st, Apply(st, a), WhoseUser(a))
  {
    match a
    case CloseChannel(x, c) => CloseChannelStays(st, x, c);
    case CloseFile(s, d) => CloseFileStays(st, s, d);
    case CancelListener(x, l) => CancelStays(st, x, l);
    case ShutdownSftp(x, s) => ShutdownStays(st, x, s);
    case Drop(c) => DropStays(st, c);
    case _ =>
  }

  lemma CallingKeeps(st: State, a: Action)
    requires Enabled(st, a) && Calling(a)
    ensures var st' := Apply(st, a);
      Keeps(st, st', a.c) && st'.objs.Keys == st.objs.Keys &&
      (if st' == st then a.Method?
       else if a.Method? then st'.inside == st.inside + multiset{a.c} && st'.objs[a.c].user == st.objs[a.c].user + 1
       else st'.inside == st.inside - multiset{a.c} && st'.objs[a.c].user == st.objs[a.c].user - 1)
  {
    if a.Return? { ReturnKeeps(st, a.c); }
  }

  lemma ReturnKeeps(st: State, c: Ptr)
    requires c in st.inside && c in st.objs && st.objs[c].user > 0
    ensures var st' := DoReturn(st, c);
      && Keeps(st, st', c) && st'.objs.Keys == st.objs.Keys && st' != st
      && st'.inside == st.inside - multiset{c} && st'.objs[c].user == st.objs[c].user - 1
  {
    var st1 := Logged(st, [Leave(c)]).(inside := st.inside - multiset{c});
    DropStays(st1, c);
    assert |st1.inside| < |st.inside|;
  }

  /** What a step does to the set of wrappers: a constructor adds one, nothing else does. */
  lemma StepKeeps(st: State, a: Action)
    requires Inv(st) && Enabled(st, a)
    ensures Keeps(st, Apply(st, a), WhoseUser(a))
    ensures !Calling(a) ==> Apply(st, a).inside == st.inside
    ensures forall c :: c in Apply(st, a).objs && c !in st.objs ==>
              (a.Open? || a.OpenHandle?) && a.p == c
                  && Apply(st, a).objs[c].extra == B(a.Open? && a.k == Chan && a.recv)
  {
    match a
    case Open(x, k, recv, p, alloc) => OpenGrows(st, x, k, recv, p, alloc);
    case OpenHandle(s, k, p, alloc) => OpenHandleGrows(st, s, k, p, alloc);
    case Run(i, pick) => RunStays(st, i, pick);
    case Method(c) => CallingKeeps(st, a);
    case Return(c) => CallingKeeps(st, a);
    case _ => ApiStays(st, a);
  }
}
