/** The invariant of the ownership tree. */
module Invariant {
  import opened LibSsh2
  import opened Machine

  /** The wrappers a thread has taken out of a set, or works on, at this point. */
  predicate Holds(t: Thread, c: Ptr) {
    match t.pc
    case AtDirs(s) => c == s
    case AtFiles(s) => c == s
    case AtShut(s) => c == s
    case InHandle(s, d) => c == s || c == d
    case InChannel(d) => c == d
    case InClose(d) => c == d
    case InCancel(l) => c == l
    case _ => false
  }

  /** The frame of thread `t` holds a reference to session `x`: it runs Session_close
      or closes a wrapper of `x`. */
  predicate Refers(t: Thread, x: Ptr) {
    t.pc != Done && (t.root == Close(x) || (t.root.Shut? && t.root.via == x))
  }

  function Closers(ts: seq<Thread>, x: Ptr): nat {
    if ts == [] then 0 else Closers(ts[..|ts| - 1], x) + B(Refers(ts[|ts| - 1], x))
  }

  function B(b: bool): nat { if b then 1 else 0 }

  /** The release call of `c` is already in the log. */
  predicate Released(st: State, c: Ptr)
    requires c in st.objs
  {
    var o := st.objs[c];
    o.ptr == NULL || ((IsFile(o.kind) || o.kind == Listen) && o.holder >= 0)
  }

  predicate OwnerOk(st: State, c: Ptr)
    requires c in st.objs
  {
    var o := st.objs[c];
    && o.kind != Sess
    && c != NULL && c in st.issued && c !in st.sessions
    && (IsChild(o.kind) ==> o.owner in st.sessions)
    && (IsFile(o.kind) ==> o.owner in st.objs && st.objs[o.owner].kind == Sftp)
  }

  predicate HandleOk(st: State, c: Ptr)
    requires c in st.objs
  {
    var o := st.objs[c];
    && (o.ptr == NULL || o.ptr == c)
    && (o.ptr != NULL && o.kind != Listen ==> Tracked(st, c) || o.holder >= 0)
    && (o.ptr != NULL && (o.kind == Chan || o.kind == Sftp) && o.owner in st.sessions ==>
         st.sessions[o.owner].ptr != NULL)
    && (o.ptr != NULL && IsFile(o.kind) && o.holder < 0 && o.owner in st.objs ==> st.objs[o.owner].ptr != NULL)
    && (o.kind == Sftp && o.ptr == NULL ==> Members(st, c, Dir) == {} && Members(st, c, File) == {})
  }

  predicate CountOk(st: State, c: Ptr)
    requires c in st.objs
  {
    var o := st.objs[c];
    && o.refs == o.user + o.extra + B(Tracked(st, c)) + B(o.holder >= 0)
    && (o.extra > 0 ==> o.kind == Chan)
    && (o.refs == 0 ==> o.ptr == NULL)
  }

  predicate HolderOk(st: State, c: Ptr)
    requires c in st.objs
  {
    var o := st.objs[c];
    && -1 <= o.holder < |st.threads|
    && (o.holder >= 0 ==> Holds(st.threads[o.holder], c))
    && (o.holder >= 0 && Tracked(st, c) ==>
          st.threads[o.holder].root.Shut? && st.threads[o.holder].root.c == c)
  }

  predicate WrapperOk(st: State, c: Ptr)
    requires c in st.objs
  {
    OwnerOk(st, c) && HandleOk(st, c) && CountOk(st, c) && HolderOk(st, c)
  }

  predicate NoMembers(st: State, x: Ptr) {
    Members(st, x, Sftp) == {} && Members(st, x, Chan) == {} && Members(st, x, Listen) == {}
  }

  predicate SessionOk(st: State, x: Ptr)
    requires x in st.sessions
  {
    var s := st.sessions[x];
    && x != NULL && x in st.issued && x !in st.objs
    && (s.ptr == NULL || s.ptr == x)
    && (s.refs > 0 || s.up ==> s.ptr != NULL)
    && s.refs == s.user + Closers(st.threads, x)
    && (!s.up ==> NoMembers(st, x))
    && (s.refs == 0 && s.ptr != NULL ==>
          0 <= s.holder < |st.threads| && st.threads[s.holder].root == Dealloc(x) && st.threads[s.holder].pc != Done)
  }

  /** `s` is an sftp that thread `i` has in its hands, for the reason its root says. */
  predicate Working(st: State, i: nat, s: Ptr)
    requires i < |st.threads|
  {
    && s in st.objs && st.objs[s].kind == Sftp && st.objs[s].ptr != NULL && st.objs[s].holder == i
    && (match st.threads[i].root
        case Close(x) => st.objs[s].owner == x
        case Dealloc(x) => st.objs[s].owner == x
        case Shut(s1, _) => s == s1)
  }

  predicate ShutPc(pc: Pc, s: Ptr) {
    match pc
    case AtDirs(s1) => s1 == s
    case AtFiles(s1) => s1 == s
    case AtShut(s1) => s1 == s
    case InHandle(s1, _) => s1 == s
    case InChannel(c) => c == s
    case InClose(d) => d == s
    case InCancel(l) => l == s
    case AtReturn => true
    case _ => false
  }

  /** An explicit close of a channel or sftp holds its session unless it left the
      wrapper tracked. */
  predicate FrameOk(st: State, pc: Pc, c: Ptr, via: Ptr)
    requires c in st.objs
  {
    && (via != NULL ==> via == st.objs[c].owner && via in st.sessions && IsChild(st.objs[c].kind))
    && (via == NULL ==> pc != AtReturn && (st.objs[c].kind in {Chan, Sftp} ==> Tracked(st, c)))
  }

  predicate RootOk(st: State, i: nat)
    requires i < |st.threads|
  {
    match st.threads[i].root
    case Close(x) => x in st.sessions
    case Dealloc(x) => x in st.sessions && st.sessions[x].refs == 0 && st.sessions[x].ptr != NULL
        && st.sessions[x].holder == i
    case Shut(c, via) => c in st.objs && ShutPc(st.threads[i].pc, c) && FrameOk(st, st.threads[i].pc, c, via)
  }

  predicate PcOk(st: State, i: nat)
    requires i < |st.threads|
  {
    var t := st.threads[i];
    match t.pc
    case AtSftps => !t.root.Shut?
    case AtDirs(s) => Working(st, i, s)
    case AtFiles(s) => Working(st, i, s) && Members(st, s, Dir) == {}
    case AtShut(s) => Working(st, i, s) && Members(st, s, Dir) == {} && Members(st, s, File) == {}
    case InHandle(s, d) =>
      && Working(st, i, s)
      && d in st.objs && IsFile(st.objs[d].kind) && st.objs[d].owner == s && st.objs[d].holder == i
      && (st.objs[d].kind == File ==> Members(st, s, Dir) == {})
    case AtChannels => !t.root.Shut? && Members(st, t.root.x, Sftp) == {}
    case InChannel(c) =>
      && c in st.objs && st.objs[c].kind == Chan && st.objs[c].ptr != NULL && st.objs[c].holder == i
      && (!t.root.Shut? ==> st.objs[c].owner == t.root.x && Members(st, t.root.x, Sftp) == {})
    case InClose(d) =>
      t.root.Shut? && d in st.objs && IsFile(st.objs[d].kind) && st.objs[d].ptr != NULL && st.objs[d].holder == i
    case InCancel(l) =>
      && l in st.objs && st.objs[l].kind == Listen && st.objs[l].ptr != NULL && st.objs[l].holder == i
      && (!t.root.Shut? ==>
            st.objs[l].owner == t.root.x && Members(st, t.root.x, Sftp) == {} && Members(st, t.root.x, Chan) == {})
    case AtReturn => t.root.Shut?
    case AtListeners => !t.root.Shut? && Members(st, t.root.x, Sftp) == {} && Members(st, t.root.x, Chan) == {}
    case InDisconnect => !t.root.Shut? && NoMembers(st, t.root.x)
    case AtFree => t.root.Dealloc? && t.root.x in st.sessions && !st.sessions[t.root.x].up
    case Done => true
  }

  predicate ThreadOk(st: State, i: nat)
    requires i < |st.threads|
  {
    st.threads[i].pc != Done ==> RootOk(st, i) && PcOk(st, i)
  }

  /** A close that left its wrapper tracked runs alone below that session. */
  predicate Apart(st: State, i: nat, j: nat)
    requires i < |st.threads| && j < |st.threads|
  {
    i != j && Strays(st, st.threads[i]) && st.threads[j].pc != Done
    ==> RootSession(st, st.threads[i].root) != RootSession(st, st.threads[j].root)
  }

  ghost predicate Wrappers(st: State) {
    forall c {:trigger WrapperOk(st, c)} :: c in st.objs ==> WrapperOk(st, c)
  }

  ghost predicate Sessions(st: State) {
    forall x {:trigger SessionOk(st, x)} :: x in st.sessions ==> SessionOk(st, x)
  }

  ghost predicate Threads(st: State) {
    && (forall i {:trigger ThreadOk(st, i)} :: 0 <= i < |st.threads| ==> ThreadOk(st, i))
    && (forall i, j {:trigger Apart(st, i, j)} :: 0 <= i < |st.threads| && 0 <= j < |st.threads| ==> Apart(st, i, j))
  }

  ghost predicate Sets(st: State) {
    forall o, k, c {:trigger c in Members(st, o, k)} ::
      c in Members(st, o, k) ==> c in st.objs && st.objs[c].kind == k && st.objs[c].owner == o
  }

  ghost predicate TreeOk(st: State) {
    Sets(st) && Wrappers(st) && Sessions(st) && Threads(st)
  }

  lemma ClosersAppend(ts: seq<Thread>, t: Thread, x: Ptr)
    ensures Closers(ts + [t], x) == Closers(ts, x) + B(Refers(t, x))
  {
    assert (ts + [t])[..|ts|] == ts;
  }

  lemma {:induction false} ClosersUpdate(ts: seq<Thread>, i: nat, t: Thread, x: Ptr)
    requires i < |ts|
    ensures Closers(ts[i := t], x) + B(Refers(ts[i], x)) == Closers(ts, x) + B(Refers(t, x))
  {
    var n := |ts| - 1;
    if i == n {
      assert ts[i := t][..n] == ts[..n];
    } else {
      assert ts[i := t][..n] == ts[..n][i := t];
      ClosersUpdate(ts[..n], i, t, x);
    }
  }

  lemma {:induction false} ClosersPositive(ts: seq<Thread>, i: nat, x: Ptr)
    requires i < |ts| && Refers(ts[i], x)
    ensures Closers(ts, x) > 0
  {
    if i < |ts| - 1 {
      ClosersPositive(ts[..|ts| - 1], i, x);
    }
  }
}
