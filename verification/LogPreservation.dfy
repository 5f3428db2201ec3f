/** Every action keeps the log part of the invariant: each call is made on a
    handle that can still be used, and each release call is made once. */
module LogPreservation {
  import opened LibSsh2
  import opened Machine
  import opened Invariant
  import opened Preservation
  import opened SessionPreservation

  ghost predicate LogOk(st: State) {
    && SafeLog(st.log)
    && NULL !in st.issued
    && (forall c {:trigger CallKnown(st, c)} :: c in st.log ==> CallKnown(st, c))
    && (forall p {:trigger WrapperLogged(st, p)} :: p in st.objs ==> WrapperLogged(st, p))
    && (forall x {:trigger SessionLogged(st, x)} :: x in st.sessions ==> SessionLogged(st, x))
  }

  /** What a call in the log says about the state. */
  predicate CallKnown(st: State, c: Call) {
    match c
    case Opened(k, p, q, w) =>
      && p in st.issued
      && (w <==> p in st.objs || p in st.sessions)
      && (w && p in st.objs ==> st.objs[p].kind == k && st.objs[p].owner == q)
      && (w && p in st.sessions ==> k == Sess && q == NULL)
    case _ => c.p == NULL || c.p in st.objs || c.p in st.sessions
  }

  ghost predicate WrapperLogged(st: State, p: Ptr)
    requires p in st.objs
  {
    && Opened(st.objs[p].kind, p, st.objs[p].owner, true) in st.log
    && Times(st.log, ReleaseOf(st.objs[p].kind, p)) == B(Released(st, p))
  }

  ghost predicate SessionLogged(st: State, x: Ptr)
    requires x in st.sessions
  {
    Opened(Sess, x, NULL, true) in st.log && Times(st.log, SessionFree(x)) == B(st.sessions[x].ptr == NULL)
  }

  ghost predicate Inv(st: State) {
    TreeOk(st) && LogOk(st)
  }

  // Adding calls to the log

  ghost predicate SameCast(st: State, st': State) {
    && SameShape(st, st') && st'.sessions.Keys == st.sessions.Keys && st'.issued == st.issued
  }

  lemma LogSilent(st: State, st': State)
    requires LogOk(st) && SameCast(st, st') && st'.log == st.log
    requires forall p {:trigger Released(st', p)} :: p in st.objs ==> Released(st', p) == Released(st, p)
    requires forall x :: x in st.sessions ==> (st'.sessions[x].ptr == NULL <==> st.sessions[x].ptr == NULL)
    ensures LogOk(st')
  {
    forall c {:trigger CallKnown(st', c)} | c in st'.log ensures CallKnown(st', c) {
      assert CallKnown(st, c);
    }
    forall p {:trigger WrapperLogged(st', p)} | p in st'.objs ensures WrapperLogged(st', p) {
      assert WrapperLogged(st, p) && Released(st', p) == Released(st, p);
    }
    forall x {:trigger SessionLogged(st', x)} | x in st'.sessions ensures SessionLogged(st', x) {
      assert SessionLogged(st, x);
    }
  }

  lemma LogCall(st: State, st': State, c: Call)
    requires LogOk(st) && SameCast(st, st') && st'.log == st.log + [c]
    requires !c.Opened? && CallOk(st.log, c) && CallKnown(st, c)
    requires forall p {:trigger Released(st', p)} :: p in st.objs ==>
      B(Released(st', p)) == B(Released(st, p)) + B(c == ReleaseOf(st.objs[p].kind, p))
    requires forall x :: x in st.sessions ==>
      B(st'.sessions[x].ptr == NULL) == B(st.sessions[x].ptr == NULL) + B(c == SessionFree(x))
    ensures LogOk(st')
  {
    SafeLogAppend(st.log, c);
    forall d {:trigger CallKnown(st', d)} | d in st'.log ensures CallKnown(st', d) {
      assert CallKnown(st, d);
    }
    forall p {:trigger WrapperLogged(st', p)} | p in st'.objs ensures WrapperLogged(st', p) {
      assert WrapperLogged(st, p);
      assert B(Released(st', p)) == B(Released(st, p)) + B(c == ReleaseOf(st.objs[p].kind, p));
    }
    forall x {:trigger SessionLogged(st', x)} | x in st'.sessions ensures SessionLogged(st', x) {
      assert SessionLogged(st, x);
    }
  }

  /** A constructor returned `c.p`; `st'` has a wrapper or session for it exactly when
      `c.wrapped`. */
  ghost predicate Opens(st: State, st': State, c: Call) {
    && c.Opened? && c.p != NULL && c.p !in st.issued && c.p !in st.objs && c.p !in st.sessions
    && st'.log == st.log + [c] && st'.issued == st.issued + {c.p}
    && (c.wrapped && c.kind != Sess ==>
          && st'.sessions.Keys == st.sessions.Keys && st'.objs.Keys == st.objs.Keys + {c.p}
          && st'.objs[c.p].kind == c.kind && st'.objs[c.p].owner == c.parent && st'.objs[c.p].ptr == c.p
          && st'.objs[c.p].holder == -1)
    && (c.wrapped && c.kind == Sess ==>
          && st'.objs.Keys == st.objs.Keys && st'.sessions.Keys == st.sessions.Keys + {c.p}
          && st'.sessions[c.p].ptr == c.p && c.parent == NULL)
    && (!c.wrapped ==> st'.objs.Keys == st.objs.Keys && st'.sessions.Keys == st.sessions.Keys)
    && (forall p {:trigger st'.objs[p]} :: p in st.objs ==> st'.objs[p] == st.objs[p])
    && (forall x {:trigger st'.sessions[x]} :: x in st.sessions ==> st'.sessions[x] == st.sessions[x])
  }

  lemma OpensFresh(st: State, st': State, c: Call)
    requires LogOk(st) && Opens(st, st', c) && (c.kind == Sess || Usable(st.log, c.parent))
    ensures SafeLog(st'.log)
  {
    forall k, q, w ensures Opened(k, c.p, q, w) !in st.log {
      var d := Opened(k, c.p, q, w);
      assert CallKnown(st, d) ==> c.p in st.issued;
    }
    assert NeverIssued(st.log, c.p);
    SafeLogAppend(st.log, c);
  }

  lemma OpensKnown(st: State, st': State, c: Call, d: Call)
    requires LogOk(st) && Opens(st, st', c) && d in st'.log
    ensures CallKnown(st', d)
  {
    assert d in st.log ==> CallKnown(st, d);
  }

  lemma OpensWrapper(st: State, st': State, c: Call, p: Ptr)
    requires LogOk(st) && Opens(st, st', c) && p in st'.objs
    ensures WrapperLogged(st', p)
  {
    if p in st.objs {
      assert WrapperLogged(st, p);
    } else {
      assert !CallKnown(st, ReleaseOf(c.kind, p));
    }
  }

  lemma OpensSession(st: State, st': State, c: Call, x: Ptr)
    requires LogOk(st) && Opens(st, st', c) && x in st'.sessions
    ensures SessionLogged(st', x)
  {
    if x in st.sessions {
      assert SessionLogged(st, x);
    } else {
      assert !CallKnown(st, SessionFree(x));
    }
  }

  lemma LogOpened(st: State, st': State, c: Call)
    requires LogOk(st) && Opens(st, st', c) && (c.kind == Sess || Usable(st.log, c.parent))
    ensures LogOk(st')
  {
    OpensFresh(st, st', c);
    forall d {:trigger CallKnown(st', d)} | d in st'.log ensures CallKnown(st', d) {
      OpensKnown(st, st', c, d);
    }
    forall p {:trigger WrapperLogged(st', p)} | p in st'.objs ensures WrapperLogged(st', p) {
      OpensWrapper(st, st', c, p);
    }
    forall x {:trigger SessionLogged(st', x)} | x in st'.sessions ensures SessionLogged(st', x) {
      OpensSession(st, st', c, x);
    }
  }

  // What can still be used

  lemma SessionUsable(st: State, x: Ptr)
    requires LogOk(st) && x in st.sessions && st.sessions[x].ptr != NULL
    ensures Live(st.log, Sess, x, NULL) && Usable(st.log, x)
  {
    assert SessionLogged(st, x);
  }

  /** The wrapper's handle was not given back, nor was what it hangs below. */
  lemma WrapperUsable(st: State, c: Ptr)
    requires TreeOk(st) && LogOk(st) && c in st.objs && st.objs[c].ptr != NULL && st.objs[c].kind != Listen
    requires !Released(st, c)
    ensures st.objs[c].ptr == c && Usable(st.log, c)
  {
    assert WrapperOk(st, c) && WrapperLogged(st, c);
    var o := st.objs[c];
    assert Live(st.log, o.kind, c, o.owner);
    if IsFile(o.kind) {
      assert WrapperOk(st, o.owner) && WrapperLogged(st, o.owner);
      assert Live(st.log, Sftp, o.owner, st.objs[o.owner].owner);
      SessionUsable(st, st.objs[o.owner].owner);
    } else {
      SessionUsable(st, o.owner);
    }
  }

  /** At AtShut everything that hangs below the sftp has been given back. */
  lemma SftpChildrenReleased(st: State, i: nat, s: Ptr)
    requires Inv(st) && i < |st.threads| && st.threads[i].pc == AtShut(s)
    ensures ChildrenReleased(st.log, s)
  {
    assert ThreadOk(st, i);
    forall k, c | Opened(k, c, s, true) in st.log && k != Listen ensures ReleaseOf(k, c) in st.log {
      assert CallKnown(st, Opened(k, c, s, true));
      assert WrapperOk(st, s);
      assert c in st.objs ==> WrapperOk(st, c) && WrapperLogged(st, c);
    }
  }

  /** When a session is freed, listeners aside, all that hangs below it has been given back. */
  lemma SessionChildrenReleased(st: State, i: nat, x: Ptr)
    requires Inv(st) && i < |st.threads| && st.threads[i] == Thread(Dealloc(x), AtFree)
    ensures ChildrenReleased(st.log, x)
  {
    assert ThreadOk(st, i);
    forall k, c | Opened(k, c, x, true) in st.log && k != Listen ensures ReleaseOf(k, c) in st.log {
      assert CallKnown(st, Opened(k, c, x, true));
      assert SessionOk(st, x);
      assert c in st.objs ==> WrapperOk(st, c) && WrapperLogged(st, c);
      if c in st.objs { NothingLeft(st, i, x, c); }
    }
  }
}
