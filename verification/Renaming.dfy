/** Traces do not depend on what the objects are called. */
module Renaming {
  import opened LibSsh2
  import opened Traces

  ghost predicate Injective<A, B>(f: map<A, B>) {
    forall a, b :: a in f && b in f && f[a] == f[b] ==> a == b
  }

  /** `f` names the objects in `s` by those in `t`, all of them. */
  ghost predicate Names<A, B>(s: set<A>, f: map<A, B>, t: set<B>) {
    && s <= f.Keys && (forall a :: a in s ==> f[a] in t)
    && (forall b :: b in t ==> exists a :: a in s && f[a] == b)
  }

  /** Renamed by `f`, the calls of the first map are those of the second. */
  ghost predicate Image<A, B>(calls: map<A, Log>, f: map<A, B>, calls': map<B, Log>) {
    Names(calls.Keys, f, calls'.Keys) && forall a :: a in calls ==> calls'[f[a]] == calls[a]
  }

  ghost function Renamed<A, B>(order: seq<A>, f: map<A, B>): (r: seq<B>)
    requires forall a :: a in order ==> a in f
    ensures |r| == |order| && forall i :: 0 <= i < |order| ==> r[i] == f[order[i]]
  {
    seq(|order|, i requires 0 <= i < |order| => f[order[i]])
  }

  lemma ListsRenamed<A, B>(order: seq<A>, s: set<A>, f: map<A, B>, t: set<B>)
    requires Injective(f) && Names(s, f, t) && Lists(order, s)
    ensures Lists(Renamed(order, f), t)
  {
    var r := Renamed(order, f);
    forall b | b in t ensures b in r {
      var a :| a in s && f[a] == b;
      var i :| 0 <= i < |order| && order[i] == a;
      assert r[i] == b;
    }
  }

  lemma {:induction false} CallsRenamed<A, B>(order: seq<A>, calls: map<A, Log>, f: map<A, B>, calls': map<B, Log>)
    requires Image(calls, f, calls') && forall a :: a in order ==> a in calls
    ensures CallsOf(Renamed(order, f), calls') == CallsOf(order, calls)
    decreases |order|
  {
    if order != [] {
      var init := order[..|order| - 1];
      assert Renamed(order, f)[..|order| - 1] == Renamed(init, f);
      CallsRenamed(init, calls, f, calls');
    }
  }

  // Sftps

  ghost predicate ViewImage<H, I>(v: SftpView<H>, h: map<H, I>, v': SftpView<I>) {
    v.ptr == v'.ptr && Image(v.directories, h, v'.directories) && Image(v.files, h, v'.files)
  }

  ghost function RenamedOrder<S, H, T, I>(o: SftpOrder<S, H>, f: map<S, T>, h: map<H, I>): SftpOrder<T, I>
    requires o.s in f && (forall d :: d in o.ds ==> d in h) && (forall d :: d in o.fs ==> d in h)
  {
    SftpOrder(f[o.s], Renamed(o.ds, h), Renamed(o.fs, h))
  }

  lemma ShutdownRenamed<S, H, T, I>(o: SftpOrder<S, H>, v: SftpView<H>, f: map<S, T>, h: map<H, I>, v': SftpView<I>)
    requires o.s in f && Injective(h) && ViewImage(v, h, v') && Follows(o, v)
    ensures Follows(RenamedOrder(o, f, h), v') && ShutdownCalls(RenamedOrder(o, f, h), v') == ShutdownCalls(o, v)
  {
    ListsRenamed(o.ds, v.directories.Keys, h, v'.directories.Keys);
    ListsRenamed(o.fs, v.files.Keys, h, v'.files.Keys);
    CallsRenamed(o.ds, v.directories, h, v'.directories);
    CallsRenamed(o.fs, v.files, h, v'.files);
  }

  ghost predicate ViewsImage<S, H, T, I>(v: map<S, SftpView<H>>, f: map<S, T>, h: map<H, I>, v': map<T, SftpView<I>>) {
    Injective(f) && Injective(h) && Names(v.Keys, f, v'.Keys) && forall s :: s in v ==> ViewImage(v[s], h, v'[f[s]])
  }

  ghost predicate Playable<S, H>(order: seq<SftpOrder<S, H>>, v: map<S, SftpView<H>>) {
    forall o :: o in order ==> o.s in v && Follows(o, v[o.s])
  }

  ghost function RenamedOrders<S, H, T, I>(order: seq<SftpOrder<S, H>>, v: map<S, SftpView<H>>,
                                           f: map<S, T>, h: map<H, I>,
                                           v': map<T, SftpView<I>>): (r: seq<SftpOrder<T, I>>)
    requires ViewsImage(v, f, h, v') && Playable(order, v)
    ensures |r| == |order|
    ensures forall i :: 0 <= i < |order| ==> r[i].s == f[order[i].s]
  {
    seq(|order|, i requires 0 <= i < |order| =>
      assert order[i] in order;
      RenamedOrder(order[i], f, h))
  }

  lemma {:induction false} SftpsCallsRenamed<S, H, T, I>(order: seq<SftpOrder<S, H>>, v: map<S, SftpView<H>>,
                                                        f: map<S, T>, h: map<H, I>, v': map<T, SftpView<I>>)
    requires ViewsImage(v, f, h, v') && Playable(order, v)
    ensures SftpsCalls(RenamedOrders(order, v, f, h, v'), v') == SftpsCalls(order, v)
    decreases |order|
  {
    if order != [] {
      var init, o := order[..|order| - 1], order[|order| - 1];
      assert o in order && Playable(init, v);
      assert RenamedOrders(order, v, f, h, v')[..|order| - 1] == RenamedOrders(init, v, f, h, v');
      SftpsCallsRenamed(init, v, f, h, v');
      ShutdownRenamed(o, v[o.s], f, h, v'[f[o.s]]);
    }
  }

  lemma PlaysRenamed<S, H, T, I>(order: seq<SftpOrder<S, H>>, v: map<S, SftpView<H>>, f: map<S, T>, h: map<H, I>,
                                 v': map<T, SftpView<I>>)
    requires ViewsImage(v, f, h, v') && Plays(order, v, {})
    ensures Plays(RenamedOrders(order, v, f, h, v'), v', {})
  {
    var r := RenamedOrders(order, v, f, h, v');
    forall o' | o' in r ensures o'.s in v' && o'.s !in {} && Follows(o', v'[o'.s]) {
      var i :| 0 <= i < |r| && r[i] == o';
      assert order[i] in order;
      ShutdownRenamed(order[i], v[order[i].s], f, h, v'[f[order[i].s]]);
    }
    forall s' | s' in v'.Keys && s' !in {} ensures exists i :: 0 <= i < |r| && r[i].s == s' {
      RenamedPlayed(order, v, f, h, v', s');
    }
  }

  lemma RenamedPlayed<S, H, T, I>(order: seq<SftpOrder<S, H>>, v: map<S, SftpView<H>>, f: map<S, T>, h: map<H, I>,
                                  v': map<T, SftpView<I>>, s': T)
    requires ViewsImage(v, f, h, v') && Plays(order, v, {}) && s' in v'.Keys
    ensures var r := RenamedOrders(order, v, f, h, v'); exists i :: 0 <= i < |r| && r[i].s == s'
  {
    var s :| s in v.Keys && f[s] == s';
    var i :| 0 <= i < |order| && order[i].s == s;
    assert RenamedOrders(order, v, f, h, v')[i].s == s';
  }

  // Sessions

  /** Names for the four kinds of objects below a session. */
  datatype Naming<S, H, C, L> =
    Naming(sftps: map<S, Ptr>, handles: map<H, Ptr>, channels: map<C, Ptr>, listeners: map<L, Ptr>)

  ghost predicate SessionImage<S, H, C, L>(v: SessionView<S, H, C, L>, n: Naming<S, H, C, L>,
                                           v': SessionView<Ptr, Ptr, Ptr, Ptr>) {
    && v.ptr == v'.ptr && ViewsImage(v.sftps, n.sftps, n.handles, v'.sftps)
    && Injective(n.channels) && Image(v.channels, n.channels, v'.channels)
    && Injective(n.listeners) && Image(v.listeners, n.listeners, v'.listeners)
  }

  lemma CloseRenamed<S, H, C, L>(o: CloseOrder<S, H, C, L>, v: SessionView<S, H, C, L>, n: Naming<S, H, C, L>,
                                 v': SessionView<Ptr, Ptr, Ptr, Ptr>) returns (o': CloseOrder<Ptr, Ptr, Ptr, Ptr>)
    requires SessionImage(v, n, v') && PopsAll(o, v)
    ensures PopsAll(o', v') && CloseTrace(o', v') == CloseTrace(o, v)
  {
    assert Playable(o.sftps, v.sftps);
    PlaysRenamed(o.sftps, v.sftps, n.sftps, n.handles, v'.sftps);
    SftpsCallsRenamed(o.sftps, v.sftps, n.sftps, n.handles, v'.sftps);
    ListsRenamed(o.channels, v.channels.Keys, n.channels, v'.channels.Keys);
    ListsRenamed(o.listeners, v.listeners.Keys, n.listeners, v'.listeners.Keys);
    CallsRenamed(o.channels, v.channels, n.channels, v'.channels);
    CallsRenamed(o.listeners, v.listeners, n.listeners, v'.listeners);
    o' := CloseOrder(RenamedOrders(o.sftps, v.sftps, n.sftps, n.handles, v'.sftps),
                     Renamed(o.channels, n.channels), Renamed(o.listeners, n.listeners));
  }
}
