/** The ownership tree of the bindings as a state machine. A wrapper object is
    named by the libssh2 handle it was created for, so a name outlives the
    handle: `ptr` is the C field, NULL once the handle was given back, and
    `refs` is the Python reference count. Sets hold wrappers by identity.

    Any number of threads run `Session_close`, the teardown inside a deallocation,
    or an explicit close of one wrapper, one action at a time. A size test and the
    pop after it are one action, because the interpreter lock is held across them;
    a library call made without the lock ends an action. A method that makes such a
    call is two actions, `Method` and `Return`, and anything may come between. */
module Machine {
  import opened LibSsh2

  datatype Session = Session(
    ptr: Ptr,
    up: bool,     // the C field `opened`
    refs: nat,
    user: nat,    // references held by the program
    holder: int)  // the thread that deallocates this session, or -1

  datatype Wrapper = Wrapper(
    kind: Kind, owner: Ptr, ptr: Ptr,
    refs: nat,
    user: nat,    // references held by the program
    extra: nat,   // references that nobody will ever drop
    holder: int)  // the thread that works on this wrapper, or -1

  /** What a thread runs: Session_close, Session_dealloc, or an explicit close of the
      wrapper `c`. The frame of that call holds a reference to the wrapper, and to the
      session `via` if it was made through the wrapper's own session (NULL if not). */
  datatype Root = Close(x: Ptr) | Dealloc(x: Ptr) | Shut(c: Ptr, via: Ptr)

  datatype Pc =
    | AtSftps | AtChannels | AtListeners | InDisconnect | AtFree
    | AtDirs(s: Ptr) | AtFiles(s: Ptr) | AtShut(s: Ptr)
    | InHandle(s: Ptr, d: Ptr)
    | InChannel(c: Ptr)
    | InClose(d: Ptr)
    | InCancel(l: Ptr)
    | AtReturn
    | Done

  datatype Thread = Thread(root: Root, pc: Pc)

  /** `inside` has the wrappers that methods are at work on, once for each call.
      `sets[(o, k)]` is the set that `o` keeps for its children of kind `k`: the
      fields sftps, channels and listeners of a session, directories and files of
      an sftp. */
  datatype State = State(
    sessions: map<Ptr, Session>,
    objs: map<Ptr, Wrapper>,
    sets: map<(Ptr, Kind), set<Ptr>>,
    threads: seq<Thread>,
    inside: multiset<Ptr>,
    issued: set<Ptr>,
    log: Log)

  const Initial: State := State(map[], map[], map[], [], multiset{}, {}, [])

  datatype Action =
    | NewSession(p: Ptr)
    | Startup(x: Ptr, ok: bool)
    | Open(x: Ptr, k: Kind, recv: bool, p: Ptr, alloc: bool)
    | OpenHandle(s: Ptr, k: Kind, p: Ptr, alloc: bool)
    | Method(c: Ptr)
    | Return(c: Ptr)
    | CloseChannel(x: Ptr, c: Ptr)
    | CloseFile(s: Ptr, d: Ptr)
    | CancelListener(x: Ptr, l: Ptr)
    | ShutdownSftp(x: Ptr, s: Ptr)
    | CloseSession(x: Ptr)
    | Share(c: Ptr)
    | Drop(c: Ptr)
    | ShareSession(x: Ptr)
    | DropSession(x: Ptr)
    | Run(i: nat, pick: Ptr)

  // Small pieces

  function Less(n: nat): nat { if n == 0 then 0 else n - 1 }

  function With(st: State, c: Ptr, o: Wrapper): State {
    st.(objs := st.objs[c := o])
  }

  function WithSession(st: State, x: Ptr, s: Session): State {
    st.(sessions := st.sessions[x := s])
  }

  function Logged(st: State, calls: Log): State {
    st.(log := st.log + calls)
  }

  function Goto(st: State, i: nat, pc: Pc): State
    requires i < |st.threads|
  {
    st.(threads := st.threads[i := st.threads[i].(pc := pc)])
  }

  /** Kinds that hang below an sftp, and kinds that hang below a session. */
  predicate IsFile(k: Kind) { k == Dir || k == File }

  predicate IsChild(k: Kind) { k == Chan || k == Sftp || k == Listen }

  function Members(st: State, o: Ptr, k: Kind): set<Ptr> {
    if (o, k) in st.sets then st.sets[(o, k)] else {}
  }

  function Add(st: State, o: Ptr, k: Kind, c: Ptr): State {
    st.(sets := st.sets[(o, k) := Members(st, o, k) + {c}])
  }

  function Remove(st: State, o: Ptr, k: Kind, c: Ptr): State {
    st.(sets := st.sets[(o, k) := Members(st, o, k) - {c}])
  }

  function RootSession(st: State, r: Root): Ptr {
    match r
    case Close(x) => x
    case Dealloc(x) => x
    case Shut(c, _) => if c in st.objs then SessionOf(st, c) else NULL
  }

  function SessionOf(st: State, c: Ptr): Ptr
    requires c in st.objs
  {
    var o := st.objs[c];
    if IsFile(o.kind) then if o.owner in st.objs then st.objs[o.owner].owner else NULL else o.owner
  }

  /** Some thread is tearing down session `x` or a wrapper below it. */
  ghost predicate Busy(st: State, x: Ptr) {
    exists i :: 0 <= i < |st.threads| && st.threads[i].pc != Done && RootSession(st, st.threads[i].root) == x
  }

  /** Some thread runs Session_close or the deallocation of session `x`. */
  ghost predicate Ending(st: State, x: Ptr) {
    exists i :: 0 <= i < |st.threads| && st.threads[i].pc != Done && !st.threads[i].root.Shut?
        && st.threads[i].root.x == x
  }

  /** `c` is in the set that its owner keeps for wrappers of its kind. */
  predicate Tracked(st: State, c: Ptr)
    requires c in st.objs
  {
    c in Members(st, st.objs[c].owner, st.objs[c].kind)
  }

  /** Thread `t` closes a wrapper that its owner still tracks: the call was made
      through another owner. */
  predicate Strays(st: State, t: Thread) {
    t.pc != Done && t.root.Shut? && t.root.c in st.objs && Tracked(st, t.root.c)
  }

  /** That happens somewhere below session `x`. */
  ghost predicate Astray(st: State, x: Ptr) {
    exists i :: 0 <= i < |st.threads| && Strays(st, st.threads[i]) && RootSession(st, st.threads[i].root) == x
  }

  // Reference counts and deallocation

  /** Dropping one reference to `w` cancels it: an open listener, and the last one. */
  predicate Cancels(w: Wrapper) {
    w.kind == Listen && w.ptr != NULL && w.refs == 1
  }

  /** The destructor of a wrapper: it closes what is still open, an sftp together
      with its files and directories. While an sftp is shut down or a listener
      cancelled, the reference that was the last one counts as the thread's. */
  function Destroy(st: State, c: Ptr): State
    requires c in st.objs
  {
    var o := st.objs[c];
    var o1 := o.(refs := 1, holder := |st.threads|);
    if o.ptr == NULL then st
    else if o.kind == Sftp then
      With(st, c, o1).(threads := st.threads + [Thread(Shut(c, NULL), AtDirs(c))])
    else if o.kind == Listen then
      Logged(With(st, c, o1).(threads := st.threads + [Thread(Shut(c, NULL), InCancel(c))]), [Cancel(o.ptr)])
    else Logged(With(st, c, o.(ptr := NULL)), CloseCalls(o.kind, o.ptr, o.owner))
  }

  function DecRef(st: State, c: Ptr): State
    requires c in st.objs
  {
    var st1 := With(st, c, st.objs[c].(refs := Less(st.objs[c].refs)));
    if st1.objs[c].refs == 0 then Destroy(st1, c) else st1
  }

  /** PySet_Discard: the set gives up its reference if it had one. */
  function Discard(st: State, o: Ptr, c: Ptr): State
    requires c in st.objs
  {
    var k := st.objs[c].kind;
    if c in Members(st, o, k) then DecRef(Remove(st, o, k, c), c) else st
  }

  /** PySet_Pop by thread `i`, which now has the set's reference. */
  function Take(st: State, i: nat, o: Ptr, c: Ptr): State
    requires c in st.objs
  {
    With(Remove(st, o, st.objs[c].kind, c), c, st.objs[c].(holder := i))
  }

  /** Thread `i` nulls the handle it has just closed, drops its reference and goes on. */
  function Finish(st: State, i: nat, c: Ptr, pc: Pc): State
    requires c in st.objs && i < |st.threads|
  {
    DecRef(Goto(With(st, c, st.objs[c].(ptr := NULL, holder := -1)), i, pc), c)
  }

  // The API, one action each

  function DoOpen(st: State, x: Ptr, k: Kind, recv: bool, p: Ptr, alloc: bool): State
    requires x in st.sessions
  {
    var s := st.sessions[x];
    if p == NULL then Logged(st, [Use(s.ptr)])
    else
      var st1 := Logged(st.(issued := st.issued + {p}), [Opened(k, p, s.ptr, alloc)]);
      if !alloc then st1
      else
        var extra := if k == Chan && recv then 1 else 0;
        With(Add(st1, x, k, p), p, Wrapper(k, x, p, 2 + extra, 1, extra, -1))
  }

  function DoOpenHandle(st: State, s: Ptr, k: Kind, p: Ptr, alloc: bool): State
    requires s in st.objs
  {
    var o := st.objs[s];
    if o.ptr == NULL then st
    else if p == NULL then Logged(st, [Use(o.ptr)])
    else
      var st1 := Logged(st.(issued := st.issued + {p}), [Opened(k, p, o.ptr, alloc)]);
      if !alloc then st1 else With(Add(st1, s, k, p), p, Wrapper(k, s, p, 2, 1, 0, -1))
  }

  /** A method reads the handle, gives up the lock and calls libssh2; the call holds a
      reference to the wrapper. */
  function DoMethod(st: State, c: Ptr): State
    requires c in st.objs
  {
    if st.objs[c].ptr == NULL then st
    else Logged(DoShare(st, c), [Enter(st.objs[c].ptr)]).(inside := st.inside + multiset{c})
  }

  /** The library call on the handle that the method has read, which is the one `c`
      is named by, comes to its end. */
  function DoReturn(st: State, c: Ptr): State
    requires c in st.objs
  {
    DoDrop(Logged(st, [Leave(c)]).(inside := st.inside - multiset{c}), c)
  }

  function DoNewSession(st: State, p: Ptr): State {
    Logged(WithSession(st, p, Session(p, false, 1, 1, -1)).(issued := st.issued + {p}), [Opened(Sess, p, NULL, true)])
  }

  function DoStartup(st: State, x: Ptr, ok: bool): State
    requires x in st.sessions
  {
    var p := st.sessions[x].ptr;
    if ok then Logged(WithSession(st, x, st.sessions[x].(up := true)), [Started(p)]) else Logged(st, [Use(p)])
  }

  function DoShare(st: State, c: Ptr): State
    requires c in st.objs
  {
    With(st, c, st.objs[c].(refs := st.objs[c].refs + 1, user := st.objs[c].user + 1))
  }

  function DoDrop(st: State, c: Ptr): State
    requires c in st.objs
  {
    DecRef(With(st, c, st.objs[c].(user := Less(st.objs[c].user))), c)
  }

  function DoShareSession(st: State, x: Ptr): State
    requires x in st.sessions
  {
    WithSession(st, x, st.sessions[x].(refs := st.sessions[x].refs + 1, user := st.sessions[x].user + 1))
  }

  /** A call through session `x` starts to close the open wrapper `c`: a thread has it
      in its hands, and what is left to do is from `pc` on. */
  function Begin(st: State, x: Ptr, c: Ptr, pc: Pc): State
    requires c in st.objs && x in st.sessions
  {
    var o := st.objs[c];
    var own := o.owner == x;
    var st1 := With(st, c, o.(refs := o.refs + 1, holder := |st.threads|));
    var st2 := if own then WithSession(st1, x, st.sessions[x].(refs := st.sessions[x].refs + 1)) else st1;
    st2.(threads := st.threads + [Thread(Shut(c, if own then x else NULL), pc)])
  }

  /** session.channel_close discards the child from the callee's own set, which need
      not be the set it is in, and closes it. */
  function DoCloseChannel(st: State, x: Ptr, c: Ptr): State
    requires x in st.sessions && c in st.objs
  {
    var st1 := Discard(st, x, c);
    var p := st1.objs[c].ptr;
    if p == NULL then st1 else Begin(Logged(st1, [ChannelClose(p)]), x, c, InChannel(c))
  }

  /** session.sftp_shutdown */
  function DoShutdownSftp(st: State, x: Ptr, s: Ptr): State
    requires x in st.sessions && s in st.objs
  {
    var st1 := Discard(st, x, s);
    if st1.objs[s].ptr == NULL then st1 else Begin(st1, x, s, AtDirs(s))
  }

  /** sftp.close_dir and sftp.close_file: the C function is called for NULL too. */
  function DoCloseFile(st: State, s: Ptr, d: Ptr): State
    requires s in st.objs && d in st.objs
  {
    if st.objs[s].ptr == NULL then st
    else
      var st1 := Logged(Discard(st, s, d), [CloseHandle(st.objs[d].ptr)]);
      var o := st1.objs[d];
      if o.ptr == NULL then st1
      else With(st1, d, o.(refs := o.refs + 1, holder := |st.threads|)).(
        threads := st1.threads + [Thread(Shut(d, NULL), InClose(d))])
  }

  /** session.forward_cancel: the C function is called for NULL too. */
  function DoCancel(st: State, x: Ptr, l: Ptr): State
    requires x in st.sessions && l in st.objs
  {
    var st1 := Logged(Discard(st, x, l), [Cancel(st.objs[l].ptr)]);
    if st.objs[l].ptr == NULL then st1 else Begin(st1, x, l, InCancel(l))
  }

  function DoCloseSession(st: State, x: Ptr): State
    requires x in st.sessions
  {
    var s := st.sessions[x];
    if !s.up then st
    else WithSession(st, x, s.(refs := s.refs + 1)).(threads := st.threads + [Thread(Close(x), AtSftps)])
  }

  function DoDropSession(st: State, x: Ptr): State
    requires x in st.sessions
  {
    var s := st.sessions[x];
    var s1 := s.(user := Less(s.user), refs := Less(s.refs));
    if s1.refs != 0 then WithSession(st, x, s1)
    else WithSession(st, x, s1.(holder := |st.threads|)).(
      threads := st.threads + [Thread(Dealloc(x), if s.up then AtSftps else AtFree)])
  }

  // One action of a thread

  /** `while(PySet_Size(self->sftps))`: pop one and shut it down, or go on. */
  function RunSftps(st: State, i: nat, x: Ptr, pick: Ptr): State
    requires i < |st.threads| && (Members(st, x, Sftp) == {} || pick in st.objs)
  {
    if Members(st, x, Sftp) == {} then Goto(st, i, AtChannels)
    else if st.objs[pick].ptr == NULL then Discard(st, x, pick)
    else Goto(Take(st, i, x, pick), i, AtDirs(pick))
  }

  function RunDirs(st: State, i: nat, s: Ptr, pick: Ptr): State
    requires i < |st.threads| && (Members(st, s, Dir) == {} || pick in st.objs)
  {
    if Members(st, s, Dir) == {} then Goto(st, i, AtFiles(s))
    else Goto(Logged(Take(st, i, s, pick), [CloseHandle(st.objs[pick].ptr)]), i, InHandle(s, pick))
  }

  function RunFiles(st: State, i: nat, s: Ptr, pick: Ptr): State
    requires i < |st.threads| && (Members(st, s, File) == {} || pick in st.objs)
  {
    if Members(st, s, File) == {} then Goto(st, i, AtShut(s))
    else Goto(Logged(Take(st, i, s, pick), [CloseHandle(st.objs[pick].ptr)]), i, InHandle(s, pick))
  }

  /** Where an explicit close goes on once the wrapper is closed. */
  function Leaving(r: Root, next: Pc): Pc {
    if !r.Shut? then next else if r.via == NULL then Done else AtReturn
  }

  /** The lock is back after libssh2_sftp_close_handle. */
  function RunHandle(st: State, i: nat, s: Ptr, d: Ptr): State
    requires i < |st.threads| && d in st.objs
  {
    var st1 := if st.objs[d].ptr == NULL then st else Logged(st, [Back(s)]);
    Finish(st1, i, d, if st.objs[d].kind == Dir then AtDirs(s) else AtFiles(s))
  }

  /** The same in an explicit close. */
  function RunClose(st: State, i: nat, d: Ptr): State
    requires i < |st.threads| && d in st.objs
  {
    Finish(Logged(st, [Back(st.objs[d].owner)]), i, d, Done)
  }

  /** The lock is back after libssh2_channel_forward_cancel. */
  function RunCancel(st: State, i: nat, l: Ptr): State
    requires i < |st.threads| && l in st.objs
  {
    Finish(Logged(st, [Back(st.objs[l].owner)]), i, l, Leaving(st.threads[i].root, AtListeners))
  }

  function RunShut(st: State, i: nat, s: Ptr): State
    requires i < |st.threads| && s in st.objs
  {
    Finish(Logged(st, [Shutdown(st.objs[s].ptr)]), i, s, Leaving(st.threads[i].root, AtSftps))
  }

  function RunChannels(st: State, i: nat, x: Ptr, pick: Ptr): State
    requires i < |st.threads| && (Members(st, x, Chan) == {} || pick in st.objs)
  {
    if Members(st, x, Chan) == {} then Goto(st, i, AtListeners)
    else if st.objs[pick].ptr == NULL then Discard(st, x, pick)
    else Goto(Logged(Take(st, i, x, pick), [ChannelClose(st.objs[pick].ptr)]), i, InChannel(pick))
  }

  /** The lock is back after libssh2_channel_close. */
  function RunChannel(st: State, i: nat, c: Ptr): State
    requires i < |st.threads| && c in st.objs
  {
    Finish(Logged(st, [ChannelFree(st.objs[c].ptr)]), i, c, Leaving(st.threads[i].root, AtChannels))
  }

  /** Popping a listener only drops the set's reference; the destructor then runs in
      the middle of the loop. */
  function RunListeners(st: State, i: nat, x: Ptr, pick: Ptr): State
    requires i < |st.threads| && x in st.sessions && (Members(st, x, Listen) == {} || pick in st.objs)
  {
    if Members(st, x, Listen) == {} then Goto(Logged(st, [Disconnect(st.sessions[x].ptr)]), i, InDisconnect)
    else if !Cancels(st.objs[pick]) then Discard(st, x, pick)
    else Goto(Logged(Take(st, i, x, pick), [Cancel(st.objs[pick].ptr)]), i, InCancel(pick))
  }

  /** An explicit close returns. A call that finds the session's last reference in
      its own hands goes on to deallocate it. */
  function RunReturn(st: State, i: nat): State
    requires i < |st.threads| && st.threads[i].root.Shut? && st.threads[i].root.via in st.sessions
  {
    var x := st.threads[i].root.via;
    var s := st.sessions[x].(refs := Less(st.sessions[x].refs));
    if s.refs != 0 then Goto(WithSession(st, x, s), i, Done)
    else
      var t := Thread(Dealloc(x), if s.up then AtSftps else AtFree);
      WithSession(st, x, s.(holder := i)).(threads := st.threads[i := t])
  }

  /** The lock is back after libssh2_session_disconnect. */
  function RunDisconnect(st: State, i: nat, x: Ptr): State
    requires i < |st.threads| && x in st.sessions
  {
    var st0 := Logged(st, [Back(x)]);
    var s := st.sessions[x].(up := false);
    if st.threads[i].root.Dealloc? then Goto(WithSession(st0, x, s), i, AtFree)
    else
      var s1 := s.(refs := Less(s.refs));
      if s1.refs != 0 then Goto(WithSession(st0, x, s1), i, Done)
      else WithSession(st0, x, s1.(holder := i)).(threads := st.threads[i := Thread(Dealloc(x), AtFree)])
  }

  function RunFree(st: State, i: nat, x: Ptr): State
    requires i < |st.threads| && x in st.sessions
  {
    var s := st.sessions[x];
    Goto(Logged(WithSession(st, x, s.(ptr := NULL)), [SessionFree(s.ptr)]), i, Done)
  }

  /** The set that thread `t` tests and pops from at this point, if it is at such a point. */
  function Looping(t: Thread): (r: (bool, Ptr, Kind)) {
    match t.pc
    case AtSftps => if t.root.Shut? then (false, NULL, Sess) else (true, t.root.x, Sftp)
    case AtChannels => if t.root.Shut? then (false, NULL, Sess) else (true, t.root.x, Chan)
    case AtListeners => if t.root.Shut? then (false, NULL, Sess) else (true, t.root.x, Listen)
    case AtDirs(s) => (true, s, Dir)
    case AtFiles(s) => (true, s, File)
    case _ => (false, NULL, Sess)
  }

  /** A thread that is not done can take a step; when it pops, `pick` is what it
      pops, out of a set that is not empty. */
  predicate CanRun(st: State, i: nat, pick: Ptr) {
    && i < |st.threads|
    && var t := st.threads[i]; var (loops, o, k) := Looping(t);
    (
      && t.pc != Done
      && (!t.root.Shut? ==> t.root.x in st.sessions && t.pc != AtReturn)
      && (t.root.Shut? ==> t.pc !in {AtSftps, AtChannels, AtListeners, InDisconnect, AtFree})
      && (t.pc == AtReturn ==> t.root.via in st.sessions)
      && (loops && Members(st, o, k) != {} ==> pick in Members(st, o, k))
      && (loops ==> pick in st.objs || Members(st, o, k) == {})
      && (t.pc.AtShut? ==> t.pc.s in st.objs)
      && (t.pc.InHandle? ==> t.pc.d in st.objs)
      && (t.pc.InChannel? ==> t.pc.c in st.objs)
      && (t.pc.InClose? ==> t.pc.d in st.objs)
      && (t.pc.InCancel? ==> t.pc.l in st.objs)
    )
  }

  function RunThread(st: State, i: nat, pick: Ptr): State
    requires CanRun(st, i, pick)
  {
    var t := st.threads[i];
    match t.pc
    case AtSftps => RunSftps(st, i, t.root.x, pick)
    case AtDirs(s) => RunDirs(st, i, s, pick)
    case AtFiles(s) => RunFiles(st, i, s, pick)
    case InHandle(s, d) => RunHandle(st, i, s, d)
    case InClose(d) => RunClose(st, i, d)
    case InCancel(l) => RunCancel(st, i, l)
    case AtReturn => RunReturn(st, i)
    case AtShut(s) => RunShut(st, i, s)
    case AtChannels => RunChannels(st, i, t.root.x, pick)
    case InChannel(c) => RunChannel(st, i, c)
    case AtListeners => RunListeners(st, i, t.root.x, pick)
    case InDisconnect => RunDisconnect(st, i, t.root.x)
    case AtFree => RunFree(st, i, t.root.x)
  }

  // Runs

  /** A constructor's answer: NULL, or a handle never seen before. */
  predicate FreshOrNull(st: State, p: Ptr) {
    p == NULL || p !in st.issued
  }

  ghost predicate Usr(st: State, x: Ptr) {
    x in st.sessions && st.sessions[x].user > 0
  }

  /** `c` can be closed by an explicit call on its own owner (`own`) or on another one:
      nobody else is closing it, and a call that leaves it in its owner's set is
      alone below that session. */
  ghost predicate Closable(st: State, c: Ptr, own: bool)
    requires c in st.objs
  {
    && st.objs[c].user > 0 && st.objs[c].holder == -1
    && (st.objs[c].ptr != NULL ==>
          if own || !Tracked(st, c) then !Astray(st, SessionOf(st, c)) else !Busy(st, SessionOf(st, c)))
  }

  /** When an action can happen. Methods run at any time, explicit closes at any time
      when nobody else closes the same object. Constructors and startup wait until
      nobody ends their session or shuts their sftp down. Any number of threads may
      close one session. The reference of a call under way cannot be dropped. */
  ghost predicate Enabled(st: State, a: Action) {
    match a
    case NewSession(p) => FreshOrNull(st, p)
    case Startup(x, _) => Usr(st, x) && !Ending(st, x)
    case Open(x, k, _, p, _) =>
      Usr(st, x) && !Ending(st, x) && IsChild(k) && FreshOrNull(st, p) && (p != NULL ==> st.sessions[x].up)
    case OpenHandle(s, k, p, _) =>
      && s in st.objs && st.objs[s].kind == Sftp && st.objs[s].user > 0
      && IsFile(k) && FreshOrNull(st, p) && !Ending(st, SessionOf(st, s)) && st.objs[s].holder == -1
    case Method(c) => c in st.objs && st.objs[c].user > 0 && st.objs[c].kind != Listen
    case Return(c) => c in st.inside && c in st.objs && st.objs[c].user > 0 && st.objs[c].kind != Listen
    case CloseChannel(x, c) =>
      Usr(st, x) && c in st.objs && st.objs[c].kind == Chan && Closable(st, c, st.objs[c].owner == x)
    case CloseFile(s, d) =>
      && s in st.objs && st.objs[s].user > 0 && st.objs[s].kind == Sftp
      && d in st.objs && IsFile(st.objs[d].kind) && Closable(st, d, st.objs[d].owner == s)
    case CancelListener(x, l) =>
      Usr(st, x) && l in st.objs && st.objs[l].kind == Listen && Closable(st, l, st.objs[l].owner == x)
    case ShutdownSftp(x, s) =>
      Usr(st, x) && s in st.objs && st.objs[s].kind == Sftp && Closable(st, s, st.objs[s].owner == x)
    case CloseSession(x) => Usr(st, x) && !Astray(st, x)
    case Share(c) => c in st.objs && st.objs[c].user > 0
    case Drop(c) =>
      c in st.objs && st.objs[c].user > st.inside[c] && (Cancels(st.objs[c]) ==> !Astray(st, SessionOf(st, c)))
    case ShareSession(x) => Usr(st, x)
    case DropSession(x) => Usr(st, x) && !Astray(st, x)
    case Run(i, pick) => CanRun(st, i, pick)
  }

  function Apply(st: State, a: Action): State
    requires Enabled(st, a)
  {
    match a
    case NewSession(p) => if p == NULL then st else DoNewSession(st, p)
    case Startup(x, ok) => DoStartup(st, x, ok)
    case Open(x, k, recv, p, alloc) => DoOpen(st, x, k, recv, p, alloc)
    case OpenHandle(s, k, p, alloc) => DoOpenHandle(st, s, k, p, alloc)
    case Method(c) => DoMethod(st, c)
    case Return(c) => DoReturn(st, c)
    case CloseChannel(x, c) => DoCloseChannel(st, x, c)
    case CloseFile(s, d) => DoCloseFile(st, s, d)
    case CancelListener(x, l) => DoCancel(st, x, l)
    case ShutdownSftp(x, s) => DoShutdownSftp(st, x, s)
    case CloseSession(x) => DoCloseSession(st, x)
    case Share(c) => DoShare(st, c)
    case Drop(c) => DoDrop(st, c)
    case ShareSession(x) => DoShareSession(st, x)
    case DropSession(x) => DoDropSession(st, x)
    case Run(i, pick) => RunThread(st, i, pick)
  }

  /** `acts` is a run from `st`: each action can happen where it happens. */
  ghost predicate IsRun(st: State, acts: seq<Action>)
    decreases |acts|
  {
    acts == [] || (Enabled(st, acts[0]) && IsRun(Apply(st, acts[0]), acts[1..]))
  }

  ghost function After(st: State, acts: seq<Action>): State
    requires IsRun(st, acts)
    decreases |acts|
  {
    if acts == [] then st else After(Apply(st, acts[0]), acts[1..])
  }
}
