/** The wrapper objects as the C code has them: fields that are nulled in place,
    Python sets that are popped, reference counts, destructors. Each method is
    proved against the exact calls it makes; only the order in which a set is
    popped is left open, and comes back as a ghost result. */
module Wrappers {
  import opened LibSsh2
  import opened Traces

  /** libssh2, as far as the wrappers see it: the calls made so far. */
  class Library {
    ghost var log: Log

    constructor ()
      ensures log == []
    {
      log := [];
    }
  }

  class Channel {
    var channel: Ptr
    var refs: nat

    /** PYLIBSSH2_Channel_New */
    constructor (p: Ptr)
      ensures channel == p && refs == 1
    {
      channel, refs := p, 1;
    }

    ghost function Calls(): Log
      reads this
    {
      CloseCalls(Chan, channel, NULL)
    }

    /** Channel_close */
    method Close(lib: Library)
      modifies this`channel, lib
      ensures channel == NULL && lib.log == old(lib.log) + old(Calls())
    {
      if channel != NULL {
        lib.log := lib.log + [ChannelClose(channel)];
        lib.log := lib.log + [ChannelFree(channel)];
        channel := NULL;
      }
    }

    /** Py_XDECREF; the destructor closes what is still open. */
    method DecRef(lib: Library)
      requires refs > 0
      modifies this, lib
      ensures refs == old(refs) - 1
      ensures refs == 0 ==> channel == NULL && lib.log == old(lib.log) + old(Calls())
      ensures refs > 0 ==> channel == old(channel) && lib.log == old(lib.log)
    {
      refs := refs - 1;
      if refs == 0 {
        if channel != NULL {
          Close(lib);
        }
      }
    }

    /** Any other method: a closed channel raises before libssh2 is called. */
    method Use(lib: Library) returns (raised: bool)
      modifies lib
      ensures raised == (channel == NULL)
      ensures lib.log == old(lib.log) + (if raised then [] else [Enter(channel), Leave(channel)])
    {
      if channel == NULL {
        return true;
      }
      lib.log := lib.log + [Enter(channel)];
      lib.log := lib.log + [Leave(channel)];
      return false;
    }

    /** What Session_close does to a channel it has popped: close it, then drop the
        set's reference. */
    method ClosePopped(lib: Library)
      requires refs > 0
      modifies this, lib
      ensures channel == NULL && refs == old(refs) - 1 && lib.log == old(lib.log) + old(Calls())
    {
      Close(lib);
      DecRef(lib);
    }
  }

  class Listener {
    const session: Ptr    // the session that listens
    var listener: Ptr
    var refs: nat

    /** PYLIBSSH2_Listener_New */
    constructor (p: Ptr, q: Ptr)
      ensures listener == p && session == q && refs == 1
    {
      listener, session, refs := p, q, 1;
    }

    ghost function Calls(): Log
      reads this
    {
      CloseCalls(Listen, listener, session)
    }

    /** Listener_cancel: called for NULL as well. */
    method Cancel(lib: Library)
      modifies this`listener, lib
      ensures listener == NULL && lib.log == old(lib.log) + old(Calls())
    {
      lib.log := lib.log + [LibSsh2.Cancel(listener)];
      if listener != NULL {
        lib.log := lib.log + [Back(session)];
      }
      listener := NULL;
    }

    /** What dropping one reference asks of libssh2: a cancel, if it is the last one. */
    ghost function LastCalls(): Log
      reads this
    {
      if refs == 1 && listener != NULL then Calls() else []
    }

    method DecRef(lib: Library)
      requires refs > 0
      modifies this, lib
      ensures refs == old(refs) - 1 && lib.log == old(lib.log) + old(LastCalls())
      ensures listener == if refs == 0 then NULL else old(listener)
    {
      refs := refs - 1;
      if refs == 0 {
        if listener != NULL {
          Cancel(lib);
        }
      }
    }
  }

  /** Sftpdir and Sftpfile: two types with one layout, closed by the same code. */
  class SftpHandle {
    const sftp: Ptr       // the sftp that opened it
    var handle: Ptr
    var refs: nat

    /** PYLIBSSH2_Sftpdir_New, PYLIBSSH2_Sftpfile_New */
    constructor (p: Ptr, q: Ptr)
      ensures handle == p && sftp == q && refs == 1
    {
      handle, sftp, refs := p, q, 1;
    }

    ghost function Calls(): Log
      reads this
    {
      CloseCalls(File, handle, sftp)
    }

    /** PYLIBSSH2_Sftpdir_close, PYLIBSSH2_Sftpfile_close: called for NULL as well. */
    method Close(lib: Library)
      modifies this`handle, lib
      ensures handle == NULL && lib.log == old(lib.log) + old(Calls())
    {
      lib.log := lib.log + [CloseHandle(handle)];
      if handle != NULL {
        lib.log := lib.log + [Back(sftp)];
      }
      handle := NULL;
    }

    method DecRef(lib: Library)
      requires refs > 0
      modifies this, lib
      ensures refs == old(refs) - 1
      ensures refs == 0 ==>
        handle == NULL && lib.log == old(lib.log) + (if old(handle) == NULL then [] else old(Calls()))
      ensures refs > 0 ==> handle == old(handle) && lib.log == old(lib.log)
    {
      refs := refs - 1;
      if refs == 0 {
        if handle != NULL {
          Close(lib);
        }
      }
    }

    /** What Sftp_shutdown does to a directory or file it has popped. */
    method ClosePopped(lib: Library)
      requires refs > 0
      modifies this, lib
      ensures handle == NULL && refs == old(refs) - 1 && lib.log == old(lib.log) + old(Calls())
    {
      Close(lib);
      DecRef(lib);
    }
  }

  ghost function HandleCalls(hs: set<SftpHandle>): map<SftpHandle, Log>
    reads hs
  {
    map d | d in hs :: d.Calls()
  }

  class Sftp {
    var sftp: Ptr
    var directories: set<SftpHandle>
    var files: set<SftpHandle>
    var refs: nat
    ghost var view: SftpView<SftpHandle>  // the calls that close the members of the two sets

    /** PYLIBSSH2_Sftp_New */
    constructor (p: Ptr)
      ensures Valid() && sftp == p && directories == {} && files == {} && refs == 1
    {
      sftp, directories, files, refs := p, {}, {}, 1;
      view := SftpView(p, map[], map[]);
    }

    ghost function Children(): set<SftpHandle>
      reads this`directories, this`files
    {
      directories + files
    }

    /** A set holds a reference to each member; a closed sftp has none. */
    ghost predicate Valid()
      reads this, Children()
    {
      && directories !! files
      && view == SftpView(sftp, HandleCalls(directories), HandleCalls(files))
      && (forall d :: d in directories ==> d.refs > 0)
      && (forall d :: d in files ==> d.refs > 0)
      && (sftp == NULL ==> directories == {} && files == {})
    }

    /** open_dir and open_file: `p` is what libssh2 answers, `alloc` whether Python can
        allocate a wrapper. The set and the caller get a reference each. */
    method OpenHandle(lib: Library, dir: bool, p: Ptr, alloc: bool) returns (d: SftpHandle?)
      requires Valid()
      modifies lib, this`directories, this`files, this`view
      ensures Valid()
      ensures d != null <==> sftp != NULL && p != NULL && alloc
      ensures d != null ==> fresh(d) && d.handle == p && d.sftp == sftp && d.refs == 2
      ensures directories == if d != null && dir then old(directories) + {d} else old(directories)
      ensures files == if d != null && !dir then old(files) + {d} else old(files)
      ensures lib.log == old(lib.log) +
        (if sftp == NULL then [] else if p == NULL then [LibSsh2.Use(sftp)] else [Opened(if dir then Dir else File, p,
            sftp, alloc)])
    {
      if sftp == NULL {
        return null;
      }
      if p == NULL {
        lib.log := lib.log + [LibSsh2.Use(sftp)];
        return null;
      }
      lib.log := lib.log + [Opened(if dir then Dir else File, p, sftp, alloc)];
      if !alloc {
        return null;
      }
      d := new SftpHandle(p, sftp);
      d.refs := d.refs + 1;
      Track(d, dir);
    }

    /** PySet_Add */
    method Track(d: SftpHandle, dir: bool)
      requires Valid() && sftp != NULL && d !in Children() && d.refs > 0
      modifies this`directories, this`files, this`view
      ensures Valid()
      ensures directories == if dir then old(directories) + {d} else old(directories)
      ensures files == if dir then old(files) else old(files) + {d}
    {
      assert HandleCalls(files) == view.files && HandleCalls(directories) == view.directories;
      if dir {
        directories := directories + {d};
        view := view.(directories := HandleCalls(directories));
      } else {
        files := files + {d};
        view := view.(files := HandleCalls(files));
      }
    }

    /** close_dir and close_file: only the set of that kind is asked to discard the
        wrapper, which is closed even if it was not there, or if it was closed before. */
    method CloseHandle(lib: Library, d: SftpHandle, dir: bool) returns (raised: bool)
      requires Valid() && d.refs > (if d in (if dir then directories else files) then 1 else 0)
      modifies lib, this`directories, this`files, this`view, d
      ensures Valid() && raised == (sftp == NULL)
      ensures raised ==> lib.log == old(lib.log) && d.handle == old(d.handle) && d.refs == old(d.refs)
      ensures directories == if !raised && dir then old(directories) - {d} else old(directories)
      ensures files == if !raised && !dir then old(files) - {d} else old(files)
      ensures !raised ==> d.handle == NULL && lib.log == old(lib.log) + old(d.Calls())
      ensures !raised ==> d.refs == old(d.refs) - (if d in old(if dir then directories else files) then 1 else 0)
    {
      if sftp == NULL {
        return true;
      }
      if dir {
        if d in directories {
          directories := directories - {d};
          d.DecRef(lib);
        }
      } else {
        if d in files {
          files := files - {d};
          d.DecRef(lib);
        }
      }
      d.Close(lib);
      view := SftpView(sftp, HandleCalls(directories), HandleCalls(files));
      return false;
    }

    method PopDirectory(lib: Library) returns (item: SftpHandle)
      requires directories != {} && forall d :: d in directories ==> d.refs > 0
      modifies lib, this`directories, directories
      ensures item in old(directories) && directories == old(directories) - {item}
      ensures item.handle == NULL && item.refs == old(item.refs) - 1 && lib.log == old(lib.log) + old(item.Calls())
      ensures forall d :: d in directories ==> unchanged(d)
    {
      item :| item in directories;
      directories := directories - {item};
      item.ClosePopped(lib);
    }

    method CloseDirectories(lib: Library) returns (ghost order: seq<SftpHandle>)
      requires directories !! files && forall d :: d in directories ==> d.refs > 0
      modifies lib, this`directories, directories
      ensures directories == {} && Traced(order, old(HandleCalls(directories)), {}, old(lib.log), lib.log)
      ensures HandleCalls(files) == old(HandleCalls(files))
      ensures forall d :: d in old(directories) ==> d.handle == NULL && d.refs == old(d.refs) - 1
    {
      ghost var calls := HandleCalls(directories);
      order := [];
      while directories != {}
        invariant directories <= calls.Keys && Traced(order, calls, directories, old(lib.log), lib.log)
        invariant forall d :: d in directories ==> unchanged(d)
        invariant forall d :: d in files ==> unchanged(d)
        invariant forall d :: d in calls && d !in directories ==> d.handle == NULL && d.refs == old(d.refs) - 1
        decreases |directories|
      {
        ghost var log := lib.log;
        ghost var item := PopDirectory(lib);
        TracedAppend(order, calls, directories, old(lib.log), log, item);
        order := order + [item];
      }
      assert forall d :: d in files ==> d.Calls() == old(d.Calls());
    }

    method PopFile(lib: Library) returns (item: SftpHandle)
      requires files != {} && forall d :: d in files ==> d.refs > 0
      modifies lib, this`files, files
      ensures item in old(files) && files == old(files) - {item}
      ensures item.handle == NULL && item.refs == old(item.refs) - 1 && lib.log == old(lib.log) + old(item.Calls())
      ensures forall d :: d in files ==> unchanged(d)
    {
      item :| item in files;
      files := files - {item};
      item.ClosePopped(lib);
    }

    method CloseFiles(lib: Library) returns (ghost order: seq<SftpHandle>)
      requires forall d :: d in files ==> d.refs > 0
      modifies lib, this`files, files
      ensures files == {} && Traced(order, old(HandleCalls(files)), {}, old(lib.log), lib.log)
      ensures forall d :: d in old(files) ==> d.handle == NULL && d.refs == old(d.refs) - 1
    {
      ghost var calls := HandleCalls(files);
      order := [];
      while files != {}
        invariant files <= calls.Keys && Traced(order, calls, files, old(lib.log), lib.log)
        invariant forall d :: d in files ==> unchanged(d)
        invariant forall d :: d in calls && d !in files ==> d.handle == NULL && d.refs == old(d.refs) - 1
        decreases |files|
      {
        ghost var log := lib.log;
        ghost var item := PopFile(lib);
        TracedAppend(order, calls, files, old(lib.log), log, item);
        order := order + [item];
      }
    }

    /** The two loops of Sftp_shutdown. */
    method CloseChildren(lib: Library) returns (ghost ds: seq<SftpHandle>, ghost fs: seq<SftpHandle>)
      requires directories !! files && forall d :: d in Children() ==> d.refs > 0
      modifies lib, this`directories, this`files, Children()
      ensures directories == {} && files == {}
      ensures Lists(ds, old(HandleCalls(directories)).Keys) && Lists(fs, old(HandleCalls(files)).Keys)
      ensures lib.log == old(lib.log) + CallsOf(ds, old(HandleCalls(directories)))
        + CallsOf(fs, old(HandleCalls(files)))
      ensures forall d :: d in old(Children()) ==> d.handle == NULL && d.refs == old(d.refs) - 1
    {
      ghost var dc, fc := HandleCalls(directories), HandleCalls(files);
      ds := CloseDirectories(lib);
      fs := CloseFiles(lib);
      assert dc.Keys - {} == dc.Keys && fc.Keys - {} == fc.Keys;
    }

    /** Sftp_shutdown */
    method Shutdown(lib: Library) returns (ghost o: SftpOrder<Sftp, SftpHandle>)
      requires Valid()
      modifies lib, this, Children()
      ensures Valid() && refs == old(refs) && sftp == NULL && directories == {} && files == {}
      ensures o.s == this && Follows(o, old(view)) && lib.log == old(lib.log) + ShutdownCalls(o, old(view))
      ensures forall d :: d in old(Children()) ==> d.handle == NULL && d.refs == old(d.refs) - 1
    {
      o := SftpOrder(this, [], []);
      if sftp != NULL {
        ghost var v := view;
        ghost var ds, fs := CloseChildren(lib);
        lib.log := lib.log + [LibSsh2.Shutdown(sftp)];
        sftp := NULL;
        o := SftpOrder(this, ds, fs);
        ShutdownParts(old(lib.log), o, v);
      }
      view := SftpView(NULL, map[], map[]);
    }

    /** Py_XDECREF; the destructor shuts down what is still open. */
    method DecRef(lib: Library) returns (ghost o: SftpOrder<Sftp, SftpHandle>)
      requires Valid() && refs > 0
      modifies lib, this, Children()
      ensures Valid() && refs == old(refs) - 1
      ensures refs > 0 || old(sftp) == NULL ==> lib.log == old(lib.log) && view == old(view) && sftp == old(sftp)
      ensures refs == 0 && old(sftp) != NULL ==>
        sftp == NULL && o.s == this && Follows(o, old(view)) && lib.log == old(lib.log) + ShutdownCalls(o, old(view))
      ensures refs == 0 && old(sftp) != NULL ==>
        forall d :: d in old(Children()) ==> d.handle == NULL && d.refs == old(d.refs) - 1
      ensures refs > 0 || old(sftp) == NULL ==> forall d :: d in old(Children()) ==> unchanged(d)
    {
      refs := refs - 1;
      o := SftpOrder(this, [], []);
      if refs == 0 {
        if sftp != NULL {
          o := Shutdown(lib);
        }
      }
    }

    /** What Session_close does to an sftp it has popped: shut it down and drop the
        set's reference. */
    method ShutdownPopped(lib: Library) returns (ghost o: SftpOrder<Sftp, SftpHandle>)
      requires Valid() && refs > 0
      modifies lib, this, Children()
      ensures sftp == NULL && refs == old(refs) - 1
      ensures o.s == this && Follows(o, old(view)) && lib.log == old(lib.log) + ShutdownCalls(o, old(view))
      ensures forall d :: d in old(Children()) ==> d.handle == NULL && d.refs == old(d.refs) - 1
    {
      o := Shutdown(lib);
      ghost var _ := DecRef(lib);
    }
  }

  class Session {
    var session: Ptr
    var isOpen: bool      // the C field `opened`
    var sftps: set<Sftp>
    var channels: set<Channel>
    var listeners: set<Listener>

    /** PYLIBSSH2_Session_New */
    constructor (p: Ptr)
      ensures session == p && !isOpen && sftps == {} && channels == {} && listeners == {} && Valid()
    {
      session, isOpen := p, false;
      sftps, channels, listeners := {}, {}, {};
    }

    /** The directories and files of the sftps. */
    ghost function Handles(): set<SftpHandle>
      reads this`sftps, sftps
    {
      set s, d | s in sftps && d in s.Children() :: d
    }

    ghost predicate Holds(s: Sftp)
      reads s, s.Children()
    {
      s.refs > 0 && s.Valid()
    }

    ghost predicate Disjoint(s: Sftp, t: Sftp)
      reads s, t
    {
      s != t ==> s.Children() !! t.Children()
    }

    /** The set holds a reference to each sftp, and no two sftps share a child. */
    ghost predicate SftpsValid()
      reads this`sftps, sftps, Handles()
    {
      && (forall s {:trigger Holds(s)} :: s in sftps ==> Holds(s))
      && (forall s, t {:trigger Disjoint(s, t)} :: s in sftps && t in sftps ==> Disjoint(s, t))
    }

    /** What is true of the sftps stays true while they and their children are left alone. */
    twostate lemma SftpsStay()
      requires old(SftpsValid()) && sftps == old(sftps)
      requires (forall s: Sftp :: s in sftps ==> unchanged(s))
      requires (forall d: SftpHandle :: d in old(Handles()) ==> unchanged(d))
      ensures SftpsValid()
    {
      forall s {:trigger Holds(s)} | s in sftps ensures Holds(s) {
        assert old(Holds(s));
        forall d | d in s.Children() ensures d.refs == old(d.refs) && d.handle == old(d.handle) {
          assert d in old(Handles());
        }
        assert HandleCalls(s.directories) == old(HandleCalls(s.directories));
        assert HandleCalls(s.files) == old(HandleCalls(s.files));
        assert forall d :: d in s.directories || d in s.files ==> d in s.Children();
      }
      forall s, t {:trigger Disjoint(s, t)} | s in sftps && t in sftps ensures Disjoint(s, t) {
        assert old(Disjoint(s, t));
      }
    }

    /** Nor does a new file or directory of one sftp disturb the session. */
    twostate lemma SftpGrew(s: Sftp)
      requires old(SftpsValid()) && sftps == old(sftps) && s in sftps && s.Valid() && s.refs == old(s.refs)
      requires forall d: SftpHandle :: d in s.Children() ==> d in old(s.Children()) || fresh(d)
      requires (forall t: Sftp :: t in sftps && t != s ==> unchanged(t))
      requires (forall d: SftpHandle :: d in old(Handles()) ==> unchanged(d))
      ensures SftpsValid()
    {
      forall t {:trigger Holds(t)} | t in sftps ensures Holds(t) {
        assert old(Holds(t));
        if t != s {
          forall d | d in t.Children() ensures d.refs == old(d.refs) && d.handle == old(d.handle) {
            assert d in old(Handles());
          }
          assert HandleCalls(t.directories) == old(HandleCalls(t.directories));
          assert HandleCalls(t.files) == old(HandleCalls(t.files));
          assert forall d :: d in t.directories || d in t.files ==> d in t.Children();
        }
      }
      forall t, u {:trigger Disjoint(t, u)} | t in sftps && u in sftps ensures Disjoint(t, u) {
        assert old(Disjoint(t, u));
      }
    }

    ghost predicate ChannelsValid()
      reads this`channels, channels
    {
      forall c :: c in channels ==> c.refs > 0
    }

    ghost predicate ListenersValid()
      reads this`listeners, listeners
    {
      forall l :: l in listeners ==> l.refs > 0
    }

    ghost predicate Valid()
      reads this, sftps, channels, listeners, Handles()
    {
      SftpsValid() && ChannelsValid() && ListenersValid()
    }

    ghost function SftpViews(): map<Sftp, SftpView<SftpHandle>>
      reads this`sftps, sftps
    {
      map s | s in sftps :: s.view
    }

    ghost function ChannelCalls(): map<Channel, Log>
      reads this`channels, channels
    {
      map c | c in channels :: c.Calls()
    }

    ghost function ListenerCalls(): map<Listener, Log>
      reads this`listeners, listeners
    {
      map l | l in listeners :: l.LastCalls()
    }

    /** The sftps still in the set are as `v` shows them, the others are closed. */
    ghost predicate Unpopped(v: map<Sftp, SftpView<SftpHandle>>)
      reads this`sftps, v.Keys
    {
      && sftps <= v.Keys
      && (forall s :: s in v ==> if s in sftps then s.view == v[s] else s.sftp == NULL)
    }

    /** startup; `ok` is whether libssh2 succeeds. */
    method Startup(lib: Library, ok: bool)
      modifies lib, this`isOpen
      ensures isOpen == (old(isOpen) || ok)
      ensures lib.log == old(lib.log) + [if ok then Started(session) else LibSsh2.Use(session)]
    {
      if ok {
        lib.log := lib.log + [Started(session)];
        isOpen := true;
      } else {
        lib.log := lib.log + [LibSsh2.Use(session)];
      }
    }

    /** open_session, scp_send and scp_recv. The tuple that scp_recv returns takes a
        reference of its own, on top of the one it should have handed over. */
    method OpenChannel(lib: Library, p: Ptr, alloc: bool, recv: bool) returns (c: Channel?)
      requires Valid()
      modifies lib, this`channels
      ensures Valid()
      ensures c != null <==> p != NULL && alloc
      ensures c != null ==> fresh(c) && c.channel == p && c.refs == if recv then 3 else 2
      ensures channels == if c != null then old(channels) + {c} else old(channels)
      ensures lib.log == old(lib.log) + [if p == NULL then LibSsh2.Use(session) else Opened(Chan, p, session, alloc)]
    {
      c := null;
      if p == NULL {
        lib.log := lib.log + [LibSsh2.Use(session)];
        SftpsStay();
        return;
      }
      lib.log := lib.log + [Opened(Chan, p, session, alloc)];
      if alloc {
        c := new Channel(p);
        channels := channels + {c};
        c.refs := c.refs + 1;
        if recv {
          c.refs := c.refs + 1;
        }
      }
      SftpsStay();
    }

    /** channel_close: closes the channel whichever session it belongs to. */
    method CloseChannel(lib: Library, c: Channel)
      requires Valid() && c.refs > (if c in channels then 1 else 0)
      modifies lib, this`channels, c
      ensures Valid() && channels == old(channels) - {c}
      ensures c.channel == NULL && c.refs == old(c.refs) - (if c in old(channels) then 1 else 0)
      ensures lib.log == old(lib.log) + old(c.Calls())
    {
      if c in channels {
        channels := channels - {c};
        c.DecRef(lib);
      }
      c.Close(lib);
      SftpsStay();
    }

    /** forward_listen */
    method Listen(lib: Library, p: Ptr, alloc: bool) returns (l: Listener?)
      requires Valid()
      modifies lib, this`listeners
      ensures Valid()
      ensures l != null <==> p != NULL && alloc
      ensures l != null ==> fresh(l) && l.listener == p && l.session == session && l.refs == 2
      ensures listeners == if l != null then old(listeners) + {l} else old(listeners)
      ensures lib.log == old(lib.log)
        + [if p == NULL then LibSsh2.Use(session) else Opened(Kind.Listen, p, session, alloc)]
    {
      l := null;
      if p == NULL {
        lib.log := lib.log + [LibSsh2.Use(session)];
        SftpsStay();
        return;
      }
      lib.log := lib.log + [Opened(Kind.Listen, p, session, alloc)];
      if alloc {
        l := new Listener(p, session);
        listeners := listeners + {l};
        l.refs := l.refs + 1;
      }
      SftpsStay();
    }

    /** forward_cancel: a listener that was cancelled before is cancelled as NULL. */
    method CancelListener(lib: Library, l: Listener)
      requires Valid() && l.refs > (if l in listeners then 1 else 0)
      modifies lib, this`listeners, l
      ensures Valid() && listeners == old(listeners) - {l}
      ensures l.listener == NULL && l.refs == old(l.refs) - (if l in old(listeners) then 1 else 0)
      ensures lib.log == old(lib.log) + old(l.Calls())
    {
      if l in listeners {
        listeners := listeners - {l};
        l.DecRef(lib);
      }
      l.Cancel(lib);
      SftpsStay();
    }

    /** PySet_Add */
    method TrackSftp(s: Sftp)
      requires SftpsValid() && s !in sftps && Holds(s) && forall t :: t in sftps ==> Disjoint(s, t)
      modifies this`sftps
      ensures SftpsValid() && sftps == old(sftps) + {s}
    {
      assert forall t :: t in sftps ==> Holds(t) && Disjoint(t, s);
      sftps := sftps + {s};
    }

    /** sftp_init */
    method InitSftp(lib: Library, p: Ptr, alloc: bool) returns (s: Sftp?)
      requires Valid()
      modifies lib, this`sftps
      ensures Valid()
      ensures s != null <==> p != NULL && alloc
      ensures s != null ==> fresh(s) && s.Valid() && s.sftp == p && s.refs == 2 && s.Children() == {}
      ensures sftps == if s != null then old(sftps) + {s} else old(sftps)
      ensures lib.log == old(lib.log)
        + [if p == NULL then LibSsh2.Use(session) else Opened(Kind.Sftp, p, session, alloc)]
    {
      s := null;
      if p == NULL {
        lib.log := lib.log + [LibSsh2.Use(session)];
        SftpsStay();
        return;
      }
      lib.log := lib.log + [Opened(Kind.Sftp, p, session, alloc)];
      if alloc {
        s := new Sftp(p);
        s.refs := s.refs + 1;
        SftpsStay();
        TrackSftp(s);
      } else {
        SftpsStay();
      }
    }

    /** An sftp of this session is shut down and loses the set's reference. */
    method ShutTracked(lib: Library, s: Sftp) returns (ghost o: SftpOrder<Sftp, SftpHandle>)
      requires SftpsValid() && s in sftps
      modifies lib, this`sftps, s, s.Children()
      ensures SftpsValid() && sftps == old(sftps) - {s}
      ensures s.sftp == NULL && s.refs == old(s.refs) - 1
      ensures forall d :: d in old(s.Children()) ==> d.handle == NULL && d.refs == old(d.refs) - 1
      ensures o.s == s && Follows(o, old(s.view)) && lib.log == old(lib.log) + ShutdownCalls(o, old(s.view))
    {
      assert Holds(s);
      assert forall t :: t in sftps - {s} ==> Holds(t) && Disjoint(s, t);
      ghost var ds := s.Children();
      sftps := sftps - {s};
      o := s.ShutdownPopped(lib);
      assert forall d :: d in ds ==> d.handle == NULL && d.refs == old(d.refs) - 1;
      assert SftpsValid();
    }

    method ShutUntracked(lib: Library, s: Sftp) returns (ghost o: SftpOrder<Sftp, SftpHandle>)
      requires SftpsValid() && s !in sftps && s.Valid() && forall t :: t in sftps ==> Disjoint(s, t)
      modifies lib, s, s.Children()
      ensures SftpsValid() && s.sftp == NULL && s.refs == old(s.refs)
      ensures forall d :: d in old(s.Children()) ==> d.handle == NULL && d.refs == old(d.refs) - 1
      ensures o.s == s && Follows(o, old(s.view)) && lib.log == old(lib.log) + ShutdownCalls(o, old(s.view))
    {
      assert forall t :: t in sftps ==> Holds(t);
      o := s.Shutdown(lib);
    }

    /** sftp_shutdown: shuts the sftp down whichever session it belongs to. */
    method ShutdownSftp(lib: Library, s: Sftp) returns (ghost o: SftpOrder<Sftp, SftpHandle>)
      requires Valid() && s.Valid() && s.refs > (if s in sftps then 1 else 0) && forall t :: t in sftps ==>
        Disjoint(s, t)
      modifies lib, this`sftps, s, s.Children()
      ensures Valid() && sftps == old(sftps) - {s}
      ensures s.sftp == NULL && s.refs == old(s.refs) - (if s in old(sftps) then 1 else 0)
      ensures forall d :: d in old(s.Children()) ==> d.handle == NULL && d.refs == old(d.refs) - 1
      ensures o.s == s && Follows(o, old(s.view)) && lib.log == old(lib.log) + ShutdownCalls(o, old(s.view))
    {
      if s in sftps {
        o := ShutTracked(lib, s);
      } else {
        o := ShutUntracked(lib, s);
      }
    }

    /** Only the children of the popped sftp leave the session, and all of them do. */
    twostate lemma HandlesLeft(item: Sftp)
      requires old(SftpsValid()) && item in old(sftps) && sftps == old(sftps) - {item}
      requires forall s :: s in sftps ==> s.Children() == old(s.Children())
      ensures Handles() <= old(Handles())
      ensures forall d :: d in old(Handles()) && d !in Handles() ==> d in old(item.Children())
      ensures forall d :: d in Handles() ==> d !in old(item.Children())
    {
      forall d | d in old(Handles()) && d !in old(item.Children()) ensures d in Handles() {
        var s :| s in old(sftps) && d in old(s.Children());
        assert s in sftps && d in s.Children();
      }
      forall d | d in Handles() ensures d !in old(item.Children()) && d in old(Handles()) {
        var s :| s in sftps && d in s.Children();
        assert old(Disjoint(item, s));
      }
    }

    /** One turn of the first loop of Session_close. */
    method PopSftp(lib: Library) returns (item: Sftp, ghost o: SftpOrder<Sftp, SftpHandle>)
      requires SftpsValid() && sftps != {}
      modifies lib, this`sftps, sftps, Handles()
      ensures SftpsValid() && item in old(sftps) && sftps == old(sftps) - {item} && o.s == item
      ensures item.sftp == NULL && item.refs == old(item.refs) - 1
      ensures Follows(o, old(item.view)) && lib.log == old(lib.log) + ShutdownCalls(o, old(item.view))
      ensures forall s :: s in sftps ==> s.view == old(s.view) && s.refs == old(s.refs)
      ensures Handles() <= old(Handles()) && forall d :: d in Handles() ==> unchanged(d)
      ensures forall d :: d in old(Handles()) && d !in Handles() ==> d.handle == NULL && d.refs == old(d.refs) - 1
    {
      item :| item in sftps;
      assert forall d :: d in item.Children() ==> d in Handles();
      o := ShutTracked(lib, item);
      HandlesLeft(item);
    }

    method TurnSftps(lib: Library, ghost v: map<Sftp, SftpView<SftpHandle>>, ghost log0: Log,
      ghost order: seq<SftpOrder<Sftp, SftpHandle>>)
      returns (ghost order': seq<SftpOrder<Sftp, SftpHandle>>)
      requires SftpsValid() && Unpopped(v) && sftps != {} && SftpsTraced(order, v, sftps, log0, lib.log)
      modifies lib, this`sftps, sftps, Handles()
      ensures SftpsValid() && Unpopped(v) && SftpsTraced(order', v, sftps, log0, lib.log) && sftps < old(sftps)
      ensures Handles() <= old(Handles()) && forall d :: d in Handles() ==> unchanged(d)
      ensures forall d :: d in old(Handles()) && d !in Handles() ==> d.handle == NULL && d.refs == old(d.refs) - 1
      ensures forall s :: s in old(sftps) ==> s.refs == old(s.refs) - (if s in sftps then 0 else 1)
    {
      ghost var item, o := PopSftp(lib);
      order' := order + [o];
      SftpsTracedAppend(order, v, sftps, log0, old(lib.log), o);
    }

    method ShutSftps(lib: Library) returns (ghost order: seq<SftpOrder<Sftp, SftpHandle>>)
      requires SftpsValid()
      modifies lib, this`sftps, sftps, Handles()
      ensures sftps == {} && SftpsTraced(order, old(SftpViews()), {}, old(lib.log), lib.log)
      ensures forall s :: s in old(sftps) ==> s.sftp == NULL && s.refs == old(s.refs) - 1
      ensures forall d :: d in old(Handles()) ==> d.handle == NULL && d.refs == old(d.refs) - 1
    {
      ghost var v := SftpViews();
      order := [];
      while sftps != {}
        invariant SftpsValid() && Unpopped(v) && SftpsTraced(order, v, sftps, old(lib.log), lib.log)
        invariant Handles() <= old(Handles()) && forall d :: d in Handles() ==> unchanged(d)
        invariant forall d :: d in old(Handles()) && d !in Handles() ==> d.handle == NULL && d.refs == old(d.refs) - 1
        invariant forall s :: s in old(sftps) ==> s.refs == old(s.refs) - (if s in sftps then 0 else 1)
        decreases sftps
      {
        order := TurnSftps(lib, v, old(lib.log), order);
      }
    }

    /** The first loop of Session_close; channels and listeners stay as they are. */
    method CloseSftps(lib: Library) returns (ghost order: seq<SftpOrder<Sftp, SftpHandle>>)
      requires SftpsValid()
      modifies lib, this`sftps, sftps, Handles()
      ensures sftps == {} && SftpsTraced(order, old(SftpViews()), {}, old(lib.log), lib.log)
      ensures forall s :: s in old(sftps) ==> s.sftp == NULL && s.refs == old(s.refs) - 1
      ensures forall d :: d in old(Handles()) ==> d.handle == NULL && d.refs == old(d.refs) - 1
      ensures ChannelCalls() == old(ChannelCalls()) && ListenerCalls() == old(ListenerCalls())
    {
      order := ShutSftps(lib);
    }

    /** One turn of the second loop. */
    method PopChannel(lib: Library) returns (item: Channel)
      requires ChannelsValid() && channels != {}
      modifies lib, this`channels, channels
      ensures item in old(channels) && channels == old(channels) - {item} && forall c :: c in channels ==> unchanged(c)
      ensures item.channel == NULL && item.refs == old(item.refs) - 1 && lib.log == old(lib.log) + old(item.Calls())
    {
      item :| item in channels;
      channels := channels - {item};
      item.ClosePopped(lib);
    }

    method CloseChannels(lib: Library) returns (ghost order: seq<Channel>)
      requires ChannelsValid()
      modifies lib, this`channels, channels
      ensures channels == {} && Traced(order, old(ChannelCalls()), {}, old(lib.log), lib.log)
      ensures forall c :: c in old(channels) ==> c.channel == NULL && c.refs == old(c.refs) - 1
    {
      ghost var calls := ChannelCalls();
      order := [];
      while channels != {}
        invariant channels <= calls.Keys && Traced(order, calls, channels, old(lib.log), lib.log)
        invariant forall c :: c in channels ==> unchanged(c)
        invariant forall c :: c in calls && c !in channels ==> c.channel == NULL && c.refs == old(c.refs) - 1
        decreases |channels|
      {
        ghost var log := lib.log;
        ghost var item := PopChannel(lib);
        TracedAppend(order, calls, channels, old(lib.log), log, item);
        order := order + [item];
      }
    }

    /** One turn of the third loop: a listener is not closed, only dropped. */
    method PopListener(lib: Library) returns (item: Listener)
      requires ListenersValid() && listeners != {}
      modifies lib, this`listeners, listeners
      ensures item in old(listeners) && listeners == old(listeners) - {item} && forall l :: l in listeners ==>
        unchanged(l)
      ensures item.refs == old(item.refs) - 1 && item.listener == if item.refs == 0 then NULL else old(item.listener)
      ensures lib.log == old(lib.log) + old(item.LastCalls())
    {
      item :| item in listeners;
      listeners := listeners - {item};
      item.DecRef(lib);
    }

    method DropListeners(lib: Library) returns (ghost order: seq<Listener>)
      requires ListenersValid()
      modifies lib, this`listeners, listeners
      ensures listeners == {} && Traced(order, old(ListenerCalls()), {}, old(lib.log), lib.log)
      ensures forall l :: l in old(listeners) ==>
        l.refs == old(l.refs) - 1 && l.listener == if l.refs == 0 then NULL else old(l.listener)
    {
      ghost var calls := ListenerCalls();
      order := [];
      while listeners != {}
        invariant listeners <= calls.Keys && Traced(order, calls, listeners, old(lib.log), lib.log)
        invariant forall l :: l in listeners ==> unchanged(l)
        invariant forall l :: l in calls && l !in listeners ==>
          l.refs == old(l.refs) - 1 && l.listener == if l.refs == 0 then NULL else old(l.listener)
        decreases |listeners|
      {
        ghost var log := lib.log;
        ghost var item := PopListener(lib);
        TracedAppend(order, calls, listeners, old(lib.log), log, item);
        order := order + [item];
      }
    }

    /** The second and third loop of Session_close. */
    method CloseOthers(lib: Library) returns (ghost co: seq<Channel>, ghost lo: seq<Listener>)
      requires ChannelsValid() && ListenersValid()
      modifies lib, this`channels, this`listeners, channels, listeners
      ensures channels == {} && listeners == {} && Lists(co, old(ChannelCalls()).Keys)
      ensures Lists(lo, old(ListenerCalls()).Keys)
      ensures lib.log == old(lib.log) + CallsOf(co, old(ChannelCalls())) + CallsOf(lo, old(ListenerCalls()))
      ensures forall c :: c in old(channels) ==> c.channel == NULL && c.refs == old(c.refs) - 1
      ensures forall l :: l in old(listeners) ==>
        l.refs == old(l.refs) - 1 && l.listener == if l.refs == 0 then NULL else old(l.listener)
    {
      ghost var cc, lc := ChannelCalls(), ListenerCalls();
      co := CloseChannels(lib);
      assert ListenerCalls() == lc;
      lo := DropListeners(lib);
      assert cc.Keys - {} == cc.Keys && lc.Keys - {} == lc.Keys;
    }

    ghost function View(): SessionView<Sftp, SftpHandle, Channel, Listener>
      reads this, sftps, channels, listeners
    {
      SessionView(session, SftpViews(), ChannelCalls(), ListenerCalls())
    }

    /** The three loops of Session_close, up to the goodbye. */
    method CloseAll(lib: Library) returns (ghost o: CloseOrder<Sftp, SftpHandle, Channel, Listener>)
      requires Valid()
      modifies lib, this`sftps, this`channels, this`listeners, sftps, channels, listeners, Handles()
      ensures sftps == {} && channels == {} && listeners == {} && PopsAll(o, old(View()))
      ensures lib.log + [Disconnect(session)] == old(lib.log) + LoopTrace(o, old(View()))
      ensures forall s :: s in old(sftps) ==> s.sftp == NULL && s.refs == old(s.refs) - 1
      ensures forall d :: d in old(Handles()) ==> d.handle == NULL && d.refs == old(d.refs) - 1
      ensures forall c :: c in old(channels) ==> c.channel == NULL && c.refs == old(c.refs) - 1
      ensures forall l :: l in old(listeners) ==>
        l.refs == old(l.refs) - 1 && l.listener == if l.refs == 0 then NULL else old(l.listener)
    {
      ghost var v := View();
      ghost var so := CloseSftps(lib);
      ghost var co, lo := CloseOthers(lib);
      o := CloseOrder(so, co, lo);
      LoopTraceParts(old(lib.log), o, v);
    }

    /** Session_close; `answer` is what libssh2_session_disconnect returns. */
    method Close(lib: Library, answer: int) returns (rc: int, ghost o: CloseOrder<Sftp, SftpHandle, Channel, Listener>)
      requires Valid()
      modifies lib, this, sftps, channels, listeners, Handles()
      ensures Valid() && session == old(session) && !isOpen && rc == if old(isOpen) then answer else 0
      ensures !old(isOpen) ==>
        lib.log == old(lib.log) && sftps == old(sftps) && channels == old(channels) && listeners == old(listeners)
      ensures old(isOpen) ==> sftps == {} && channels == {} && listeners == {}
      ensures old(isOpen) ==> PopsAll(o, old(View())) && lib.log == old(lib.log) + CloseTrace(o, old(View()))
      ensures old(isOpen) ==> forall s :: s in old(sftps) ==> s.sftp == NULL && s.refs == old(s.refs) - 1
      ensures old(isOpen) ==> forall d :: d in old(Handles()) ==> d.handle == NULL && d.refs == old(d.refs) - 1
      ensures old(isOpen) ==> forall c :: c in old(channels) ==> c.channel == NULL && c.refs == old(c.refs) - 1
      ensures old(isOpen) ==> forall l :: l in old(listeners) ==>
        l.refs == old(l.refs) - 1 && l.listener == if l.refs == 0 then NULL else old(l.listener)
    {
      rc, o := 0, CloseOrder([], [], []);
      if isOpen {
        o := CloseAll(lib);
        lib.log := lib.log + [Disconnect(session)];
        lib.log := lib.log + [Back(session)];
        isOpen := false;
        rc := answer;
      }
    }

    /** PYLIBSSH2_Session_dealloc: an open session is closed first, by the trace that
        `Close` has; the handle goes last. */
    method Dealloc(lib: Library, answer: int) returns (ghost o: CloseOrder<Sftp, SftpHandle, Channel, Listener>)
      requires Valid()
      modifies lib, this, sftps, channels, listeners, Handles()
      ensures session == NULL && (old(session) == NULL ==> lib.log == old(lib.log))
      ensures old(session) != NULL && !old(isOpen) ==> lib.log == old(lib.log) + [SessionFree(old(session))]
      ensures old(session) != NULL && old(isOpen) ==>
        PopsAll(o, old(View())) && lib.log == old(lib.log) + CloseTrace(o, old(View())) + [SessionFree(old(session))]
      ensures old(session) != NULL && old(isOpen) ==> !isOpen && sftps == {} && channels == {} && listeners == {}
      ensures old(session) != NULL && old(isOpen) ==> forall s :: s in old(sftps) ==>
        s.sftp == NULL && s.refs == old(s.refs) - 1
      ensures old(session) != NULL && old(isOpen) ==> forall d :: d in old(Handles()) ==>
        d.handle == NULL && d.refs == old(d.refs) - 1
      ensures old(session) != NULL && old(isOpen) ==> forall c :: c in old(channels) ==>
        c.channel == NULL && c.refs == old(c.refs) - 1
      ensures old(session) != NULL && old(isOpen) ==>
        forall l :: l in old(listeners) ==>
            l.refs == old(l.refs) - 1 && l.listener == if l.refs == 0 then NULL else old(l.listener)
    {
      o := CloseOrder([], [], []);
      if session != NULL {
        if isOpen {
          var rc;
          rc, o := Close(lib, answer);
        }
        lib.log := lib.log + [SessionFree(session)];
        session := NULL;
      }
    }
  }
}
