/** `Sftp.put`, `Sftp.get` and `Sftp.copy_file` against a server that keeps files as
    section 6.3 of draft-ietf-secsh-filexfer-02 describes and may take or give any
    part of what it is offered or asked for. */
module Transfer {
  import opened Streams
  import opened ScpSend
  import opened Draining
  import opened Options
  import Flags

  type Path = string
  type Files = map<Path, Bytes>

  const BUFFER_SIZE: nat := 4096
  const READ_SIZE: Size := 1024

  /** What opening a path does to the server's files; None: refused. */
  function OpenFiles(files: Files, path: Path, f: Flags.Mask): Option<Files> {
    if path !in files then
      if Flags.Has(f, Flags.CREAT) then Some(files[path := []]) else None
    else if Flags.Has(f, Flags.CREAT) && Flags.Has(f, Flags.EXCL) then None
    else if Flags.Has(f, Flags.TRUNC) then Some(files[path := []])
    else Some(files)
  }

  /** Mode "w" never fails for lack or presence of the file and starts it empty; mode
      "r" changes nothing and needs the file. */
  lemma OpenModes(files: Files, path: Path)
    ensures OpenFiles(files, path, Flags.FlagsOf("w")) == Some(files[path := []])
    ensures OpenFiles(files, path, Flags.FlagsOf("r")) == if path in files then Some(files) else None
  {
    Flags.FlagsMeaning("w");
    Flags.FlagsMeaning("r");
  }

  /** Mode "a" needs the file, because it does not ask for its creation; mode "x" needs
      that it is not there. */
  lemma OtherModes(files: Files, path: Path)
    ensures OpenFiles(files, path, Flags.FlagsOf("a")) == if path in files then Some(files) else None
    ensures OpenFiles(files, path, Flags.FlagsOf("x")) == if path in files then None else Some(files[path := []])
  {
    Flags.FlagsMeaning("a");
    Flags.FlagsMeaning("x");
  }

  /** Bytes written at an offset replace what is there and may extend the file. */
  function WriteAt(content: Bytes, offset: nat, data: Bytes): Bytes
    requires offset <= |content|
  {
    content[..offset] + data + (if offset + |data| < |content| then content[offset + |data|..] else [])
  }

  lemma WriteAtBytes(content: Bytes, offset: nat, data: Bytes, i: nat)
    requires offset <= |content|
    ensures var r := WriteAt(content, offset, data);
      && |r| == (if offset + |data| < |content| then |content| else offset + |data|)
      && (i < |r| ==> r[i] == if offset <= i < offset + |data| then data[i - offset] else content[i])
  {
  }

  /** The loop of `put`: every chunk is offered once, whatever the answer. */
  function Store(data: Bytes, schedule: seq<int>): Sent
    decreases |schedule|
  {
    if data == [] then Sent(Done, [])
    else if schedule == [] then Sent(Pending, [])
    else if schedule[0] < 0 then Sent(Raised, [])
    else
      var c := Head(data, BUFFER_SIZE);
      var r := Store(Tail(data, BUFFER_SIZE), schedule[1..]);
      Sent(r.outcome, c[..Min(schedule[0], |c|)] + r.delivered)
  }

  /** The accepted prefixes of chunks. */
  function Accepted(chunks: seq<Bytes>, schedule: seq<int>): (r: seq<Bytes>)
    requires |chunks| <= |schedule| && forall i :: 0 <= i < |chunks| ==> schedule[i] >= 0
    ensures |r| == |chunks|
    ensures forall i :: 0 <= i < |chunks| ==>
      r[i] == if schedule[i] < |chunks[i]| then chunks[i][..schedule[i]] else chunks[i]
  {
    seq(|chunks|, i requires 0 <= i < |chunks| => chunks[i][..Min(schedule[i], |chunks[i]|)])
  }

  /** `put`, on every schedule: of the `n` chunks it gets to offer it leaves the accepted
      prefixes, one after the other. It ends if that is all of them, raises if the next
      write does, and is still waiting if there is no next write. */
  lemma {:induction false} StoreAccepted(data: Bytes, schedule: seq<int>, n: nat)
    requires n <= |Chunks(data, BUFFER_SIZE)| && n <= |schedule| && forall i :: 0 <= i < n ==> schedule[i] >= 0
    requires n == |Chunks(data, BUFFER_SIZE)| || n == |schedule| || schedule[n] < 0
    ensures var cs := Chunks(data, BUFFER_SIZE);
      Store(data, schedule) ==
        Sent(if n == |cs| then Done else if n == |schedule| then Pending else Raised,
             Concat(Accepted(cs[..n], schedule)))
    decreases n
  {
    if n > 0 {
      var cs, ts := Chunks(data, BUFFER_SIZE), Chunks(Tail(data, BUFFER_SIZE), BUFFER_SIZE);
      assert cs == [Head(data, BUFFER_SIZE)] + ts && cs[..n] == [cs[0]] + ts[..n - 1];
      StoreAccepted(Tail(data, BUFFER_SIZE), schedule[1..], n - 1);
      AcceptedStep(cs[0], ts[..n - 1], schedule);
    }
  }

  lemma AcceptedStep(c: Bytes, cs: seq<Bytes>, schedule: seq<int>)
    requires |cs| < |schedule| && forall i :: 0 <= i <= |cs| ==> schedule[i] >= 0
    ensures forall i :: 0 <= i < |cs| ==> schedule[1..][i] >= 0
    ensures Concat(Accepted([c] + cs, schedule)) == c[..Min(schedule[0], |c|)] + Concat(Accepted(cs, schedule[1..]))
  {
    assert c[..|c|] == c;
    AcceptedTail(c, cs, schedule);
  }

  lemma AcceptedTail(c: Bytes, cs: seq<Bytes>, schedule: seq<int>)
    requires |cs| < |schedule| && forall i :: 0 <= i <= |cs| ==> schedule[i] >= 0
    ensures forall i :: 0 <= i < |cs| ==> schedule[1..][i] >= 0
    ensures Accepted([c] + cs, schedule)[1..] == Accepted(cs, schedule[1..])
  {
    var r, r' := Accepted([c] + cs, schedule)[1..], Accepted(cs, schedule[1..]);
    forall i | 0 <= i < |cs| ensures r[i] == r'[i] {
      assert r[i] == Accepted([c] + cs, schedule)[i + 1] && ([c] + cs)[i + 1] == cs[i];
    }
  }

  lemma {:induction false} StoreShorter(data: Bytes, schedule: seq<int>)
    ensures |Store(data, schedule).delivered| <= |data|
    decreases |schedule|
  {
    if data != [] && schedule != [] && schedule[0] >= 0 {
      StoreShorter(Tail(data, BUFFER_SIZE), schedule[1..]);
    }
  }

  /** It is the source exactly when every write was full. */
  lemma {:induction false} StoreWholeIff(data: Bytes, schedule: seq<int>)
    ensures Store(data, schedule) == Sent(Done, data) <==> FullWrites(data, BUFFER_SIZE, schedule)
    decreases |schedule|
  {
    if data != [] && schedule != [] {
      var c, t := Head(data, BUFFER_SIZE), Tail(data, BUFFER_SIZE);
      FullWritesStep(data, BUFFER_SIZE, schedule);
      StoreWholeIff(t, schedule[1..]);
      StoreShorter(t, schedule[1..]);
      var d := Store(t, schedule[1..]).delivered;
      assert data == c + t;
      if schedule[0] >= |c| {
        assert c[..|c|] == c;
        assert (c + d)[|c|..] == d;
      } else if schedule[0] >= 0 {
        assert |Store(data, schedule).delivered| < |data|;
      }
    }
  }

  /** `put` then `get`: the original comes back exactly when every write was full and
      the reads were not interrupted. */
  lemma PutGet(data: Bytes, writes: seq<int>, gives: seq<int>)
    requires Store(data, writes).outcome == Done
    ensures Drain(Store(data, writes).delivered, BUFFER_SIZE, gives) == Sent(Done, data)
       <==> FullWrites(data, BUFFER_SIZE, writes) && Allowance(gives, BUFFER_SIZE) >= |data|
  {
    var remote := Store(data, writes).delivered;
    StoreWholeIff(data, writes);
    StoreShorter(data, writes);
    DrainWholeIff(remote, BUFFER_SIZE, gives);
    DrainExact(remote, BUFFER_SIZE, gives);
    if Drain(remote, BUFFER_SIZE, gives) == Sent(Done, data) {
      assert remote[..|remote|] == remote;
      assert |remote| == |data|;
    }
  }

  /** The run `all` has left `done` on the server, with `left` to come. */
  predicate Leaves(all: Sent, done: Bytes, left: Sent) {
    all.outcome == left.outcome && all.delivered == done + left.delivered
  }

  lemma StoreStep(all: Sent, done: Bytes, data: Bytes, schedule: seq<int>)
    requires data != [] && schedule != [] && schedule[0] >= 0 && Leaves(all, done, Store(data, schedule))
    ensures var c := Head(data, BUFFER_SIZE);
      Leaves(all, done + c[..Min(schedule[0], |c|)], Store(Tail(data, BUFFER_SIZE), schedule[1..]))
  {
    var c := Head(data, BUFFER_SIZE);
    var r := Store(Tail(data, BUFFER_SIZE), schedule[1..]);
    assert done + (c[..Min(schedule[0], |c|)] + r.delivered) == (done + c[..Min(schedule[0], |c|)]) + r.delivered;
  }

  lemma StoreEnd(all: Sent, done: Bytes, data: Bytes, schedule: seq<int>)
    requires Leaves(all, done, Store(data, schedule))
    ensures data == [] ==> all == Sent(Done, done)
    ensures data != [] && schedule == [] ==> all == Sent(Pending, done)
    ensures data != [] && schedule != [] && schedule[0] < 0 ==> all == Sent(Raised, done)
  {
    assert done + [] == done;
  }

  /** What `copy_file` leaves on the server once both files are open, and how it ends:
      everything it could read is offered in a single write. */
  function Copied(files: Files, src: Path, dst: Path, gives: seq<int>, writes: seq<int>): (Outcome, Files)
    requires src in files
  {
    var emptied := files[dst := []];
    var r := Drain(emptied[src], READ_SIZE, gives);
    if r.outcome == Pending || writes == [] then (Pending, emptied)
    else if writes[0] < 0 then (Raised, emptied)
    else (Done, emptied[dst := r.delivered[..Min(writes[0], |r.delivered|)]])
  }

  /** A copy that ends has the source's content exactly when that is empty, or it goes
      to another path and both the reads and the one write are complete. The other
      paths, and a source that is not also the destination, are unchanged. */
  lemma CopyIff(files: Files, src: Path, dst: Path, gives: seq<int>, writes: seq<int>)
    requires src in files && Copied(files, src, dst, gives, writes).0 == Done
    ensures var after := Copied(files, src, dst, gives, writes).1;
      && (after[dst] == files[src] <==>
          (files[src] == [] || (src != dst && Allowance(gives, READ_SIZE) >= |files[src]|
              && writes[0] >= |files[src]|)))
      && after - {dst} == files - {dst}
  {
    var data := files[dst := []][src];
    DrainExact(data, READ_SIZE, gives);
    var n := Min(Allowance(gives, READ_SIZE), |data|);
    assert data[..n][..Min(writes[0], n)] == data[..Min(writes[0], n)];
    assert data[..|data|] == data;
    assert Copied(files, src, dst, gives, writes).1[dst] == data[..Min(writes[0], n)];
  }

  /** How a copy ends: it waits if the reads do or there is no write, raises if the write
      does. The reads find nothing to wait for if both paths are the same. */
  lemma CopyEnds(files: Files, src: Path, dst: Path, gives: seq<int>, writes: seq<int>)
    requires src in files
    ensures Copied(files, src, dst, gives, writes).0 ==
      if writes == [] then Pending
      else if src != dst && Allowance(gives, READ_SIZE) < |files[src]| && AllPositive(gives) then Pending
      else if writes[0] < 0 then Raised
      else Done
  {
    DrainExact(files[dst := []][src], READ_SIZE, gives);
  }

  /** What it leaves, exactly, also when it is not complete: what the one write took of
      what was read; nothing if both paths are the same, or if it does not end. */
  lemma CopyLeaves(files: Files, src: Path, dst: Path, gives: seq<int>, writes: seq<int>)
    requires src in files
    ensures var (outcome, after) := Copied(files, src, dst, gives, writes);
      && (outcome != Done || src == dst ==> after == files[dst := []])
      && (outcome == Done ==> writes != [] && writes[0] >= 0)
      && (outcome == Done && src != dst ==>
            after == files[dst := files[src][..Min(writes[0], Min(Allowance(gives, READ_SIZE), |files[src]|))]])
  {
    var data := files[dst := []][src];
    DrainExact(data, READ_SIZE, gives);
    var n := Min(Allowance(gives, READ_SIZE), |data|);
    if writes != [] && writes[0] >= 0 {
      TakenTwice(data, n, Min(writes[0], n));
    }
  }

  lemma TakenTwice(data: Bytes, n: nat, m: nat)
    requires m <= n <= |data|
    ensures data[..n][..m] == data[..m]
  {
  }

  /** What a full disk has stored of the run `all` when the next piece no longer fits. */
  lemma CollectPrefix(all: Sent, whole: Bytes, buf: Bytes, next: Bytes, data: Bytes, max: Size, schedule: seq<int>,
    room: nat)
    requires |buf| <= room < |buf| + |next| && Collects(all, whole, buf + next, data, max, schedule)
    ensures |all.delivered| > room && Head(all.delivered, room) == buf + Head(next, room - |buf|)
  {
  }

  class SftpFile {
    const path: Path
    const flags: Flags.Mask
    var offset: nat

    constructor (p: Path, f: Flags.Mask)
      ensures path == p && flags == f && offset == 0
    {
      path, flags, offset := p, f, 0;
    }
  }

  /** The sftp wrapper, the server behind it (`files`) and the local disk. The two
      schedules say what the coming writes take and the coming reads give; paths in
      `denied` cannot be opened remotely, those in `sealed` cannot be written locally,
      and the local disk has `room` for so many more bytes. */
  class Sftp {
    const denied: set<Path>
    const sealed: set<Path>
    var files: Files
    var disk: Files
    var writes: seq<int>
    var gives: seq<int>
    var handles: nat
    var room: nat

    constructor (d: set<Path>, l: set<Path>, remote: Files, local: Files, w: seq<int>, g: seq<int>, r: nat)
      ensures denied == d && sealed == l && files == remote && disk == local
      ensures writes == w && gives == g && handles == 0 && room == r
    {
      denied, sealed, files, disk, writes, gives, handles, room := d, l, remote, local, w, g, 0, r;
    }

    predicate CanOpen(path: Path, mode: string)
      reads this
    {
      path !in denied && OpenFiles(files, path, Flags.FlagsOf(mode)).Some?
    }

    method OpenFile(path: Path, mode: string) returns (f: SftpFile?)
      modifies this`files, this`handles
      ensures f != null <==> old(CanOpen(path, mode))
      ensures f == null ==> files == old(files) && handles == old(handles)
      ensures f != null ==> fresh(f) && f.path == path && f.flags == Flags.FlagsOf(mode) && f.offset == 0
      ensures f != null ==>
        Some(files) == OpenFiles(old(files), path, Flags.FlagsOf(mode)) && handles == old(handles) + 1
    {
      var flags := Flags.GetFlags(mode);
      var r := OpenFiles(files, path, flags);
      if path in denied || r == None {
        return null;
      }
      files := r.value;
      handles := handles + 1;
      f := new SftpFile(path, flags);
    }

    method CloseFile(f: SftpFile)
      requires handles > 0
      modifies this`handles
      ensures handles == old(handles) - 1
    {
      handles := handles - 1;
    }

    /** One write at the handle's offset: the count taken, or that it raised. */
    method Write(f: SftpFile, buf: Bytes) returns (written: nat, raised: bool)
      requires writes != [] && f.path in files && f.offset <= |files[f.path]|
      modifies this`files, this`writes, f`offset
      ensures writes == old(writes)[1..]
      ensures raised == (old(writes)[0] < 0 || !Flags.Has(f.flags, Flags.WRITE))
      ensures raised ==> files == old(files) && f.offset == old(f.offset)
      ensures !raised ==> written == Min(old(writes)[0], |buf|) && f.offset == old(f.offset) + written
      ensures !raised ==> files == old(files)[f.path := WriteAt(old(files[f.path]), old(f.offset), buf[..written])]
    {
      var e := writes[0];
      writes := writes[1..];
      if e < 0 || !Flags.Has(f.flags, Flags.WRITE) {
        return 0, true;
      }
      written, raised := Min(e, |buf|), false;
      files := files[f.path := WriteAt(files[f.path], f.offset, buf[..written])];
      f.offset := f.offset + written;
    }

    /** One read at the handle's offset: None if it fails, or the handle was not opened
        for reading; the empty string at the end of the file. */
    method Read(f: SftpFile, max: Size) returns (buf: Option<Bytes>)
      requires gives != [] && f.path in files && f.offset <= |files[f.path]|
      modifies this`gives, f`offset
      ensures gives == old(gives)[1..]
      ensures buf == None <==> old(gives)[0] < 0 || !Flags.Has(f.flags, Flags.READ)
      ensures buf == None ==> f.offset == old(f.offset)
      ensures buf != None ==>
        var data := files[f.path][old(f.offset)..];
        buf.value == data[..ReadCount(old(gives)[0], max, data)] && f.offset == old(f.offset) + |buf.value|
    {
      var data := files[f.path][f.offset..];
      var e := gives[0];
      gives := gives[1..];
      if e < 0 || !Flags.Has(f.flags, Flags.READ) {
        return None;
      }
      buf := Some(data[..ReadCount(e, max, data)]);
      f.offset := f.offset + |buf.value|;
    }

    /** `SftpFile.read(-1)`: reads from the offset on until one gives nothing, be it None
        or empty. */
    method ReadAll(f: SftpFile) returns (outcome: Outcome, buf: Bytes)
      requires f.path in files && f.offset <= |files[f.path]| && Flags.Has(f.flags, Flags.READ)
      modifies this`gives, f`offset
      ensures Sent(outcome, buf) == Drain(files[f.path][old(f.offset)..], READ_SIZE, old(gives))
      ensures f.offset == old(f.offset) + |buf| <= |files[f.path]|
    {
      buf := [];
      ghost var whole := files[f.path][f.offset..];
      ghost var all := Drain(whole, READ_SIZE, gives);
      while true
        invariant f.offset == old(f.offset) + |buf| <= |files[f.path]|
        invariant Collects(all, whole, buf, files[f.path][f.offset..], READ_SIZE, gives)
        decreases |gives|
      {
        ghost var data, q := files[f.path][f.offset..], gives;
        CollectEnd(all, whole, buf, data, READ_SIZE, q);
        if f.offset == |files[f.path]| {
          return Done, buf;
        }
        if gives == [] {
          return Pending, buf;
        }
        CollectStep(all, whole, buf, data, READ_SIZE, q);
        var next := Read(f, READ_SIZE);
        if next == None || next.value == [] {
          return Done, buf;
        }
        buf := buf + next.value;
        assert files[f.path][f.offset..] == data[|next.value|..];
      }
    }

    /** One write to a local file; one that does not fit stores what does and raises. */
    method WriteLocal(path: Path, buf: Bytes) returns (raised: bool)
      requires path in disk
      modifies this`disk, this`room
      ensures raised <==> |buf| > old(room)
      ensures !raised ==> disk == old(disk)[path := old(disk[path]) + buf] && room == old(room) - |buf|
      ensures raised ==> disk == old(disk)[path := old(disk[path]) + Head(buf, old(room))] && room == 0
    {
      if |buf| <= room {
        disk, room := disk[path := disk[path] + buf], room - |buf|;
        return false;
      }
      disk, room := disk[path := disk[path] + Head(buf, room)], 0;
      return true;
    }

    /** `Sftp.put` */
    method Put(src: Path, dst: Path) returns (outcome: Outcome)
      modifies this
      ensures disk == old(disk)
      ensures src !in disk || dst in denied ==> outcome == Raised && files == old(files) && handles == old(handles)
      ensures src in disk && dst !in denied ==>
        && files == old(files)[dst := Store(disk[src], old(writes)).delivered]
        && outcome == Store(disk[src], old(writes)).outcome
        && handles == old(handles) + (if outcome == Done then 0 else 1)
    {
      if src !in disk {
        return Raised;
      }
      OpenModes(files, dst);
      Flags.FlagsMeaning("w");
      var f := OpenFile(dst, "w");
      if f == null {
        return Raised;
      }
      outcome := PutLoop(f, disk[src]);
      if outcome == Done {
        CloseFile(f);
      }
    }

    method PutLoop(f: SftpFile, data: Bytes) returns (outcome: Outcome)
      requires f.path in files && files[f.path] == [] && f.offset == 0 && Flags.Has(f.flags, Flags.WRITE)
      modifies this`files, this`writes, f`offset
      ensures f.path in files && Sent(outcome, files[f.path]) == Store(data, old(writes))
      ensures files == old(files)[f.path := files[f.path]]
    {
      var rest := data;
      ghost var all := Store(data, writes);
      ghost var done: Bytes := [];
      while rest != []
        invariant f.offset == |done| && files == old(files)[f.path := done]
        invariant Leaves(all, done, Store(rest, writes))
        decreases |writes|
      {
        StoreEnd(all, done, rest, writes);
        if writes == [] {
          return Pending;
        }
        var buffer := Head(rest, BUFFER_SIZE);
        if writes[0] >= 0 {
          StoreStep(all, done, rest, writes);
        }
        var n, raised := Write(f, buffer);
        if raised {
          return Raised;
        }
        assert WriteAt(done, |done|, buffer[..n]) == done + buffer[..n];
        done := done + buffer[..n];
        rest := Tail(rest, BUFFER_SIZE);
      }
      StoreEnd(all, done, rest, writes);
      return Done;
    }

    /** `Sftp.get`: the remote file is opened for reading before the local one is
        emptied; a read that fails ends the loop as if the file had ended there; a local
        write that fails raises and leaves the remote handle open. */
    method Get(src: Path, dst: Path) returns (outcome: Outcome)
      modifies this
      ensures files == old(files)
      ensures src !in files || src in denied ==> outcome == Raised && disk == old(disk) && handles == old(handles)
      ensures src in files && src !in denied && dst in sealed ==>
        outcome == Raised && disk == old(disk) && handles == old(handles) + 1
      ensures src in files && src !in denied && dst !in sealed ==>
        var r := Drain(files[src], BUFFER_SIZE, old(gives));
        && disk == old(disk)[dst := Head(r.delivered, old(room))]
        && outcome == (if |r.delivered| > old(room) then Raised else r.outcome)
        && handles == old(handles) + (if outcome == Done then 0 else 1)
    {
      OpenModes(files, src);
      Flags.FlagsMeaning("r");
      var f := OpenFile(src, "r");
      if f == null || dst in sealed {
        return Raised;
      }
      assert files[src][0..] == files[src];
      disk := disk[dst := []];
      outcome := GetLoop(f, dst);
      if outcome == Done {
        CloseFile(f);
      }
    }

    /** The loop of `get`. */
    method GetLoop(f: SftpFile, dst: Path) returns (outcome: Outcome)
      requires f.path in files && f.offset == 0 && Flags.Has(f.flags, Flags.READ) && dst in disk && disk[dst] == []
      modifies this`gives, this`disk, this`room, f`offset
      ensures var r := Drain(files[f.path][0..], BUFFER_SIZE, old(gives));
        && disk == old(disk)[dst := Head(r.delivered, old(room))]
        && outcome == (if |r.delivered| > old(room) then Raised else r.outcome)
    {
      ghost var whole := files[f.path][0..];
      ghost var got: Bytes := [];
      ghost var all := Drain(whole, BUFFER_SIZE, gives);
      while true
        invariant f.offset == |got| <= |files[f.path]| && room + |got| == old(room) && disk == old(disk)[dst := got]
        invariant Collects(all, whole, got, files[f.path][f.offset..], BUFFER_SIZE, gives)
        decreases |gives|
      {
        ghost var data, q := files[f.path][f.offset..], gives;
        CollectEnd(all, whole, got, data, BUFFER_SIZE, q);
        assert Head(got, old(room)) == got;
        if f.offset == |files[f.path]| {
          return Done;
        }
        if gives == [] {
          return Pending;
        }
        CollectStep(all, whole, got, data, BUFFER_SIZE, q);
        var next := Read(f, BUFFER_SIZE);
        if next == None || next.value == [] {
          return Done;
        }
        assert files[f.path][f.offset..] == data[|next.value|..];
        var raised := WriteLocal(dst, next.value);
        if raised {
          CollectPrefix(all, whole, got, next.value, files[f.path][f.offset..], BUFFER_SIZE, gives, old(room));
          return Raised;
        }
        got := got + next.value;
      }
    }

    /** `Sftp.copy_file` */
    method CopyFile(src: Path, dst: Path) returns (outcome: Outcome)
      modifies this
      ensures disk == old(disk)
      ensures src !in old(files) || src in denied ==>
        outcome == Raised && files == old(files) && handles == old(handles)
      ensures src in old(files) && src !in denied && dst in denied ==>
        outcome == Raised && files == old(files) && handles == old(handles) + 1
      ensures src in old(files) && src !in denied && dst !in denied ==>
        && (outcome, files) == Copied(old(files), src, dst, old(gives), old(writes))
        && handles == old(handles) + (if outcome == Done then 0 else 2)
    {
      OpenModes(files, src);
      Flags.FlagsMeaning("w");
      Flags.FlagsMeaning("r");
      var f := OpenFile(src, "r");
      if f == null {
        return Raised;
      }
      OpenModes(files, dst);
      var g := OpenFile(dst, "w");
      if g == null {
        return Raised;
      }
      assert files[src][0..] == files[src];
      var r, data := ReadAll(f);
      if r == Pending || writes == [] {
        return Pending;
      }
      DrainExact(files[src], READ_SIZE, old(gives));
      var n, raised := Write(g, data);
      if raised {
        return Raised;
      }
      assert WriteAt([], 0, data[..n]) == data[..n];
      CloseFile(f);
      CloseFile(g);
      return Done;
    }
  }
}
