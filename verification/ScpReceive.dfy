/** Receiving a file over SCP: the loop of `scp_recv_file` against a channel that may
    give any part of what it is asked for, and what a pair of sender and receiver
    achieve together. */
module ScpReceive {
  import opened Streams
  import opened ScpSend
  import opened Draining

  const READ_LEN: nat := 1024

  /** How the loop ended and what the local file holds. */
  datatype Received = Received(outcome: Outcome, file: Bytes)

  /** What one read gives: never more than asked for or than the stream still holds. */
  function Given(entry: nat, left: nat, stream: Bytes): nat {
    Min(entry, Min(Min(READ_LEN, left), |stream|))
  }

  function Receiving(left: nat, stream: Bytes, schedule: seq<int>): Received
    decreases |schedule|
  {
    if left == 0 then Received(Done, [])
    else if schedule == [] then Received(Pending, [])
    else if schedule[0] < 0 then Received(Raised, [])
    else
      var n := Given(schedule[0], left, stream);
      var r := Receiving(left - n, stream[n..], schedule[1..]);
      Received(r.outcome, stream[..n] + r.file)
  }

  /** On every schedule the local file is the beginning of the stream, never longer
      than the announced size; and when the loop ends, exactly that long. */
  lemma {:induction false} ReceivesPrefix(size: nat, stream: Bytes, schedule: seq<int>)
    ensures var r := Receiving(size, stream, schedule);
      && |r.file| <= size && r.file <= stream
      && (r.outcome == Done <==> |r.file| == size)
    decreases |schedule|
  {
    if size > 0 && schedule != [] && schedule[0] >= 0 {
      var n := Given(schedule[0], size, stream);
      ReceivesPrefix(size - n, stream[n..], schedule[1..]);
      assert stream == stream[..n] + stream[n..];
    }
  }

  /** What the reads before the first one that raises are good for. */
  function Granted(schedule: seq<int>): nat {
    if schedule == [] || schedule[0] < 0 then 0 else Min(schedule[0], READ_LEN) + Granted(schedule[1..])
  }

  lemma NeverRaisesTail(schedule: seq<int>)
    requires schedule != [] && schedule[0] >= 0
    ensures NeverRaises(schedule) <==> NeverRaises(schedule[1..])
  {
    assert forall i :: 0 < i < |schedule| ==> schedule[i] == schedule[1..][i - 1];
  }

  /** How much is stored, exactly, and how the loop ends. */
  ghost predicate StoresGranted(r: Received, size: nat, stream: Bytes, schedule: seq<int>) {
    var n := Min(Min(size, |stream|), Granted(schedule));
    && r.file == stream[..n]
    && r.outcome == if n == size then Done else if NeverRaises(schedule) then Pending else Raised
  }

  lemma GrantedStep(r: Received, size: nat, stream: Bytes, schedule: seq<int>)
    requires size > 0 && schedule != [] && schedule[0] >= 0
    requires var n := Given(schedule[0], size, stream); StoresGranted(r, size - n, stream[n..], schedule[1..])
    ensures var n := Given(schedule[0], size, stream);
      StoresGranted(Received(r.outcome, stream[..n] + r.file), size, stream, schedule)
  {
    var n := Given(schedule[0], size, stream);
    HeadAndMore(stream, n, Min(Min(size - n, |stream| - n), Granted(schedule[1..])));
    NeverRaisesTail(schedule);
  }

  lemma {:induction false} ReceivesExactly(size: nat, stream: Bytes, schedule: seq<int>)
    ensures StoresGranted(Receiving(size, stream, schedule), size, stream, schedule)
    decreases |schedule|
  {
    if size > 0 && schedule != [] && schedule[0] >= 0 {
      var n := Given(schedule[0], size, stream);
      ReceivesExactly(size - n, stream[n..], schedule[1..]);
      GrantedStep(Receiving(size - n, stream[n..], schedule[1..]), size, stream, schedule);
    }
  }

  /** With enough reads that give something, and none that raises, the loop ends
      exactly when the stream holds the announced size. */
  lemma {:induction false} EndsIff(size: nat, stream: Bytes, schedule: seq<int>)
    requires NeverRaises(schedule) && |NonZero(schedule)| >= size
    ensures Receiving(size, stream, schedule).outcome == Done <==> |stream| >= size
    decreases |schedule|
  {
    ReceivesPrefix(size, stream, schedule);
    if 0 < size <= |stream| {
      var n := Given(schedule[0], size, stream);
      EndsIff(size - n, stream[n..], schedule[1..]);
    }
  }

  /** How the stream was cut into reads does not show in the file. */
  lemma ScheduleIndependent(size: nat, stream: Bytes, q1: seq<int>, q2: seq<int>)
    requires Receiving(size, stream, q1).outcome == Done && Receiving(size, stream, q2).outcome == Done
    ensures size <= |stream|
    ensures Receiving(size, stream, q1) == Receiving(size, stream, q2) == Received(Done, stream[..size])
  {
    ReceivesPrefix(size, stream, q1);
    ReceivesPrefix(size, stream, q2);
  }

  /** The sender announces the size of its file before it sends. If its writes were full
      the receiver gets the file; if not, and however the sender's loop ended, the
      receiver waits forever. */
  lemma EndToEnd(file: Bytes, writes: seq<int>, gives: seq<int>)
    requires NeverRaises(gives) && |NonZero(gives)| >= |file|
    ensures var stream := SendingFile(AsWritten, file, writes).delivered;
      Receiving(|file|, stream, gives) ==
        if FullWrites(file, WRITE_LEN, NonZero(writes)) then Received(Done, file) else Received(Pending, stream)
  {
    var sent := SendingFile(AsWritten, file, writes);
    WholeIffFullWrites(file, writes);
    DeliversPrefix(AsWritten, Head(file, WRITE_LEN), Tail(file, WRITE_LEN), writes);
    assert Head(file, WRITE_LEN) + Tail(file, WRITE_LEN) == file;
    EndsIff(|file|, sent.delivered, gives);
    ReceivesPrefix(|file|, sent.delivered, gives);
    if !FullWrites(file, WRITE_LEN, NonZero(writes)) {
      if sent.delivered == file {
        WholeMeansDone(file, writes);
        assert false;
      }
      NeverRaised(|file|, sent.delivered, gives);
      Exhausts(|file|, sent.delivered, gives);
    }
  }

  /** A receiver with enough non-empty reads takes all there is. */
  lemma {:induction false} Exhausts(size: nat, stream: Bytes, schedule: seq<int>)
    requires NeverRaises(schedule) && |NonZero(schedule)| >= |stream| && |stream| <= size
    ensures Receiving(size, stream, schedule).file == stream
    decreases |schedule|
  {
    if size > 0 && schedule != [] {
      var n := Given(schedule[0], size, stream);
      Exhausts(size - n, stream[n..], schedule[1..]);
      assert stream == stream[..n] + stream[n..];
    }
  }

  lemma {:induction false} NeverRaised(size: nat, stream: Bytes, schedule: seq<int>)
    requires NeverRaises(schedule)
    ensures Receiving(size, stream, schedule).outcome != Raised
    decreases |schedule|
  {
    if size > 0 && schedule != [] {
      NeverRaised(size - Given(schedule[0], size, stream), stream[Given(schedule[0], size, stream)..], schedule[1..]);
    }
  }

  /** The channel `scp_recv` opened: what the remote side has yet to send. */
  class ScpSource {
    var schedule: seq<int>
    var stream: Bytes
    var closed: nat

    constructor (s: seq<int>, data: Bytes)
      ensures schedule == s && stream == data && closed == 0
    {
      schedule, stream, closed := s, data, 0;
    }

    /** `channel.read(size)` */
    method Read(size: nat) returns (buf: Bytes, raised: bool)
      requires schedule != []
      modifies this`schedule, this`stream
      ensures schedule == old(schedule)[1..] && raised == (old(schedule)[0] < 0)
      ensures raised ==> buf == [] && stream == old(stream)
      ensures !raised ==>
        var n := Min(old(schedule)[0], Min(size, |old(stream)|)); buf == old(stream)[..n] && stream == old(stream)[n..]
    {
      var e := schedule[0];
      schedule := schedule[1..];
      if e < 0 {
        return [], true;
      }
      raised := false;
      var n := Min(e, Min(size, |stream|));
      buf := stream[..n];
      stream := stream[n..];
    }

    /** `Channel.read(-1)`: reads of the default size until one gives nothing; a read
        that raises counts as empty. */
    method ReadAll() returns (outcome: Outcome, buf: Bytes)
      modifies this`schedule, this`stream
      ensures Sent(outcome, buf) == Drain(old(stream), READ_LEN, old(schedule))
      ensures old(stream) == buf + stream
    {
      buf := [];
      ghost var all := Drain(stream, READ_LEN, schedule);
      while true
        invariant Collects(all, old(stream), buf, stream, READ_LEN, schedule)
        decreases |schedule|
      {
        CollectEnd(all, old(stream), buf, stream, READ_LEN, schedule);
        if stream == [] {
          return Done, buf;
        }
        if schedule == [] {
          return Pending, buf;
        }
        CollectStep(all, old(stream), buf, stream, READ_LEN, schedule);
        var next, _ := Read(READ_LEN);
        if next == [] {
          return Done, buf;
        }
        buf := buf + next;
      }
    }

    /** One read of the loop, with `left` bytes to come. */
    method ReadSome(left: nat, ghost all: Received, ghost whole: Bytes, ghost file: Bytes)
      returns (buf: Bytes, raised: bool)
      requires left > 0 && schedule != [] && Stores(all, whole, file, left, stream, schedule)
      modifies this`schedule, this`stream
      ensures schedule == old(schedule)[1..] && raised == (old(schedule)[0] < 0) && |buf| <= Min(READ_LEN, left)
      ensures raised ==> stream == old(stream)
      ensures !raised ==> Stores(all, whole, file + buf, left - |buf|, stream, schedule)
    {
      ghost var data, q := stream, schedule;
      if schedule[0] >= 0 {
        ReceivingStep(all, whole, file, left, data, q);
      }
      buf, raised := Read(Min(READ_LEN, left));
    }

    /** The loop of `scp_recv_file`, where the local disk has room for `room` bytes. A
        write that does not fit stores what does and raises. */
    method ReceiveLoop(fileSize: nat, room: nat) returns (outcome: Outcome, file: Bytes, ghost taken: Bytes)
      modifies this`schedule, this`stream
      ensures Limited(Receiving(fileSize, old(stream), old(schedule)), room, outcome, file, taken)
      ensures old(stream) == taken + stream
    {
      file := [];
      var got := 0;
      ghost var whole, all := stream, Receiving(fileSize, stream, schedule);
      while got < fileSize
        invariant got == |file| <= fileSize && |file| <= room
        invariant Stores(all, whole, file, fileSize - got, stream, schedule)
        decreases |schedule|
      {
        StoresEnd(all, whole, file, fileSize - got, stream, schedule, room);
        if schedule == [] {
          return Pending, file, file;
        }
        var buf, raised := ReadSome(fileSize - got, all, whole, file);
        if raised {
          return Raised, file, file;
        }
        if |buf| > room - |file| {
          StoresFull(all, whole, file, buf, fileSize - got - |buf|, stream, schedule, room);
          return Raised, file + Head(buf, room - |file|), file + buf;
        }
        file := file + buf;
        got := got + |buf|;
      }
      StoresEnd(all, whole, file, 0, stream, schedule, room);
      return Done, file, file;
    }

    /** `scp_recv_file`, once the channel is open and the size is known. `writable` is
        whether the local file can be opened: if not, that raises before anything is
        read, and the channel stays open. Otherwise the channel is closed once, whether
        a read raised, or a write did, or neither. What the file does not have of the
        bytes `taken` from the channel did not fit, and belongs to one read. */
    method ReceiveFile(fileSize: nat, writable: bool, room: nat)
      returns (outcome: Outcome, file: Bytes, ghost taken: Bytes)
      modifies this
      ensures var r := if writable then Receiving(fileSize, old(stream), old(schedule)) else Received(Raised, []);
        && outcome == (if |r.file| > room then Raised else r.outcome)
        && file == Head(r.file, room)
      ensures old(stream) == taken + stream && file == Head(taken, room) && |taken| <= |file| + READ_LEN
      ensures closed == old(closed) + (if !writable || outcome == Pending then 0 else 1)
      ensures !writable ==> schedule == old(schedule)
    {
      if !writable {
        return Raised, [], [];
      }
      outcome, file, taken := ReceiveLoop(fileSize, room);
      if outcome != Pending {
        closed := closed + 1;
      }
    }
  }

  /** The run `all` over `whole` has stored `file`, with `left` bytes to come. */
  predicate Stores(all: Received, whole: Bytes, file: Bytes, left: nat, stream: Bytes, schedule: seq<int>) {
    var r := Receiving(left, stream, schedule);
    whole == file + stream && all.outcome == r.outcome && all.file == file + r.file
  }

  /** What becomes of the run `all` on a disk with room for `room` bytes: the file has
      as much of the bytes `taken` as fits, and lacks what belongs to one read. */
  predicate Limited(all: Received, room: nat, outcome: Outcome, file: Bytes, taken: Bytes) {
    && outcome == (if |all.file| > room then Raised else all.outcome)
    && file == Head(all.file, room) == Head(taken, room) && |taken| <= |file| + READ_LEN
  }

  lemma StoresEnd(all: Received, whole: Bytes, file: Bytes, left: nat, stream: Bytes, schedule: seq<int>, room: nat)
    requires Stores(all, whole, file, left, stream, schedule) && |file| <= room
    ensures left == 0 ==> Limited(all, room, Done, file, file)
    ensures left > 0 && schedule == [] ==> Limited(all, room, Pending, file, file)
    ensures left > 0 && schedule != [] && schedule[0] < 0 ==> Limited(all, room, Raised, file, file)
  {
    assert file + [] == file == Head(file, room);
  }

  /** The next piece no longer fits. */
  lemma StoresFull(all: Received, whole: Bytes, file: Bytes, next: Bytes, left: nat, stream: Bytes,
                   schedule: seq<int>, room: nat)
    requires |file| <= room < |file| + |next| && |next| <= READ_LEN
    requires Stores(all, whole, file + next, left, stream, schedule)
    ensures Limited(all, room, Raised, file + Head(next, room - |file|), file + next)
  {
  }

  lemma ReceivingStep(all: Received, whole: Bytes, file: Bytes, left: nat, stream: Bytes, schedule: seq<int>)
    requires left > 0 && schedule != [] && schedule[0] >= 0 && Stores(all, whole, file, left, stream, schedule)
    ensures var n := Given(schedule[0], left, stream);
      Stores(all, whole, file + stream[..n], left - n, stream[n..], schedule[1..])
  {
    var n := Given(schedule[0], left, stream);
    var r := Receiving(left - n, stream[n..], schedule[1..]);
    assert file + (stream[..n] + r.file) == (file + stream[..n]) + r.file;
    assert file + (stream[..n] + stream[n..]) == (file + stream[..n]) + stream[n..];
  }
}
