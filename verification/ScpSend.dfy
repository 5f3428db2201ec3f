/** Sending a file over SCP: the loop of `scp_send_file` against a channel that may
    take any part of what it is offered. */
module ScpSend {
  import opened Streams

  const WRITE_LEN: nat := 4096

  /** `Pending`: the schedule ran out while the loop was still waiting. */
  datatype Outcome = Done | Raised | Pending
  datatype Sent = Sent(outcome: Outcome, delivered: Bytes)

  /** What the loop keeps of a buffer after a short write: the source cuts
      `buf[written:-1]`; `Keeping` is the cut without the lost byte; `Refilling` in
      addition reads on when the buffer has been used up. */
  datatype Repair = AsWritten | Keeping | Refilling

  /** Python's `buf[w:-1]` */
  function CutLast(buf: Bytes, w: nat): Bytes {
    if w < |buf| then buf[w..|buf| - 1] else []
  }

  /** The buffer and the unread rest of the file after `w` bytes were taken. */
  function AfterWrite(v: Repair, buf: Bytes, rest: Bytes, w: nat): (Bytes, Bytes)
    requires w <= |buf|
  {
    if w == 0 then (buf, rest)
    else if w == WRITE_LEN || (v == Refilling && w == |buf|) then (Head(rest, WRITE_LEN), Tail(rest, WRITE_LEN))
    else if v == AsWritten then (CutLast(buf, w), rest)
    else (buf[w..], rest)
  }

  /** The loop, from a buffer and the rest of the file on. A negative entry of the
      schedule is a write that raises. */
  function Sending(v: Repair, buf: Bytes, rest: Bytes, schedule: seq<int>): Sent
    decreases |schedule|
  {
    if buf == [] then Sent(Done, [])
    else if schedule == [] then Sent(Pending, [])
    else if schedule[0] < 0 then Sent(Raised, [])
    else
      var w := Min(schedule[0], |buf|);
      var next := AfterWrite(v, buf, rest, w);
      var r := Sending(v, next.0, next.1, schedule[1..]);
      Sent(r.outcome, buf[..w] + r.delivered)
  }

  function SendingFile(v: Repair, file: Bytes, schedule: seq<int>): Sent {
    Sending(v, Head(file, WRITE_LEN), Tail(file, WRITE_LEN), schedule)
  }

  lemma PrefixAfter(buf: Bytes, w: nat, d: Bytes, data: Bytes)
    requires w <= |buf| && buf <= data && d <= data[w..]
    ensures buf[..w] + d <= data
  {
    assert data == data[..w] + data[w..];
  }

  lemma EmptyWrite(v: Repair, buf: Bytes, rest: Bytes, schedule: seq<int>)
    requires schedule != [] && schedule[0] == 0
    ensures Sending(v, buf, rest, schedule) == Sending(v, buf, rest, schedule[1..])
    ensures NonZero(schedule) == NonZero(schedule[1..])
  {
    assert [] + NonZero(schedule[1..]) == NonZero(schedule);
    assert buf[..0] + Sending(v, buf, rest, schedule[1..]).delivered == Sending(v, buf, rest, schedule[1..]).delivered;
  }

  /** Once the buffer is shorter than a full one, the loop never reads again unless
      it is the refilling one. */
  lemma {:induction false} ShortBuffer(v: Repair, buf: Bytes, rest: Bytes, schedule: seq<int>)
    requires v != Refilling && |buf| < WRITE_LEN
    ensures Sending(v, buf, rest, schedule) == Sending(v, buf, [], schedule)
    ensures Sending(v, buf, rest, schedule).delivered <= buf
    decreases |schedule|
  {
    if buf != [] && schedule != [] && schedule[0] >= 0 {
      var w := Min(schedule[0], |buf|);
      ShortBuffer(v, AfterWrite(v, buf, rest, w).0, rest, schedule[1..]);
      PrefixAfter(buf, w, Sending(v, AfterWrite(v, buf, rest, w).0, rest, schedule[1..]).delivered, buf);
    }
  }

  lemma AfterWriteKeeps(v: Repair, buf: Bytes, rest: Bytes, w: nat)
    requires w <= |buf| <= WRITE_LEN && (w == 0 || w == WRITE_LEN || v == Refilling)
    ensures AfterWrite(v, buf, rest, w).0 + AfterWrite(v, buf, rest, w).1 == (buf + rest)[w..]
  {
    assert (buf + rest)[w..] == buf[w..] + rest;
    assert rest == Head(rest, WRITE_LEN) + Tail(rest, WRITE_LEN);
  }

  /** Whatever the schedule and the repair, the far side holds a prefix of the file. */
  lemma {:induction false} DeliversPrefix(v: Repair, buf: Bytes, rest: Bytes, schedule: seq<int>)
    requires |buf| <= WRITE_LEN
    ensures Sending(v, buf, rest, schedule).delivered <= buf + rest
    decreases |schedule|
  {
    if buf != [] && schedule != [] && schedule[0] >= 0 {
      var w := Min(schedule[0], |buf|);
      var next := AfterWrite(v, buf, rest, w);
      var d := Sending(v, next.0, next.1, schedule[1..]).delivered;
      DeliversPrefix(v, next.0, next.1, schedule[1..]);
      if 0 < w < WRITE_LEN && v != Refilling {
        ShortBuffer(v, next.0, rest, schedule[1..]);
        assert d <= next.0 <= (buf + rest)[w..];
      } else {
        AfterWriteKeeps(v, buf, rest, w);
      }
      PrefixAfter(buf, w, d, buf + rest);
    }
  }

  /** The loop as written delivers the file exactly when every chunk is taken in one
      go by the write it is first offered to. */
  lemma {:induction false} WholeIffFullWrites(file: Bytes, schedule: seq<int>)
    ensures SendingFile(AsWritten, file, schedule) == Sent(Done, file) <==>
      FullWrites(file, WRITE_LEN, NonZero(schedule))
    decreases |schedule|
  {
    if file != [] && schedule != [] {
      if schedule[0] == 0 {
        WholeIffFullWrites(file, schedule[1..]);
        EmptyWrite(AsWritten, Head(file, WRITE_LEN), Tail(file, WRITE_LEN), schedule);
      } else {
        FullWritesStep(file, WRITE_LEN, NonZero(schedule));
        assert NonZero(schedule)[1..] == NonZero(schedule[1..]);
        if 0 < schedule[0] < |Head(file, WRITE_LEN)| {
          ShortWriteLoses(file, schedule);
        } else if schedule[0] > 0 {
          WholeIffFullWrites(Tail(file, WRITE_LEN), schedule[1..]);
          FullWriteTail(file, schedule);
        }
      }
    }
  }

  lemma ShortWriteLoses(file: Bytes, schedule: seq<int>)
    requires schedule != [] && 0 < schedule[0] < |Head(file, WRITE_LEN)|
    ensures |SendingFile(AsWritten, file, schedule).delivered| < |Head(file, WRITE_LEN)|
  {
    var b := CutLast(Head(file, WRITE_LEN), schedule[0]);
    ShortBuffer(AsWritten, b, Tail(file, WRITE_LEN), schedule[1..]);
  }

  lemma FullWriteTail(file: Bytes, schedule: seq<int>)
    requires file != [] && schedule != [] && schedule[0] >= |Head(file, WRITE_LEN)|
    ensures var r, r' := SendingFile(AsWritten, file, schedule),
      SendingFile(AsWritten, Tail(file, WRITE_LEN), schedule[1..]);
      && r == Sent(r'.outcome, Head(file, WRITE_LEN) + r'.delivered)
      && (r.delivered == file <==> r'.delivered == Tail(file, WRITE_LEN))
  {
    var buf, rest := Head(file, WRITE_LEN), Tail(file, WRITE_LEN);
    var r, r' := SendingFile(AsWritten, file, schedule), SendingFile(AsWritten, rest, schedule[1..]);
    assert buf[..|buf|] == buf;
    assert |buf| < WRITE_LEN ==> rest == [] && CutLast(buf, |buf|) == [];
    assert r == Sent(r'.outcome, buf + r'.delivered);
    assert file == buf + rest;
    assert (buf + r'.delivered)[|buf|..] == r'.delivered;
  }

  /** `k` writes in a row take something of a chunk of length `len` but not the rest of
      it. Each costs a byte, and still the chunk is not used up. */
  ghost predicate Short(len: nat, q: seq<int>, k: nat) {
    k <= |q| && (forall i :: 0 <= i < k ==> q[i] > 0) && Supply(q[..k]) + k < len
  }

  lemma ShortStep(len: nat, q: seq<int>, k: nat)
    requires q != [] && q[0] > 0
    ensures Short(len, q, k + 1) <==> q[0] + 1 < len && Short(len - q[0] - 1, q[1..], k)
    ensures k + 1 <= |q| ==> q[..k + 1][1..] == q[1..][..k] && Supply(q[..k + 1]) == q[0] + Supply(q[1..][..k])
  {
    if k + 1 <= |q| {
      assert q[..k + 1][1..] == q[1..][..k];
      assert forall i :: 0 < i < k + 1 ==> q[i] == q[1..][i - 1];
      assert forall i :: 0 <= i < k ==> q[1..][i] == q[i + 1];
    }
  }

  /** What is left of it then. */
  function LeftOf(len: nat, q: seq<int>, k: nat): int
    requires k <= |q|
  {
    len - Supply(q[..k]) - k
  }

  /** What becomes of a chunk that is not taken whole at once, `q` being the writes that
      are not empty: after `k` short ones the loop waits, or raises, or the next write
      uses the chunk up, which has then lost one byte to each short write. */
  ghost predicate Ends(r: Sent, chunk: Bytes, q: seq<int>, k: nat)
    requires Short(|chunk|, q, k)
  {
    var left := LeftOf(|chunk|, q, k);
    && (k == |q| ==> r == Sent(Pending, chunk[..Supply(q[..k])]))
    && (k < |q| && q[k] < 0 ==> r == Sent(Raised, chunk[..Supply(q[..k])]))
    && (k < |q| && q[k] >= left ==> r == Sent(Done, chunk[..|chunk| - k]))
    && (k < |q| && 0 < q[k] == left - 1 ==> r == Sent(Done, chunk[..|chunk| - k - 1]))
  }

  lemma EndsStep(r: Sent, chunk: Bytes, q: seq<int>, k: nat)
    requires q != [] && q[0] > 0 && Short(|chunk|, q, k + 1)
    requires Short(|chunk| - q[0] - 1, q[1..], k) && Ends(r, chunk[q[0]..|chunk| - 1], q[1..], k)
    ensures Ends(Sent(r.outcome, chunk[..q[0]] + r.delivered), chunk, q, k + 1)
  {
    ShortStep(|chunk|, q, k);
    ShortStep(|chunk|, q, k + 1);
    var b := chunk[q[0]..|chunk| - 1];
    assert forall m: nat :: m <= |b| ==> chunk[..q[0]] + b[..m] == chunk[..q[0] + m];
  }

  /** One short write, and what it leaves. */
  lemma ShortWrite(chunk: Bytes, rest: Bytes, schedule: seq<int>, k: nat)
    requires schedule != [] && schedule[0] != 0 && |chunk| <= WRITE_LEN && Short(|chunk|, NonZero(schedule), k + 1)
    ensures 0 < schedule[0] && schedule[0] + 1 < |chunk|
    ensures Short(|chunk| - schedule[0] - 1, NonZero(schedule[1..]), k)
    ensures var r := Sending(AsWritten, chunk[schedule[0]..|chunk| - 1], rest, schedule[1..]);
      Sending(AsWritten, chunk, rest, schedule) == Sent(r.outcome, chunk[..schedule[0]] + r.delivered)
  {
    assert NonZero(schedule)[1..] == NonZero(schedule[1..]);
    ShortStep(|chunk|, NonZero(schedule), k);
  }

  /** No short write at all: the next one, if there is one, raises or is the last. */
  lemma NoShortWrite(chunk: Bytes, rest: Bytes, schedule: seq<int>)
    requires chunk != [] && |chunk| <= WRITE_LEN && (schedule == [] || schedule[0] != 0)
    requires |chunk| == WRITE_LEN && schedule != [] ==> schedule[0] < WRITE_LEN
    ensures Short(|chunk|, NonZero(schedule), 0)
    ensures Ends(Sending(AsWritten, chunk, rest, schedule), chunk, NonZero(schedule), 0)
  {
    if schedule != [] && schedule[0] > 0 { LastWrite(chunk, rest, schedule); }
  }

  lemma {:induction false} ShortWrites(chunk: Bytes, rest: Bytes, schedule: seq<int>, k: nat)
    requires Short(|chunk|, NonZero(schedule), k) && |chunk| <= WRITE_LEN
    requires |chunk| == WRITE_LEN && NonZero(schedule) != [] ==> NonZero(schedule)[0] < WRITE_LEN
    ensures Ends(Sending(AsWritten, chunk, rest, schedule), chunk, NonZero(schedule), k)
    decreases |schedule|
  {
    if schedule != [] && schedule[0] == 0 {
      EmptyWrite(AsWritten, chunk, rest, schedule);
      ShortWrites(chunk, rest, schedule[1..], k);
    } else if k == 0 {
      NoShortWrite(chunk, rest, schedule);
    } else {
      var q := NonZero(schedule);
      assert q[1..] == NonZero(schedule[1..]);
      ShortWrite(chunk, rest, schedule, k - 1);
      ShortWrites(chunk[q[0]..|chunk| - 1], rest, schedule[1..], k - 1);
      EndsStep(Sending(AsWritten, chunk[q[0]..|chunk| - 1], rest, schedule[1..]), chunk, q, k - 1);
    }
  }

  lemma LastWrite(chunk: Bytes, rest: Bytes, schedule: seq<int>)
    requires chunk != [] && |chunk| <= WRITE_LEN && schedule != [] && schedule[0] > 0
    requires |chunk| == WRITE_LEN ==> schedule[0] < WRITE_LEN
    ensures schedule[0] + 1 >= |chunk| ==>
      Sending(AsWritten, chunk, rest, schedule) ==
        Sent(Done, chunk[..if schedule[0] >= |chunk| then |chunk| else |chunk| - 1])
  {
    var w := Min(schedule[0], |chunk|);
    assert schedule[0] + 1 >= |chunk| ==> CutLast(chunk, w) == [];
  }

  /** The first `n` chunks are taken whole, the one after them is not. */
  ghost predicate TakesWhole(file: Bytes, q: seq<int>, n: nat) {
    var cs := Chunks(file, WRITE_LEN);
    n < |cs| && n <= |q| && (forall i :: 0 <= i < n ==> q[i] >= |cs[i]|) && (n < |q| ==> q[n] < |cs[n]|)
  }

  lemma TakesWholeStep(file: Bytes, q: seq<int>, n: nat)
    requires TakesWhole(file, q, n + 1)
    ensures q[0] >= WRITE_LEN && |file| > WRITE_LEN && TakesWhole(Tail(file, WRITE_LEN), q[1..], n)
    ensures Chunks(file, WRITE_LEN)[n + 1] == Chunks(Tail(file, WRITE_LEN), WRITE_LEN)[n]
  {
    var cs, ts := Chunks(file, WRITE_LEN), Chunks(Tail(file, WRITE_LEN), WRITE_LEN);
    assert cs == [Head(file, WRITE_LEN)] + ts;
    assert forall i :: 0 <= i < |ts| ==> ts[i] == cs[i + 1];
  }

  /** `n` chunks have arrived, and of the one after them what `Ends` says; nothing of the
      others. */
  ghost predicate EndsAfter(r: Sent, file: Bytes, q: seq<int>, n: nat, k: nat)
    requires TakesWhole(file, q, n) && Short(|Chunks(file, WRITE_LEN)[n]|, q[n..], k)
  {
    var sent := n * WRITE_LEN;
    && sent <= |file| && file[..sent] <= r.delivered
    && Ends(Sent(r.outcome, r.delivered[sent..]), Chunks(file, WRITE_LEN)[n], q[n..], k)
  }

  lemma OneMoreChunk(r: Sent, file: Bytes, q: seq<int>, n: nat, k: nat)
    requires TakesWhole(file, q, n + 1) && Short(|Chunks(file, WRITE_LEN)[n + 1]|, q[n + 1..], k)
    requires TakesWhole(Tail(file, WRITE_LEN), q[1..], n)
    requires Chunks(file, WRITE_LEN)[n + 1] == Chunks(Tail(file, WRITE_LEN), WRITE_LEN)[n] && |file| > WRITE_LEN
    requires q[1..][n..] == q[n + 1..] && EndsAfter(r, Tail(file, WRITE_LEN), q[1..], n, k)
    ensures EndsAfter(Sent(r.outcome, Head(file, WRITE_LEN) + r.delivered), file, q, n + 1, k)
  {
    WholeChunk(file, r.delivered, n);
  }

  lemma FirstChunk(file: Bytes, schedule: seq<int>, k: nat)
    requires TakesWhole(file, NonZero(schedule), 0) && Short(|Chunks(file, WRITE_LEN)[0]|, NonZero(schedule)[0..], k)
    ensures EndsAfter(SendingFile(AsWritten, file, schedule), file, NonZero(schedule), 0, k)
  {
    var q, r := NonZero(schedule), SendingFile(AsWritten, file, schedule);
    assert q[0..] == q && r.delivered[0..] == r.delivered;
    ShortWrites(Head(file, WRITE_LEN), Tail(file, WRITE_LEN), schedule, k);
  }

  /** On every schedule, what arrives and how the loop ends. */
  lemma {:induction false} SendsExactly(file: Bytes, schedule: seq<int>, n: nat, k: nat)
    requires TakesWhole(file, NonZero(schedule), n)
    requires Short(|Chunks(file, WRITE_LEN)[n]|, NonZero(schedule)[n..], k)
    ensures EndsAfter(SendingFile(AsWritten, file, schedule), file, NonZero(schedule), n, k)
    decreases |schedule|
  {
    var q := NonZero(schedule);
    if schedule != [] && schedule[0] == 0 {
      EmptyWrite(AsWritten, Head(file, WRITE_LEN), Tail(file, WRITE_LEN), schedule);
      SendsExactly(file, schedule[1..], n, k);
    } else if n == 0 {
      FirstChunk(file, schedule, k);
    } else {
      TakesWholeStep(file, q, n - 1);
      assert q[1..] == NonZero(schedule[1..]) && q[1..][n - 1..] == q[n..];
      SendsExactly(Tail(file, WRITE_LEN), schedule[1..], n - 1, k);
      FullWriteTail(file, schedule);
      OneMoreChunk(SendingFile(AsWritten, Tail(file, WRITE_LEN), schedule[1..]), file, q, n - 1, k);
    }
  }

  /** That is every schedule there is: unless each chunk is taken whole, there is a first
      one that is not, and a last short write in it. */
  lemma SendsOneWay(file: Bytes, schedule: seq<int>) returns (n: nat, k: nat)
    requires !FullWrites(file, WRITE_LEN, NonZero(schedule))
    ensures var q := NonZero(schedule);
      TakesWhole(file, q, n) && Short(|Chunks(file, WRITE_LEN)[n]|, q[n..], k) &&
      (n + k == |q| || q[n + k] < 0 || q[n + k] + 1 >= LeftOf(|Chunks(file, WRITE_LEN)[n]|, q[n..], k))
  {
    var q := NonZero(schedule);
    n := FirstNotWhole(file, q);
    ChunkSizes(file, WRITE_LEN, n);
    AllNonZero(schedule);
    k := LastShort(|Chunks(file, WRITE_LEN)[n]|, q[n..]);
  }

  lemma {:induction false} AllNonZero(schedule: seq<int>)
    ensures forall i :: 0 <= i < |NonZero(schedule)| ==> NonZero(schedule)[i] != 0
  {
    if schedule != [] { AllNonZero(schedule[1..]); }
  }

  lemma {:induction false} FirstNotWhole(file: Bytes, q: seq<int>) returns (n: nat)
    requires !FullWrites(file, WRITE_LEN, q)
    ensures TakesWhole(file, q, n)
    decreases |q|
  {
    n := 0;
    var cs := Chunks(file, WRITE_LEN);
    if q != [] && q[0] >= |cs[0]| {
      FullWritesStep(file, WRITE_LEN, q);
      var m := FirstNotWhole(Tail(file, WRITE_LEN), q[1..]);
      assert cs == [Head(file, WRITE_LEN)] + Chunks(Tail(file, WRITE_LEN), WRITE_LEN);
      n := m + 1;
      forall i | 0 <= i < n ensures q[i] >= |cs[i]| {
        if i > 0 { assert q[1..][i - 1] >= |Chunks(Tail(file, WRITE_LEN), WRITE_LEN)[i - 1]|; }
      }
    }
  }

  lemma {:induction false} LastShort(len: nat, q: seq<int>) returns (k: nat)
    requires len > 0 && forall i :: 0 <= i < |q| ==> q[i] != 0
    ensures Short(len, q, k) && (k == |q| || q[k] < 0 || q[k] + 1 >= LeftOf(len, q, k))
    decreases |q|
  {
    k := 0;
    if q != [] && q[0] > 0 && q[0] + 1 < len {
      var m := LastShort(len - q[0] - 1, q[1..]);
      ShortStep(len, q, m);
      k := m + 1;
    }
  }

  lemma WholeChunk(file: Bytes, d: Bytes, n: nat)
    requires |file| > WRITE_LEN && n * WRITE_LEN <= |Tail(file, WRITE_LEN)|
    requires Tail(file, WRITE_LEN)[..n * WRITE_LEN] <= d
    ensures (n + 1) * WRITE_LEN <= |file| && file[..(n + 1) * WRITE_LEN] <= Head(file, WRITE_LEN) + d
    ensures (Head(file, WRITE_LEN) + d)[(n + 1) * WRITE_LEN..] == d[n * WRITE_LEN..]
  {
    var h, t := Head(file, WRITE_LEN), Tail(file, WRITE_LEN);
    assert file == h + t;
    assert file[..(n + 1) * WRITE_LEN] == h + t[..n * WRITE_LEN];
  }

  /** Whoever receives the whole file, the loop has ended. */
  lemma {:induction false} WholeMeansDone(file: Bytes, schedule: seq<int>)
    requires SendingFile(AsWritten, file, schedule).delivered == file
    ensures SendingFile(AsWritten, file, schedule).outcome == Done
    decreases |schedule|
  {
    if file != [] && schedule != [] && schedule[0] >= 0 {
      if schedule[0] == 0 {
        EmptyWrite(AsWritten, Head(file, WRITE_LEN), Tail(file, WRITE_LEN), schedule);
        WholeMeansDone(file, schedule[1..]);
      } else if schedule[0] < |Head(file, WRITE_LEN)| {
        ShortWriteLoses(file, schedule);
      } else {
        FullWriteTail(file, schedule);
        WholeMeansDone(Tail(file, WRITE_LEN), schedule[1..]);
      }
    }
  }

  lemma ShortWriteExample(file: Bytes)
    requires |file| == 2
    ensures SendingFile(AsWritten, file, [1]) == Sent(Done, file[..1])
  {
  }

  /** Cutting `buf[written:]` instead keeps a short-written chunk but still stops after
      it: the file arrives exactly when every chunk but the last is taken in one go. */
  ghost predicate FullButLast(file: Bytes, q: seq<int>) {
    var cs := Chunks(file, WRITE_LEN);
    cs == [] || (
      && |cs| - 1 <= |q| && (forall i :: 0 <= i < |cs| - 1 ==> q[i] >= WRITE_LEN)
      && Supply(q[|cs| - 1..]) >= |cs[|cs| - 1]|)
  }

  lemma FullButLastStep(file: Bytes, q: seq<int>)
    requires |file| > WRITE_LEN
    ensures FullButLast(file, q) <==> q != [] && q[0] >= WRITE_LEN && FullButLast(Tail(file, WRITE_LEN), q[1..])
  {
    var cs, ts := Chunks(file, WRITE_LEN), Chunks(Tail(file, WRITE_LEN), WRITE_LEN);
    assert cs == [Head(file, WRITE_LEN)] + ts;
    if q != [] && |ts| <= |q| {
      assert q[|ts|..] == q[1..][|ts| - 1..];
      assert cs[|cs| - 1] == ts[|ts| - 1];
    }
    if FullButLast(file, q) {
      assert forall i :: 0 <= i < |ts| - 1 ==> q[1..][i] == q[i + 1];
    }
    if q != [] && q[0] >= WRITE_LEN && FullButLast(Tail(file, WRITE_LEN), q[1..]) {
      forall i | 0 <= i < |cs| - 1 ensures q[i] >= WRITE_LEN {
        if i > 0 {
          assert q[1..][i - 1] >= WRITE_LEN;
        }
      }
    }
  }

  /** What this loop does with a chunk that is its last, or that is not taken whole at
      once: it delivers what the writes take, up to the end of the chunk. */
  ghost predicate EndsKeeping(r: Sent, chunk: Bytes, q: seq<int>) {
    && r.delivered == chunk[..Min(Supply(q), |chunk|)]
    && r.outcome == if Supply(q) >= |chunk| then Done else if NeverRaises(q) then Pending else Raised
  }

  lemma {:induction false} KeepingShort(chunk: Bytes, rest: Bytes, schedule: seq<int>)
    requires |chunk| <= WRITE_LEN
    requires
      || rest == [] || |chunk| < WRITE_LEN
      || (chunk != [] && (NonZero(schedule) == [] || NonZero(schedule)[0] < |chunk|))
    ensures EndsKeeping(Sending(Keeping, chunk, rest, schedule), chunk, NonZero(schedule))
    decreases |schedule|
  {
    var q := NonZero(schedule);
    if chunk != [] && schedule != [] {
      if schedule[0] == 0 {
        EmptyWrite(Keeping, chunk, rest, schedule);
        KeepingShort(chunk, rest, schedule[1..]);
      } else if schedule[0] > 0 {
        assert q[1..] == NonZero(schedule[1..]);
        var w := Min(schedule[0], |chunk|);
        if w == |chunk| {
          assert Sending(Keeping, chunk, rest, schedule) == Sent(Done, chunk[..w] + []);
        } else {
          KeepingShort(chunk[w..], rest, schedule[1..]);
          KeepingStep(Sending(Keeping, chunk[w..], rest, schedule[1..]), chunk, q);
        }
      }
    }
  }

  lemma KeepingStep(r: Sent, chunk: Bytes, q: seq<int>)
    requires q != [] && 0 < q[0] < |chunk| && EndsKeeping(r, chunk[q[0]..], q[1..])
    ensures EndsKeeping(Sent(r.outcome, chunk[..q[0]] + r.delivered), chunk, q)
  {
    var m := Min(Supply(q[1..]), |chunk| - q[0]);
    assert chunk[..q[0]] + chunk[q[0]..][..m] == chunk[..q[0] + m];
    assert forall i :: 0 < i < |q| ==> q[i] == q[1..][i - 1];
  }

  lemma {:induction false} KeepingWholeIff(file: Bytes, schedule: seq<int>)
    ensures SendingFile(Keeping, file, schedule) == Sent(Done, file) <==> FullButLast(file, NonZero(schedule))
    decreases |schedule|
  {
    var q := NonZero(schedule);
    if |file| <= WRITE_LEN {
      KeepingShort(file, [], schedule);
      assert Head(file, WRITE_LEN) == file && file[..|file|] == file;
      if file != [] {
        assert Chunks(file, WRITE_LEN) == [file];
        assert q[0..] == q;
      }
    } else {
      FullButLastStep(file, q);
      if schedule != [] && schedule[0] == 0 {
        KeepingWholeIff(file, schedule[1..]);
        EmptyWrite(Keeping, Head(file, WRITE_LEN), Tail(file, WRITE_LEN), schedule);
      } else if schedule != [] && schedule[0] < WRITE_LEN {
        var w := schedule[0];
        if w > 0 {
          ShortBuffer(Keeping, Head(file, WRITE_LEN)[w..], Tail(file, WRITE_LEN), schedule[1..]);
          assert |SendingFile(Keeping, file, schedule).delivered| <= WRITE_LEN;
        }
      } else if schedule != [] {
        KeepingWholeIff(Tail(file, WRITE_LEN), schedule[1..]);
        assert q[1..] == NonZero(schedule[1..]);
        KeepingFullStep(file, schedule);
      }
    }
  }

  lemma KeepingFullStep(file: Bytes, schedule: seq<int>)
    requires |file| > WRITE_LEN && schedule != [] && schedule[0] >= WRITE_LEN
    ensures SendingFile(Keeping, file, schedule) == Sent(Done, file)
       <==> SendingFile(Keeping, Tail(file, WRITE_LEN), schedule[1..]) == Sent(Done, Tail(file, WRITE_LEN))
    ensures var r' := SendingFile(Keeping, Tail(file, WRITE_LEN), schedule[1..]);
      SendingFile(Keeping, file, schedule) == Sent(r'.outcome, Head(file, WRITE_LEN) + r'.delivered)
  {
    var buf, rest := Head(file, WRITE_LEN), Tail(file, WRITE_LEN);
    var r, r' := SendingFile(Keeping, file, schedule), SendingFile(Keeping, rest, schedule[1..]);
    assert buf[..|buf|] == buf;
    assert r == Sent(r'.outcome, buf + r'.delivered);
    assert file == buf + rest;
    assert (buf + r'.delivered)[|buf|..] == r'.delivered;
  }

  ghost predicate EndsKeepingAfter(r: Sent, file: Bytes, q: seq<int>, n: nat)
    requires TakesWhole(file, q, n)
  {
    var sent := n * WRITE_LEN;
    && sent <= |file| && file[..sent] <= r.delivered
    && EndsKeeping(Sent(r.outcome, r.delivered[sent..]), Chunks(file, WRITE_LEN)[n], q[n..])
  }

  lemma KeepingFirst(file: Bytes, schedule: seq<int>)
    requires TakesWhole(file, NonZero(schedule), 0)
    ensures EndsKeepingAfter(SendingFile(Keeping, file, schedule), file, NonZero(schedule), 0)
  {
    var q, r := NonZero(schedule), SendingFile(Keeping, file, schedule);
    assert q[0..] == q && r.delivered[0..] == r.delivered;
    KeepingShort(Head(file, WRITE_LEN), Tail(file, WRITE_LEN), schedule);
  }

  lemma KeepingMore(file: Bytes, schedule: seq<int>, n: nat)
    requires TakesWhole(file, NonZero(schedule), n + 1) && schedule != [] && schedule[0] >= WRITE_LEN
    requires |file| > WRITE_LEN && TakesWhole(Tail(file, WRITE_LEN), NonZero(schedule[1..]), n)
    requires Chunks(file, WRITE_LEN)[n + 1] == Chunks(Tail(file, WRITE_LEN), WRITE_LEN)[n]
    requires EndsKeepingAfter(SendingFile(Keeping, Tail(file, WRITE_LEN), schedule[1..]), Tail(file, WRITE_LEN),
                              NonZero(schedule[1..]), n)
    ensures EndsKeepingAfter(SendingFile(Keeping, file, schedule), file, NonZero(schedule), n + 1)
  {
    KeepingFullStep(file, schedule);
    WholeChunk(file, SendingFile(Keeping, Tail(file, WRITE_LEN), schedule[1..]).delivered, n);
    assert NonZero(schedule)[n + 1..] == NonZero(schedule[1..])[n..];
  }

  lemma KeepingFits(file: Bytes, schedule: seq<int>, n: nat)
    requires TakesWhole(file, NonZero(schedule), n + 1) && (schedule != [] ==> schedule[0] != 0)
    ensures schedule != [] && schedule[0] >= WRITE_LEN && |file| > WRITE_LEN
    ensures TakesWhole(Tail(file, WRITE_LEN), NonZero(schedule[1..]), n)
    ensures Chunks(file, WRITE_LEN)[n + 1] == Chunks(Tail(file, WRITE_LEN), WRITE_LEN)[n]
  {
    TakesWholeStep(file, NonZero(schedule), n);
    assert NonZero(schedule)[1..] == NonZero(schedule[1..]);
  }

  /** On every schedule that does not take each chunk whole, what arrives: the chunks that
      are, and of the next one what the writes take. */
  lemma {:induction false} KeepingExactly(file: Bytes, schedule: seq<int>, n: nat)
    requires TakesWhole(file, NonZero(schedule), n)
    ensures EndsKeepingAfter(SendingFile(Keeping, file, schedule), file, NonZero(schedule), n)
    decreases |schedule|
  {
    var q := NonZero(schedule);
    if schedule != [] && schedule[0] == 0 {
      EmptyWrite(Keeping, Head(file, WRITE_LEN), Tail(file, WRITE_LEN), schedule);
      KeepingExactly(file, schedule[1..], n);
    } else if n == 0 {
      KeepingFirst(file, schedule);
    } else {
      KeepingFits(file, schedule, n - 1);
      KeepingExactly(Tail(file, WRITE_LEN), schedule[1..], n - 1);
      KeepingMore(file, schedule, n - 1);
    }
  }

  lemma KeepingExample(file: Bytes)
    requires |file| == WRITE_LEN + 1
    ensures SendingFile(Keeping, file, [WRITE_LEN - 1, 1]) == Sent(Done, file[..WRITE_LEN])
  {
    var buf := Head(file, WRITE_LEN);
    var b := buf[WRITE_LEN - 1..];
    assert Sending(Keeping, b, Tail(file, WRITE_LEN), [1]) == Sent(Done, b) by {
      assert b[1..] == [];
      assert Sending(Keeping, b[1..], Tail(file, WRITE_LEN), []) == Sent(Done, []);
    }
    assert [WRITE_LEN - 1, 1][1..] == [1];
    assert buf[..WRITE_LEN - 1] + b == buf;
  }

  /** The loop that also refills an empty buffer never stops early, */
  lemma {:induction false} RefillingDone(buf: Bytes, rest: Bytes, schedule: seq<int>)
    requires |buf| <= WRITE_LEN && (buf == [] ==> rest == [])
    ensures Sending(Refilling, buf, rest, schedule).outcome == Done ==>
      Sending(Refilling, buf, rest, schedule).delivered == buf + rest
    decreases |schedule|
  {
    if buf != [] && schedule != [] && schedule[0] >= 0 {
      var w := Min(schedule[0], |buf|);
      var next := AfterWrite(Refilling, buf, rest, w);
      AfterWriteKeeps(Refilling, buf, rest, w);
      RefillingDone(next.0, next.1, schedule[1..]);
      assert (buf + rest)[..w] == buf[..w];
      assert (buf + rest)[..w] + (buf + rest)[w..] == buf + rest;
    }
  }

  /** and every one of the loops ends once enough writes take something. */
  lemma {:induction false} Finishes(v: Repair, buf: Bytes, rest: Bytes, schedule: seq<int>)
    requires NeverRaises(schedule) && |NonZero(schedule)| >= |buf| + |rest| && (buf == [] ==> rest == [])
    ensures Sending(v, buf, rest, schedule).outcome == Done
    decreases |schedule|
  {
    if buf != [] {
      var w := Min(schedule[0], |buf|);
      var next := AfterWrite(v, buf, rest, w);
      assert w > 0 ==> |next.0| + |next.1| < |buf| + |rest|;
      Finishes(v, next.0, if next.0 == [] then [] else next.1, schedule[1..]);
    }
  }

  /** An endless schedule with finitely many empty writes: the repaired loop delivers
      the file, the loop as written ends too but may have lost some of it. */
  lemma EndlessSchedule(file: Bytes, s: nat -> int, n: nat, m: nat)
    requires (forall i :: s(i) >= 0) && (forall i :: i >= n ==> s(i) > 0) && m >= n + |file|
    ensures SendingFile(Refilling, file, Upto(s, m)) == Sent(Done, file)
    ensures SendingFile(AsWritten, file, Upto(s, m)).outcome == Done
  {
    var q := Upto(s, m);
    var buf, rest := Head(file, WRITE_LEN), Tail(file, WRITE_LEN);
    NonZeroLength(q, n);
    Finishes(Refilling, buf, rest, q);
    Finishes(AsWritten, buf, rest, q);
    RefillingDone(buf, rest, q);
    assert buf + rest == file;
  }

  /** A loop holding a short buffer never overtakes the repaired one that is `ahead`
      of it by that many bytes. */
  lemma {:induction false} Behind(b1: Bytes, r1: Bytes, b2: Bytes, r2: Bytes, ahead: nat, schedule: seq<int>)
    requires |b1| < WRITE_LEN && |b2| <= WRITE_LEN && |b1| <= |b2| + ahead
    ensures |Sending(AsWritten, b1, r1, schedule).delivered| <= |Sending(Refilling, b2, r2, schedule).delivered| + ahead
    decreases |schedule|
  {
    if b1 != [] && b2 != [] && schedule != [] && schedule[0] >= 0 {
      var w1, w2 := Min(schedule[0], |b1|), Min(schedule[0], |b2|);
      var n2 := AfterWrite(Refilling, b2, r2, w2);
      Behind(AfterWrite(AsWritten, b1, r1, w1).0, r1, n2.0, n2.1, ahead + w2 - w1, schedule[1..]);
    } else {
      ShortBuffer(AsWritten, b1, r1, schedule);
    }
  }

  /** On every schedule, what the loop as written delivers is a prefix of what the
      repaired loop delivers. */
  lemma {:induction false} NeverAhead(file: Bytes, schedule: seq<int>)
    ensures SendingFile(AsWritten, file, schedule).delivered <= SendingFile(Refilling, file, schedule).delivered
    decreases |schedule|
  {
    var buf, rest := Head(file, WRITE_LEN), Tail(file, WRITE_LEN);
    assert buf + rest == file;
    if buf != [] && schedule != [] && schedule[0] >= 0 {
      var w := Min(schedule[0], |buf|);
      if w == 0 {
        NeverAhead(file, schedule[1..]);
      } else if w < |buf| {
        Behind(CutLast(buf, w), rest, buf[w..], rest, 0, schedule[1..]);
        DeliversPrefix(AsWritten, buf, rest, schedule);
        DeliversPrefix(Refilling, buf, rest, schedule);
      } else {
        NeverAhead(rest, schedule[1..]);
        assert |buf| < WRITE_LEN ==> rest == [];
      }
    }
  }

  /** The run `all`, from `before` on, has got to `now` with `left` to come. */
  predicate Resumes(all: Sent, before: Bytes, now: Bytes, left: Sent) {
    all.outcome == left.outcome && before + all.delivered == now + left.delivered
  }

  lemma SendingStep(buf: Bytes, rest: Bytes, schedule: seq<int>)
    requires buf != [] && schedule != [] && schedule[0] >= 0
    ensures var w := Min(schedule[0], |buf|);
      forall all, before, now ::
        Resumes(all, before, now, Sending(AsWritten, buf, rest, schedule)) ==>
        Resumes(all, before, now + buf[..w],
                Sending(AsWritten, AfterWrite(AsWritten, buf, rest, w).0, AfterWrite(AsWritten, buf, rest, w).1,
                    schedule[1..]))
  {
    var w := Min(schedule[0], |buf|);
    var left := Sending(AsWritten, AfterWrite(AsWritten, buf, rest, w).0, AfterWrite(AsWritten, buf, rest, w).1,
        schedule[1..]);
    forall all, before, now | Resumes(all, before, now, Sending(AsWritten, buf, rest, schedule))
      ensures Resumes(all, before, now + buf[..w], left)
    {
      assert (now + buf[..w]) + left.delivered == now + (buf[..w] + left.delivered);
    }
  }

  /** The calls that follow the loop. */
  datatype Step = Flush | SendEof | WaitEof | WaitClosed

  /** The channel of one transfer. `schedule` says what the coming writes take. */
  class ScpChannel {
    var schedule: seq<int>
    var delivered: Bytes
    var eof: bool
    var closed: bool

    constructor (s: seq<int>)
      ensures schedule == s && delivered == [] && !eof && !closed
    {
      schedule, delivered, eof, closed := s, [], false, false;
    }

    /** `channel.write(buf)`: what was taken, or that it raised. */
    method Write(buf: Bytes) returns (written: nat, raised: bool)
      requires schedule != []
      modifies this`schedule, this`delivered
      ensures schedule == old(schedule)[1..]
      ensures raised == (old(schedule)[0] < 0)
      ensures !raised ==> written == Min(old(schedule)[0], |buf|) && delivered == old(delivered) + buf[..written]
      ensures raised ==> delivered == old(delivered)
    {
      var e := schedule[0];
      schedule := schedule[1..];
      if e < 0 {
        return 0, true;
      }
      written, raised := Min(e, |buf|), false;
      delivered := delivered + buf[..written];
    }

    /** The loop of `scp_send_file`. */
    method SendLoop(file: Bytes) returns (outcome: Outcome)
      modifies this`schedule, this`delivered
      ensures var r := SendingFile(AsWritten, file, old(schedule));
        outcome == r.outcome && delivered == old(delivered) + r.delivered
    {
      var buf, rest := Head(file, WRITE_LEN), Tail(file, WRITE_LEN);
      ghost var before, all := delivered, SendingFile(AsWritten, file, schedule);
      while buf != []
        invariant Resumes(all, before, delivered, Sending(AsWritten, buf, rest, schedule))
        decreases |schedule|
      {
        if schedule == [] {
          return Pending;
        }
        ghost var b, r, q := buf, rest, schedule;
        var written, raised := Write(buf);
        if raised {
          return Raised;
        }
        SendingStep(b, r, q);
        if written == 0 {
          continue;
        } else if written == WRITE_LEN {
          buf, rest := Head(rest, WRITE_LEN), Tail(rest, WRITE_LEN);
        } else {
          buf := CutLast(buf, written);
        }
      }
      return Done;
    }

    /** `scp_send_file`, once the channel is open; the calls in `failing` raise. The
        channel is closed only if everything before worked, and a failing
        `wait_closed` is only printed. */
    method SendFile(file: Bytes, failing: set<Step>) returns (outcome: Outcome)
      requires !eof && !closed
      modifies this
      ensures var r := SendingFile(AsWritten, file, old(schedule));
        && delivered == old(delivered) + r.delivered
        && (outcome == Done <==> r.outcome == Done && failing <= {WaitClosed})
        && (outcome == Pending <==> r.outcome == Pending)
        && (eof <==> r.outcome == Done && failing !! {Flush, SendEof})
        && (closed <==> r.outcome == Done && failing == {})
    {
      outcome := SendLoop(file);
      if outcome != Done {
        return;
      }
      if Flush in failing {
        return Raised;
      }
      if SendEof in failing {
        return Raised;
      }
      eof := true;
      if WaitEof in failing {
        return Raised;
      }
      if WaitClosed !in failing {
        closed := true;
      }
      assert forall s :: s in failing ==> s == WaitClosed;
      assert WaitClosed !in failing ==> failing == {};
    }
  }
}
