/** Loops that read until they get nothing: `Sftp.get`, and `read(-1)` of files and
    channels. A read that fails looks like the end of the data to them. */
module Draining {
  import opened Streams
  import opened ScpSend

  /** How much one read asks for. */
  type Size = n: nat | n > 0 witness 1

  /** An entry that is not positive is a read that raises, returns None or is empty. */
  function Drain(data: Bytes, max: Size, schedule: seq<int>): Sent
    decreases |schedule|
  {
    if data == [] then Sent(Done, [])
    else if schedule == [] then Sent(Pending, [])
    else if schedule[0] <= 0 then Sent(Done, [])
    else
      var n := Min(schedule[0], Min(max, |data|));
      var r := Drain(data[n..], max, schedule[1..]);
      Sent(r.outcome, data[..n] + r.delivered)
  }

  /** What the reads before the first one that gives nothing are good for. */
  function Allowance(schedule: seq<int>, max: Size): nat {
    if schedule == [] || schedule[0] <= 0 then 0 else Min(schedule[0], max) + Allowance(schedule[1..], max)
  }

  predicate AllPositive(schedule: seq<int>) {
    forall i :: 0 <= i < |schedule| ==> schedule[i] > 0
  }

  /** The loop returns as much of the data as its reads allow, however they cut it; it
      is still waiting if all of them gave something and the data is not used up, */
  lemma {:induction false} DrainExact(data: Bytes, max: Size, schedule: seq<int>)
    ensures Drain(data, max, schedule).delivered == data[..Min(Allowance(schedule, max), |data|)]
    ensures Drain(data, max, schedule).outcome ==
      if Allowance(schedule, max) < |data| && AllPositive(schedule) then Pending else Done
    decreases |schedule|
  {
    if data != [] && schedule != [] && schedule[0] > 0 {
      var n := Min(schedule[0], Min(max, |data|));
      DrainExact(data[n..], max, schedule[1..]);
      HeadAndMore(data, n, Min(Allowance(schedule[1..], max), |data| - n));
      assert forall i :: 0 < i < |schedule| ==> schedule[i] == schedule[1..][i - 1];
    }
  }

  lemma HeadAndMore(data: Bytes, n: nat, m: nat)
    requires n + m <= |data|
    ensures data[..n] + data[n..][..m] == data[..n + m]
  {
  }

  /** hence all of it exactly when nothing interrupts it before the end. */
  lemma DrainWholeIff(data: Bytes, max: Size, schedule: seq<int>)
    ensures Drain(data, max, schedule) == Sent(Done, data) <==> Allowance(schedule, max) >= |data|
  {
    DrainExact(data, max, schedule);
    assert data[..|data|] == data;
    if Allowance(schedule, max) >= |data| {
      EndsWhole(data, max, schedule);
    } else {
      assert |Drain(data, max, schedule).delivered| < |data|;
    }
  }

  lemma {:induction false} EndsWhole(data: Bytes, max: Size, schedule: seq<int>)
    requires Allowance(schedule, max) >= |data|
    ensures Drain(data, max, schedule).outcome == Done
    decreases |schedule|
  {
    if data != [] {
      var n := Min(schedule[0], Min(max, |data|));
      EndsWhole(data[n..], max, schedule[1..]);
    }
  }

  /** Non-empty reads, one per byte at most, always suffice. */
  lemma {:induction false} PositiveReadsSuffice(max: Size, schedule: seq<int>)
    requires AllPositive(schedule)
    ensures Allowance(schedule, max) >= |schedule|
  {
    if schedule != [] {
      PositiveReadsSuffice(max, schedule[1..]);
    }
  }

  /** One read of at most `max` bytes: what the next entry gives. */
  function ReadCount(entry: int, max: Size, data: Bytes): nat {
    if entry <= 0 then 0 else Min(entry, Min(max, |data|))
  }

  /** The run `all` over `whole` has collected `buf`, with `data` to come. */
  predicate Collects(all: Sent, whole: Bytes, buf: Bytes, data: Bytes, max: Size, schedule: seq<int>) {
    var r := Drain(data, max, schedule);
    whole == buf + data && all.outcome == r.outcome && all.delivered == buf + r.delivered
  }

  lemma CollectStep(all: Sent, whole: Bytes, buf: Bytes, data: Bytes, max: Size, schedule: seq<int>)
    requires schedule != [] && Collects(all, whole, buf, data, max, schedule)
    ensures var n := ReadCount(schedule[0], max, data);
      if n == 0 then all == Sent(Done, buf)
      else Collects(all, whole, buf + data[..n], data[n..], max, schedule[1..])
  {
    var n := ReadCount(schedule[0], max, data);
    var r := Drain(data[n..], max, schedule[1..]);
    assert buf + (data[..n] + r.delivered) == (buf + data[..n]) + r.delivered;
    assert buf + (data[..n] + data[n..]) == (buf + data[..n]) + data[n..];
    assert buf + [] == buf;
  }

  lemma CollectEnd(all: Sent, whole: Bytes, buf: Bytes, data: Bytes, max: Size, schedule: seq<int>)
    requires Collects(all, whole, buf, data, max, schedule)
    ensures data == [] ==> all == Sent(Done, buf)
    ensures data != [] && schedule == [] ==> all == Sent(Pending, buf)
  {
    assert buf + [] == buf;
  }
}
