/** Sequences, the fixed-size chunks a loop cuts them into, and schedules that say
    how much each call of the environment gives or takes. */
module Streams {
  type Bytes = seq<bv8>

  function Min(a: int, b: int): int {
    if a <= b then a else b
  }

  /** The first `size` elements, all if there are fewer: what `file.read(size)` returns,
      and what a disk with that much room stores. */
  function Head<T>(data: seq<T>, size: nat): seq<T> {
    data[..Min(size, |data|)]
  }

  function Tail<T>(data: seq<T>, size: nat): seq<T> {
    data[Min(size, |data|)..]
  }

  /** What a loop over `data` works on when it takes `size` elements at a time. */
  function Chunks<T>(data: seq<T>, size: nat): seq<seq<T>>
    requires size > 0
  {
    if data == [] then [] else [Head(data, size)] + Chunks(Tail(data, size), size)
  }

  function Concat<T>(parts: seq<seq<T>>): seq<T> {
    if parts == [] then [] else parts[0] + Concat(parts[1..])
  }

  /** Nothing is lost or reordered, */
  lemma {:induction false} ConcatChunks<T>(data: seq<T>, size: nat)
    requires size > 0
    ensures Concat(Chunks(data, size)) == data
  {
    if data != [] {
      ConcatChunks(Tail(data, size), size);
      assert Chunks(data, size)[1..] == Chunks(Tail(data, size), size);
    }
  }

  /** no chunk is empty or too long, all but the last are full, */
  lemma {:induction false} ChunkSizes<T>(data: seq<T>, size: nat, i: nat)
    requires size > 0 && i < |Chunks(data, size)|
    ensures 1 <= |Chunks(data, size)[i]| <= size
    ensures i < |Chunks(data, size)| - 1 ==> |Chunks(data, size)[i]| == size
  {
    if i > 0 {
      ChunkSizes(Tail(data, size), size, i - 1);
    }
  }

  /** and there are as few as possible: the number of data over `size`, rounded up. */
  lemma {:induction false} ChunkCount<T>(data: seq<T>, size: nat)
    requires size > 0
    ensures |data| <= |Chunks(data, size)| * size < |data| + size
  {
    if |data| > size {
      ChunkCount(Tail(data, size), size);
      Successor(|Chunks(Tail(data, size), size)|, size);
    } else if data != [] {
      assert |Chunks(data, size)| == 1;
    }
  }

  lemma Successor(n: nat, size: nat)
    ensures (n + 1) * size == n * size + size
  {
  }

  /** The i-th entry takes the i-th chunk in one go. */
  ghost predicate FullWrites(data: Bytes, size: nat, q: seq<int>)
    requires size > 0
  {
    |Chunks(data, size)| <= |q| && forall i :: 0 <= i < |Chunks(data, size)| ==> q[i] >= |Chunks(data, size)[i]|
  }

  lemma FullWritesStep(data: Bytes, size: nat, q: seq<int>)
    requires size > 0 && data != [] && q != []
    ensures FullWrites(data, size, q) <==> q[0] >= |Head(data, size)| && FullWrites(Tail(data, size), size, q[1..])
  {
    var cs, ts := Chunks(data, size), Chunks(Tail(data, size), size);
    assert cs == [Head(data, size)] + ts;
    assert forall i :: 0 <= i < |ts| ==> ts[i] == cs[i + 1];
    assert |ts| <= |q[1..]| ==> forall i :: 0 <= i < |ts| ==> q[1..][i] == q[i + 1];
    if FullWrites(data, size, q) {
      forall i | 0 <= i < |ts| ensures q[1..][i] >= |ts[i]| {
        assert q[i + 1] >= |cs[i + 1]|;
      }
    }
    if q[0] >= |Head(data, size)| && FullWrites(Tail(data, size), size, q[1..]) {
      forall i | 0 <= i < |cs| ensures q[i] >= |cs[i]| {
        if i > 0 {
          assert q[1..][i - 1] >= |ts[i - 1]|;
        }
      }
    }
  }

  /** The entries of a schedule that are not zero, in order. */
  function NonZero(schedule: seq<int>): seq<int> {
    if schedule == [] then []
    else (if schedule[0] == 0 then [] else [schedule[0]]) + NonZero(schedule[1..])
  }

  predicate NeverRaises(schedule: seq<int>) {
    forall i :: 0 <= i < |schedule| ==> schedule[i] >= 0
  }

  /** The first `n` entries of an endless schedule. */
  function Upto(s: nat -> int, n: nat): (r: seq<int>)
    ensures |r| == n && forall i :: 0 <= i < n ==> r[i] == s(i)
  {
    seq(n, i requires 0 <= i < n => s(i))
  }

  lemma {:induction false} NonZeroLength(schedule: seq<int>, start: nat)
    requires start <= |schedule| && forall i :: start <= i < |schedule| ==> schedule[i] > 0
    ensures |NonZero(schedule)| >= |schedule| - start
  {
    if schedule != [] {
      NonZeroLength(schedule[1..], if start == 0 then 0 else start - 1);
    }
  }

  /** How much the entries before the first one that raises add up to. */
  function Supply(q: seq<int>): nat {
    if q == [] || q[0] < 0 then 0 else q[0] + Supply(q[1..])
  }
}
