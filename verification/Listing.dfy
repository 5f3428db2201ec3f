/** Reading a remote directory entry by entry and all at once. */
module Listing {
  import opened Options
  import opened Streams

  type Name = string
  type Attrs = nat
  datatype Item = Item(name: Name, attrs: Attrs)

  /** What libssh2_sftp_readdir has to say: an entry or a negative code. */
  datatype Reply = Entry(item: Item) | Fails(code: int)

  /** What a method returns to Python, or that it raises. */
  datatype Answer<T> = Returned(value: T) | Raised

  type Dict = map<Name, Attrs>

  /** A dictionary filled entry by entry. */
  function DictOf(items: seq<Item>): Dict {
    if items == [] then map[]
    else
      var last := items[|items| - 1];
      DictOf(items[..|items| - 1])[last.name := last.attrs]
  }

  /** It has the names that occur, each with the attributes of its last entry. */
  lemma {:induction false} LastWins(items: seq<Item>)
    ensures forall n :: n in DictOf(items) <==> exists i :: 0 <= i < |items| && items[i].name == n
    ensures forall i :: 0 <= i < |items| && (forall j :: i < j < |items| ==> items[j].name != items[i].name) ==>
        items[i].name in DictOf(items) && DictOf(items)[items[i].name] == items[i].attrs
  {
    if items != [] {
      var init, last := items[..|items| - 1], items[|items| - 1];
      LastWins(init);
      forall n ensures n in DictOf(items) <==> exists i :: 0 <= i < |items| && items[i].name == n {
        if n in DictOf(init) {
          var i :| 0 <= i < |init| && init[i].name == n;
          assert items[i].name == n;
        }
        if i :| 0 <= i < |items| && items[i].name == n {
          assert i < |init| ==> init[i].name == n;
        }
      }
      forall i | 0 <= i < |items| && (forall j :: i < j < |items| ==> items[j].name != items[i].name)
        ensures items[i].name in DictOf(items) && DictOf(items)[items[i].name] == items[i].attrs
      {
        if i < |init| {
          assert items[|items| - 1].name != items[i].name;
          assert forall j :: i < j < |init| ==> init[j].name != init[i].name;
          assert init[i] == items[i];
        }
      }
    }
  }

  lemma {:induction false} DictOfAppend(a: seq<Item>, b: seq<Item>)
    ensures DictOf(a + b) == DictOf(a) + DictOf(b)
  {
    if b == [] {
      assert a + b == a;
    } else {
      assert (a + b)[..|a + b| - 1] == a + b[..|b| - 1];
      DictOfAppend(a, b[..|b| - 1]);
    }
  }

  /** The entries before the first reply that is none. */
  function Leading(q: seq<Reply>): seq<Item> {
    if q == [] || q[0].Fails? then [] else [q[0].item] + Leading(q[1..])
  }

  /** The replies from the first one on that is not an entry. */
  function Trouble(q: seq<Reply>): (r: seq<Reply>)
    ensures r != [] ==> r[0].Fails?
  {
    if q == [] || q[0].Fails? then q else Trouble(q[1..])
  }

  /** An open directory: the replies to come, then the end. */
  class SftpDir {
    var replies: seq<Reply>

    constructor (q: seq<Reply>)
      ensures replies == q
    {
      replies := q;
    }

    /** `read`: the next entry; None at its end, but also for a code other than -1. */
    method Read() returns (r: Answer<Option<Item>>)
      modifies this
      ensures replies == Left(old(replies)) && r == ReadAnswer(old(replies))
    {
      if replies == [] {
        return Returned(None);
      }
      var reply := replies[0];
      replies := replies[1..];
      if reply.Fails? {
        return if reply.code == -1 then Raised else Returned(None);
      }
      return Returned(Some(reply.item));
    }

    /** `list_files`: a dictionary of all entries to come, or nothing of them. */
    method ListFiles() returns (r: Answer<Option<Dict>>)
      modifies this
      ensures replies == Left(Trouble(old(replies)))
      ensures r == ListAnswer(old(replies))
    {
      var dict: Dict := map[];
      ghost var seen: seq<Item> := [];
      while true
        invariant Trouble(replies) == Trouble(old(replies)) && Leading(old(replies)) == seen + Leading(replies)
        invariant dict == DictOf(seen)
        decreases |replies|
      {
        ghost var q := replies;
        Seen(q, seen);
        if replies == [] {
          return Returned(Some(dict));
        }
        var reply := replies[0];
        replies := replies[1..];
        if reply.Fails? {
          return if reply.code == -1 then Raised else Returned(None);
        }
        seen := seen + [reply.item];
        dict := dict[reply.item.name := reply.item.attrs];
      }
    }
  }

  lemma Seen(q: seq<Reply>, seen: seq<Item>)
    ensures q == [] ==> seen + Leading(q) == seen
    ensures q != [] && q[0].Entry? ==> seen + Leading(q) == seen + [q[0].item] + Leading(q[1..])
    ensures q != [] && q[0].Entry? ==> DictOf(seen + [q[0].item]) == DictOf(seen)[q[0].item.name := q[0].item.attrs]
  {
    if q != [] && q[0].Entry? {
      assert (seen + [q[0].item])[..|seen|] == seen;
    }
  }

  function Left(q: seq<Reply>): seq<Reply> {
    if q == [] then [] else q[1..]
  }

  function ReadAnswer(q: seq<Reply>): Answer<Option<Item>> {
    if q == [] then Returned(None)
    else if q[0].Entry? then Returned(Some(q[0].item))
    else if q[0].code == -1 then Raised
    else Returned(None)
  }

  function ListAnswer(q: seq<Reply>): Answer<Option<Dict>> {
    if Trouble(q) == [] then Returned(Some(DictOf(Leading(q))))
    else if Trouble(q)[0].code == -1 then Raised
    else Returned(None)
  }

  /** The replies left after `k` calls of `read`. */
  function After(q: seq<Reply>, k: nat): seq<Reply> {
    if k == 0 then q else After(Left(q), k - 1)
  }

  /** What a caller collects who calls `read` until it no longer gives an entry. */
  function Stepwise(q: seq<Reply>): seq<Item> {
    if ReadAnswer(q).Returned? && ReadAnswer(q).value.Some? then [ReadAnswer(q).value.value] + Stepwise(Left(q)) else []
  }

  /** After `k` reads of a directory that can be read to its end, `list_files` answers
      with the rest, which is empty if there were no more than `k` entries; together
      they make up the whole listing, and reading on would have given the same
      dictionary. */
  lemma ReadsThenList(q: seq<Reply>, k: nat)
    requires Trouble(q) == []
    ensures ListAnswer(After(q, k)) == Returned(Some(DictOf(Tail(Leading(q), k))))
    ensures DictOf(Head(Leading(q), k)) + DictOf(Tail(Leading(q), k)) == DictOf(Leading(q)) == DictOf(Stepwise(q))
    ensures Stepwise(After(q, k)) == Tail(Leading(q), k)
  {
    AfterReads(q, k);
    StepwiseLeading(q);
    StepwiseLeading(After(q, k));
    DictOfParts(Leading(q), k);
  }

  lemma DictOfParts(items: seq<Item>, k: nat)
    ensures DictOf(Head(items, k)) + DictOf(Tail(items, k)) == DictOf(items)
  {
    assert Head(items, k) + Tail(items, k) == items;
    DictOfAppend(Head(items, k), Tail(items, k));
  }

  /** When the directory cannot be read to its end the two part ways: the stepwise
      caller keeps the leading entries, `list_files` loses them. */
  lemma ListIsAllOrNothing(q: seq<Reply>)
    ensures ListAnswer(q) == Returned(Some(DictOf(Stepwise(q)))) <==> Trouble(q) == []
    ensures Trouble(q) == [] <==> forall i :: 0 <= i < |q| ==> q[i].Entry?
  {
    StepwiseLeading(q);
    TroubleEmptyIff(q);
  }

  function Entries(items: seq<Item>): (r: seq<Reply>)
    ensures |r| == |items| && forall i :: 0 <= i < |items| ==> r[i] == Entry(items[i])
  {
    seq(|items|, i requires 0 <= i < |items| => Entry(items[i]))
  }

  /** Reading a directory to its end: each entry in turn, then None, however often. */
  lemma {:induction false} ReadsInOrder(items: seq<Item>, k: nat)
    ensures var r := ReadAnswer(After(Entries(items), k));
      if k < |items| then r == Returned(Some(items[k])) else r == Returned(None) && After(Entries(items), k) == []
  {
    if k > 0 {
      if items == [] {
        ReadsInOrder(items, k - 1);
      } else {
        assert Entries(items)[1..] == Entries(items[1..]);
        ReadsInOrder(items[1..], k - 1);
      }
    }
  }

  /** How they fail: for code -1 both raise, for any other code both give None; the
      failing reply is used up, and what comes after it is not. */
  lemma {:induction false} FailsWith(items: seq<Item>, code: int, more: seq<Reply>)
    ensures var q, failed := Entries(items) + [Fails(code)] + more, if code == -1 then Raised else Returned(None);
      && ListAnswer(q) == failed && Left(Trouble(q)) == more && Leading(q) == items
    ensures var q := Entries(items) + [Fails(code)] + more;
      && After(q, |items|) == [Fails(code)] + more
      && ReadAnswer(After(q, |items|)) == if code == -1 then Raised else Returned(None)
    decreases |items|
  {
    var q := Entries(items) + [Fails(code)] + more;
    if items == [] {
      assert q == [Fails(code)] + more;
    } else {
      assert q[1..] == Entries(items[1..]) + [Fails(code)] + more;
      assert q[0] == Entry(items[0]);
      FailsWith(items[1..], code, more);
      assert [items[0]] + items[1..] == items;
    }
  }

  lemma {:induction false} TroubleEmptyIff(q: seq<Reply>)
    ensures Trouble(q) == [] <==> forall i :: 0 <= i < |q| ==> q[i].Entry?
  {
    if q != [] {
      TroubleEmptyIff(q[1..]);
      assert forall i :: 0 <= i < |q[1..]| ==> q[1..][i] == q[i + 1];
      if Trouble(q) == [] {
        forall i | 0 <= i < |q| ensures q[i].Entry? {
          assert i > 0 ==> q[1..][i - 1].Entry?;
        }
      }
    }
  }

  lemma {:induction false} StepwiseLeading(q: seq<Reply>)
    ensures Stepwise(q) == Leading(q)
  {
    if q != [] {
      StepwiseLeading(q[1..]);
    }
  }

  lemma {:induction false} AfterReads(q: seq<Reply>, k: nat)
    requires Trouble(q) == []
    ensures Leading(After(q, k)) == Tail(Leading(q), k) && Trouble(After(q, k)) == []
  {
    if k > 0 {
      AfterReads(Left(q), k - 1);
    }
  }
}
