/** `Session.mv` on a list of names: shell commands for at most a hundred at a time. */
module Batches {
  import opened Streams

  const BATCH: nat := 100

  /** `" ".join(names)` */
  function Join(names: seq<string>): string {
    if names == [] then ""
    else if |names| == 1 then names[0]
    else names[0] + " " + Join(names[1..])
  }

  function Command(batch: seq<string>, dst: string): string {
    "mv " + Join(batch) + " " + dst
  }

  function Commands(src: seq<string>, dst: string): seq<string> {
    var batches := Chunks(src, BATCH);
    seq(|batches|, i requires 0 <= i < |batches| => Command(batches[i], dst))
  }

  predicate Blank(c: char) {
    c in {' ', '\t', '\n'}
  }

  predicate Clean(word: string) {
    word != "" && forall i :: 0 <= i < |word| ==> !Blank(word[i])
  }

  /** The shell's word splitting: blanks separate, runs of them count once. */
  function Split(s: string, word: string): seq<string>
    decreases |s|
  {
    var done := if word == "" then [] else [word];
    if s == "" then done
    else if Blank(s[0]) then done + Split(s[1..], "")
    else Split(s[1..], word + [s[0]])
  }

  function Words(s: string): seq<string> {
    Split(s, "")
  }

  lemma {:induction false} SplitClean(s: string, word: string)
    requires forall i :: 0 <= i < |word| ==> !Blank(word[i])
    ensures forall w :: w in Split(s, word) ==> Clean(w)
    decreases |s|
  {
    if s != "" {
      SplitClean(s[1..], if Blank(s[0]) then "" else word + [s[0]]);
    }
  }

  lemma {:induction false} SplitWord(w: string, rest: string, word: string)
    requires forall i :: 0 <= i < |w| ==> !Blank(w[i])
    ensures Split(w + rest, word) == Split(rest, word + w)
    decreases |w|
  {
    if w == "" {
      assert w + rest == rest;
      assert word + w == word;
    } else {
      assert (w + rest)[1..] == w[1..] + rest;
      assert (word + [w[0]]) + w[1..] == word + w;
      SplitWord(w[1..], rest, word + [w[0]]);
    }
  }

  lemma {:induction false} WordsOfJoin(names: seq<string>)
    requires forall n :: n in names ==> Clean(n)
    ensures Words(Join(names)) == names
  {
    if names != [] {
      var n := names[0];
      assert Clean(n);
      assert "" + n == n;
      if |names| == 1 {
        assert n + "" == n;
        SplitWord(n, "", "");
      } else {
        var rest := " " + Join(names[1..]);
        assert Join(names) == n + rest;
        SplitWord(n, rest, "");
        assert rest[1..] == Join(names[1..]);
        WordsOfJoin(names[1..]);
      }
    }
  }

  lemma {:induction false} JoinLast(names: seq<string>, last: string)
    requires names != []
    ensures Join(names + [last]) == Join(names) + " " + last
  {
    assert (names + [last])[1..] == names[1..] + [last];
    if |names| > 1 {
      JoinLast(names[1..], last);
      assert Join(names + [last]) == names[0] + " " + (Join(names[1..]) + " " + last);
    }
  }

  lemma CommandIsJoin(batch: seq<string>, dst: string)
    requires batch != []
    ensures Command(batch, dst) == Join(["mv"] + batch + [dst])
  {
    assert (["mv"] + batch)[1..] == batch;
    JoinLast(["mv"] + batch, dst);
  }

  /** The shell sees the names it was meant to see exactly when none of them is empty
      or holds a blank. */
  lemma WordsOfCommand(batch: seq<string>, dst: string)
    requires batch != []
    ensures Words(Command(batch, dst)) == ["mv"] + batch + [dst] <==> Clean(dst) && forall n :: n in batch ==> Clean(n)
  {
    var names := ["mv"] + batch + [dst];
    CommandIsJoin(batch, dst);
    SplitClean(Command(batch, dst), "");
    if Clean(dst) && forall n :: n in batch ==> Clean(n) {
      WordsOfJoin(names);
    }
    assert dst in names && forall n :: n in batch ==> n in names;
  }

  /** Each name as it is, with one blank after it. */
  function Spaced(batch: seq<string>): (r: seq<string>)
    ensures |r| == |batch| && forall i :: 0 <= i < |batch| ==> r[i] == batch[i] + " "
  {
    seq(|batch|, i requires 0 <= i < |batch| => batch[i] + " ")
  }

  /** The text of a command, to the letter and for any names. */
  lemma CommandText(batch: seq<string>, dst: string)
    requires batch != []
    ensures Command(batch, dst) == "mv " + Concat(Spaced(batch)) + dst
  {
    JoinSpaced(batch);
    assert "mv " + Join(batch) + " " == "mv " + (Join(batch) + " ");
  }

  lemma {:induction false} JoinSpaced(names: seq<string>)
    requires names != []
    ensures Join(names) + " " == Concat(Spaced(names))
  {
    assert Spaced(names)[1..] == Spaced(names[1..]);
    assert Concat(Spaced(names)) == (names[0] + " ") + Concat(Spaced(names[1..]));
    if |names| > 1 {
      JoinSpaced(names[1..]);
      assert Join(names) + " " == names[0] + " " + (Join(names[1..]) + " ");
    }
  }

  /** The names that the commands mention, without "mv" and the target. */
  function Mentioned(commands: seq<string>): seq<string> {
    if commands == [] then []
    else
      var ws := Words(commands[0]);
      (if |ws| < 2 then [] else ws[1..|ws| - 1]) + Mentioned(commands[1..])
  }

  /** The i-th command is for names 100 i to 100 i + 99, and there are as few commands as
      that takes, whatever the names. */
  lemma {:induction false} CommandAt(src: seq<string>, dst: string, i: nat)
    ensures |Commands(src, dst)| == (|src| + 99) / 100
    ensures i < |Commands(src, dst)| ==>
      100 * i < |src| && Commands(src, dst)[i] == Command(src[100 * i..Min(100 * i + 100, |src|)], dst)
    decreases |src|
  {
    ChunkCount(src, BATCH);
    if i < |Commands(src, dst)| {
      CommandsStep(src, dst);
      if i > 0 {
        var t := Tail(src, BATCH);
        CommandAt(t, dst, i - 1);
        assert t[100 * (i - 1)..Min(100 * (i - 1) + 100, |t|)] == src[100 * i..Min(100 * i + 100, |src|)];
      }
    }
  }

  /** Together the commands move every name once, in order, as few at a time as needed:
      the number of commands is that of the names over a hundred, rounded up. */
  lemma CommandsCover(src: seq<string>, dst: string)
    requires Clean(dst) && forall n :: n in src ==> Clean(n)
    ensures Mentioned(Commands(src, dst)) == src
    ensures |Commands(src, dst)| == (|src| + 99) / 100
  {
    ChunkCount(src, BATCH);
    MentionedChunks(src, dst);
  }

  lemma {:induction false} MentionedChunks(src: seq<string>, dst: string)
    requires Clean(dst) && forall n :: n in src ==> Clean(n)
    ensures Mentioned(Commands(src, dst)) == src
  {
    if src != [] {
      var h, t := Head(src, BATCH), Tail(src, BATCH);
      var cs := Commands(src, dst);
      assert src == h + t;
      assert Chunks(src, BATCH)[1..] == Chunks(t, BATCH);
      assert cs[1..] == Commands(t, dst);
      MentionedChunks(t, dst);
      WordsOfCommand(h, dst);
      assert (["mv"] + h + [dst])[1..|h| + 1] == h;
    }
  }

  /** The session, as far as `mv` uses it: the commands its channels have executed, and
      how many of those channels were closed. Opening or executing fails for the
      command numbers in `failing`. */
  class Session {
    const failing: set<nat>
    var executed: seq<string>
    var closed: nat

    constructor (f: set<nat>)
      ensures failing == f && executed == [] && closed == 0
    {
      failing, executed, closed := f, [], 0;
    }

    /** `mv` on a list: one channel a batch, until one fails. */
    method Mv(src: seq<string>, dst: string) returns (raised: bool)
      modifies this
      ensures var n := |executed| - |old(executed)|;
        && 0 <= n <= |Commands(src, dst)| && executed == old(executed) + Commands(src, dst)[..n]
        && closed == old(closed) + n
        && (raised <==> n < |Commands(src, dst)|) && (raised ==> |executed| in failing)
        && forall i :: |old(executed)| <= i < |executed| ==> i !in failing
    {
      var left := src;
      ghost var n := 0;
      while |left| > 0
        invariant n <= |Commands(src, dst)| && executed == old(executed) + Commands(src, dst)[..n]
        invariant closed == old(closed) + n
        invariant Commands(left, dst) == Commands(src, dst)[n..]
        invariant forall i :: |old(executed)| <= i < |executed| ==> i !in failing
        decreases |left|
      {
        if |executed| in failing {
          return true;
        }
        var length := Min(100, |left|);
        var batch := left[..length];
        CommandsStep(left, dst);
        executed := executed + [Command(batch, dst)];
        left := left[length..];
        closed := closed + 1;
        n := n + 1;
      }
      return false;
    }
  }

  lemma CommandsStep(src: seq<string>, dst: string)
    requires src != []
    ensures Commands(src, dst) == [Command(Head(src, BATCH), dst)] + Commands(Tail(src, BATCH), dst)
  {
    assert Chunks(src, BATCH) == [Head(src, BATCH)] + Chunks(Tail(src, BATCH), BATCH);
  }
}
