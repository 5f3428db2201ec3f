/** What the mode letters of `open_file` ask of the server. */
module Flags {
  type Mask = bv32

  // LIBSSH2_FXF_* values, section 6.3 of draft-ietf-secsh-filexfer-02
  const READ: Mask := 0x01
  const WRITE: Mask := 0x02
  const APPEND: Mask := 0x04
  const CREAT: Mask := 0x08
  const TRUNC: Mask := 0x10
  const EXCL: Mask := 0x20

  const TABLE: seq<(char, Mask)> := [
    ('a', APPEND),
    ('w', WRITE | TRUNC | CREAT),
    ('r', READ),
    ('+', READ | WRITE),
    ('x', WRITE | TRUNC | EXCL | CREAT)
  ]

  predicate Has(f: Mask, bit: Mask) {
    f & bit != 0
  }

  /** The flags of those letters of the table that occur in `mode`. */
  function Union(table: seq<(char, Mask)>, mode: string): Mask {
    if table == [] then 0
    else
      var f := Union(table[..|table| - 1], mode);
      if table[|table| - 1].0 in mode then f | table[|table| - 1].1 else f
  }

  function FlagsOf(mode: string): Mask {
    Union(TABLE, mode)
  }

  /** Bit by bit: letters combine, their order and repetition do not matter. */
  lemma FlagsMeaning(mode: string)
    ensures Has(FlagsOf(mode), READ) <==> 'r' in mode || '+' in mode
    ensures Has(FlagsOf(mode), WRITE) <==> 'w' in mode || '+' in mode || 'x' in mode
    ensures Has(FlagsOf(mode), APPEND) <==> 'a' in mode
    ensures Has(FlagsOf(mode), CREAT) <==> 'w' in mode || 'x' in mode
    ensures Has(FlagsOf(mode), TRUNC) <==> 'w' in mode || 'x' in mode
    ensures Has(FlagsOf(mode), EXCL) <==> 'x' in mode
  {
    var f1 := if 'a' in mode then APPEND else 0;
    var f2 := f1 | (if 'w' in mode then WRITE | TRUNC | CREAT else 0);
    var f3 := f2 | (if 'r' in mode then READ else 0);
    var f4 := f3 | (if '+' in mode then READ | WRITE else 0);
    assert Union(TABLE[..1], mode) == f1;
    assert Union(TABLE[..2], mode) == f2 by { assert TABLE[..2][..1] == TABLE[..1]; }
    assert Union(TABLE[..3], mode) == f3 by { assert TABLE[..3][..2] == TABLE[..2]; }
    assert Union(TABLE[..4], mode) == f4 by { assert TABLE[..4][..3] == TABLE[..3]; }
    assert TABLE[..5] == TABLE;
  }

  lemma UnionStep(table: seq<(char, Mask)>, mode: string, i: nat)
    requires i < |table|
    ensures table[i].0 in mode ==> Union(table[..i + 1], mode) == Union(table[..i], mode) | table[i].1
    ensures table[i].0 !in mode ==> Union(table[..i + 1], mode) == Union(table[..i], mode)
  {
    assert table[..i + 1][..i] == table[..i];
  }

  /** The loop of `get_flags`, over a table of letters. */
  method Collect(table: seq<(char, Mask)>, mode: string) returns (f: Mask)
    ensures f == Union(table, mode)
  {
    f := 0;
    for i := 0 to |table|
      invariant f == Union(table[..i], mode)
    {
      UnionStep(table, mode, i);
      if table[i].0 in mode {
        f := f | table[i].1;
      }
    }
    assert table[..|table|] == table;
  }

  /** get_flags */
  method GetFlags(mode: string) returns (f: Mask)
    ensures f == FlagsOf(mode)
  {
    f := Collect(TABLE, mode);
  }
}
