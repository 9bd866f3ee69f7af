/** The per-row digest (sqlWrapper.hash): every column's bytes, or a fixed
    sentinel when the column is NULL, each followed by a zero byte, fed to
    SHA-256 in column order. */
module Hasher {
  import opened Common

  /** A scanned column: `None` is Go's nil `RawBytes` (SQL NULL). */
  type Cell = Option<seq<byte>>

  const NilSentinel: seq<byte> := [0xDE, 0xAD, 0xBE, 0xEF]
  const Separator: byte := 0

  function CellBytes(c: Cell): seq<byte> {
    match c
    case None => NilSentinel
    case Some(b) => b
  }

  /** What one column writes into the hasher. */
  function Field(c: Cell): seq<byte> {
    CellBytes(c) + [Separator]
  }

  /** Total number of payload bytes: a NULL weighs four, any other cell its length. */
  function Weight(cells: seq<Cell>): nat {
    if cells == [] then 0 else |CellBytes(cells[0])| + Weight(cells[1..])
  }

  /** The exact byte stream `hash` feeds to SHA-256. */
  function PreImage(cells: seq<Cell>): (r: seq<byte>)
    ensures |r| == Weight(cells) + |cells|
    ensures r == [] <==> cells == []
  {
    if cells == [] then [] else Field(cells[0]) + PreImage(cells[1..])
  }

  /** The column loop of `hash`: `written` is what the hasher has been fed
      so far; each column writes its bytes (the sentinel when NULL) and then
      one zero byte. */
  function Encode(written: seq<byte>, cells: seq<Cell>): (r: seq<byte>)
    decreases |cells|
    ensures r == written + PreImage(cells)
  {
    if cells == [] then
      assert written + PreImage(cells) == written;
      written
    else
      var bytes := match cells[0]
                   case None => [0xDE, 0xAD, 0xBE, 0xEF]
                   case Some(b) => b;
      var r := Encode(written + bytes + [0], cells[1..]);
      assert bytes + [0] == Field(cells[0]);
      AppendAssoc(written, bytes, [0]);
      AppendAssoc(written, Field(cells[0]), PreImage(cells[1..]));
      assert PreImage(cells) == Field(cells[0]) + PreImage(cells[1..]);
      r
  }

  /** `hash`: the row digest is SHA-256 of the row's pre-image. */
  function Hash(sha: Sha256, cells: seq<Cell>): (r: Digest)
    ensures r == sha(PreImage(cells))
  {
    assert [] + PreImage(cells) == PreImage(cells);
    sha(Encode([], cells))
  }

  lemma {:induction false} WeightAppend(a: seq<Cell>, b: seq<Cell>)
    ensures Weight(a + b) == Weight(a) + Weight(b)
  {
    if a == [] {
      assert a + b == b;
    } else {
      TailOfAppend(a, b);
      WeightAppend(a[1..], b);
    }
  }

  /** Encoding a row is encoding its columns one after the other. */
  lemma {:induction false} PreImageAppend(a: seq<Cell>, b: seq<Cell>)
    ensures PreImage(a + b) == PreImage(a) + PreImage(b)
  {
    if a == [] {
      assert a + b == b;
    } else {
      TailOfAppend(a, b);
      PreImageAppend(a[1..], b);
      calc {
        PreImage(a + b);
        Field(a[0]) + PreImage(a[1..] + b);
        Field(a[0]) + (PreImage(a[1..]) + PreImage(b));
        (Field(a[0]) + PreImage(a[1..])) + PreImage(b);
      }
    }
  }

  /** The bytes of `w` from `start` on are column `c`'s payload (or the
      sentinel) followed by one zero byte. */
  predicate FieldSitsAt(w: seq<byte>, start: nat, c: Cell) {
    && start + |CellBytes(c)| < |w|
    && w[start .. start + |CellBytes(c)|] == CellBytes(c)
    && w[start + |CellBytes(c)|] == Separator
  }

  /** Column `j` occupies the bytes right after the encodings of the columns
      before it: first its payload (or the sentinel), then one zero byte. */
  lemma {:induction false} PreImageLayout(cells: seq<Cell>, j: nat)
    requires j < |cells|
    ensures |PreImage(cells[..j])| == Weight(cells[..j]) + j
    ensures FieldSitsAt(PreImage(cells), |PreImage(cells[..j])|, cells[j])
  {
    SplitAt(cells, j);
    FieldAt(PreImage(cells), PreImage(cells[..j]), cells[j], PreImage(cells[j + 1..]));
  }

  /** The encoding of a row around its column `j`. */
  lemma {:induction false} SplitAt(cells: seq<Cell>, j: nat)
    requires j < |cells|
    ensures PreImage(cells) == PreImage(cells[..j]) + (Field(cells[j]) + PreImage(cells[j + 1..]))
  {
    var before, rest := cells[..j], cells[j..];
    assert cells == before + rest;
    PreImageAppend(before, rest);
    assert rest[1..] == cells[j + 1..];
  }

  /** A field placed after `before` starts at `|before|`. */
  lemma {:induction false} FieldAt(w: seq<byte>, before: seq<byte>, c: Cell, after: seq<byte>)
    requires w == before + (Field(c) + after)
    ensures FieldSitsAt(w, |before|, c)
  {
    assert w == before + CellBytes(c) + [Separator] + after;
  }

  /** A NULL column and an empty column never encode alike: whatever the
      other columns hold, the two pre-images differ in length by four. */
  lemma NullDiffersFromEmpty(before: seq<Cell>, after: seq<Cell>)
    ensures |PreImage(before + [None] + after)| == |PreImage(before + [Some([])] + after)| + 4
    ensures PreImage(before + [None] + after) != PreImage(before + [Some([])] + after)
  {
    WeightAppend(before + [None], after);
    WeightAppend(before, [None]);
    WeightAppend(before + [Some([])], after);
    WeightAppend(before, [Some([])]);
  }

  /** The encoding is not injective: a column holding the sentinel's bytes
      encodes like NULL. */
  lemma SentinelCollision()
    ensures PreImage([Some(NilSentinel)]) == PreImage([None])
  {
  }

  /** The encoding is not injective: one column holding a zero byte encodes
      like two empty columns. */
  lemma SeparatorCollision()
    ensures PreImage([Some([0])]) == PreImage([Some([]), Some([])])
  {
  }

  /** The digest depends on the columns only through the pre-image, so every
      pre-image collision is a digest collision whatever the hash function. */
  lemma HashFollowsPreImage(sha: Sha256, a: seq<Cell>, b: seq<Cell>)
    requires PreImage(a) == PreImage(b)
    ensures Hash(sha, a) == Hash(sha, b)
  {
  }

  /** No columns: the digest of the empty input. */
  lemma NoColumnsHashesEmptyInput(sha: Sha256)
    ensures Hash(sha, []) == sha([])
  {
  }
}
