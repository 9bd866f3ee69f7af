/** Execution of a classified batch against a destination's store and the
    fold of per-statement row digests into the submission digest
    (sqlWrapper.Exec). */
module Executer {
  import opened Common
  import opened Parser
  import opened Hasher

  /** A destination's sqlite store, represented by the log of statement
      texts issued to it. A deterministic engine's state is a function of
      that log; statements that fail are issued all the same. */
  type Store = seq<string>

  /** What `db.Query` reports for a row-returning statement: the query
      failed, the column lookup failed, or a column count and the rows. Each
      scanned row is the cells `rows.Scan` wrote, in column order (a scan
      that stops at a conversion error has written only a prefix). */
  datatype Outcome =
    | QueryFailed(err: Error)
    | ColumnsFailed(err: Error)
    | Rows(columns: nat, scans: seq<seq<Cell>>)

  /** The sqlite engine is not modelled: it is an oracle that answers a
      query given everything issued to the store before it. */
  type Database = (Store, string) -> Outcome

  /** A fresh buffer: `make([]sql.RawBytes, n)`, all nil. */
  function NilRow(n: nat): (r: seq<Cell>)
    ensures |r| == n
    ensures forall i | 0 <= i < n :: r[i] == None
  {
    seq(n, _ => None)
  }

  /** One `rows.Scan` into the reused buffer: the cells it wrote replace
      the buffer's, the rest keep their earlier values. */
  function Scan(buffer: seq<Cell>, row: seq<Cell>): (r: seq<Cell>)
    ensures |r| == |buffer|
    ensures forall i | 0 <= i < |buffer| :: r[i] == (if i < |row| then row[i] else buffer[i])
  {
    if |row| >= |buffer| then row[..|buffer|] else row + buffer[|row|..]
  }

  /** The `rows.Next()` loop: every row is scanned into the same buffer. */
  function ScanRows(buffer: seq<Cell>, scans: seq<seq<Cell>>): (r: seq<Cell>)
    decreases |scans|
    ensures |r| == |buffer|
    ensures scans == [] ==> r == buffer
    ensures scans != [] && |scans[|scans| - 1]| >= |buffer| ==> r == scans[|scans| - 1][..|buffer|]
  {
    if scans == [] then buffer
    else
      var r := ScanRows(Scan(buffer, scans[0]), scans[1..]);
      assert scans[1..] != [] ==> scans[1..][|scans[1..]| - 1] == scans[|scans| - 1];
      r
  }

  /** The buffer after the loop is the last scan laid over the buffer the
      earlier scans left: a last scan cut short by an error keeps cells of
      earlier rows. */
  lemma {:induction false} ScanRowsLast(buffer: seq<Cell>, scans: seq<seq<Cell>>)
    requires scans != []
    decreases |scans|
    ensures ScanRows(buffer, scans)
            == Scan(ScanRows(buffer, scans[..|scans| - 1]), scans[|scans| - 1])
  {
    var n := |scans|;
    if n == 1 {
      assert scans[..0] == [];
    } else {
      var next := Scan(buffer, scans[0]);
      ScanRowsLast(next, scans[1..]);
      assert scans[1..][|scans[1..]| - 1] == scans[n - 1];
      TailOfPrefix(scans, n - 1);
    }
  }

  /** Two rows, the second cut short after one column: the second column
      still holds the first row's value. */
  lemma PartialScanKeepsEarlierCells(a: seq<byte>, b: seq<byte>, c: seq<byte>)
    ensures ScanRows(NilRow(2), [[Some(a), Some(b)], [Some(c)]]) == [Some(c), Some(b)]
  {
    ScanRowsLast(NilRow(2), [[Some(a), Some(b)], [Some(c)]]);
    assert [[Some(a), Some(b)], [Some(c)]][..1] == [[Some(a), Some(b)]];
  }

  /** The per-statement digest, when the statement yields one. */
  function StatementDigest(sha: Sha256, outcome: Outcome): (r: Option<Digest>)
    ensures r.Some? <==> outcome.Rows?
  {
    match outcome
    case Rows(columns, scans) => Some(Hash(sha, ScanRows(NilRow(columns), scans)))
    case _ => None
  }

  function Contribution(sha: Sha256, db: Database, store: Store, q: ParsedQuery): Option<Digest> {
    if q.returning then StatementDigest(sha, db(store, q.query)) else None
  }

  function OptionSeq<T>(o: Option<T>): seq<T> {
    match o
    case None => []
    case Some(v) => [v]
  }

  /** The per-statement digests of the batch, in statement order, from the
      returning statements whose query and column lookup succeeded. Each
      statement sees the store after all earlier statements were issued. */
  function Contributions(sha: Sha256, db: Database, store: Store, qs: seq<ParsedQuery>): (r: seq<Digest>)
    decreases |qs|
    ensures |r| <= |qs|
  {
    if qs == [] then []
    else OptionSeq(Contribution(sha, db, store, qs[0])) + Contributions(sha, db, store + [qs[0].query], qs[1..])
  }

  /** The statement texts, in order. */
  function Issued(qs: seq<ParsedQuery>): (r: Store)
    ensures |r| == |qs|
    ensures forall i | 0 <= i < |qs| :: r[i] == qs[i].query
  {
    if qs == [] then [] else [qs[0].query] + Issued(qs[1..])
  }

  /** The bytes of a sequence of digests, back to back. */
  function Flatten(ds: seq<Digest>): (r: seq<byte>)
    ensures |r| == 32 * |ds|
  {
    if ds == [] then [] else ds[0] + Flatten(ds[1..])
  }

  /** Digest `k` of the list sits at bytes `32k .. 32k+32` of the flattening. */
  lemma {:induction false} FlattenLayout(ds: seq<Digest>, k: nat)
    requires k < |ds|
    ensures Flatten(ds)[32 * k .. 32 * k + 32] == ds[k]
  {
    if k > 0 {
      FlattenLayout(ds[1..], k - 1);
      assert Flatten(ds)[32 * k .. 32 * k + 32] == Flatten(ds[1..])[32 * (k - 1) .. 32 * (k - 1) + 32];
    }
  }

  datatype Execution = Execution(digest: Digest, store: Store)

  /** The loop of `Exec`: `written` is what the submission hasher has
      been fed so far. */
  function Feed(sha: Sha256, db: Database, store: Store, qs: seq<ParsedQuery>, written: seq<byte>): (r: (seq<byte>, Store))
    decreases |qs|
    ensures r.0 == written + Flatten(Contributions(sha, db, store, qs))
    ensures r.1 == store + Issued(qs)
  {
    if qs == [] then
      assert store + Issued(qs) == store;
      assert written + Flatten(Contributions(sha, db, store, qs)) == written;
      (written, store)
    else
      var q := qs[0];
      var fed := Write(written, Contribution(sha, db, store, q));
      var r := Feed(sha, db, store + [q.query], qs[1..], fed);
      FeedStep(sha, db, store, qs, written);
      IssuedCons(store, qs);
      r
  }

  /** One statement's bytes into the submission hasher. */
  function Write(written: seq<byte>, c: Option<Digest>): seq<byte> {
    match c
    case Some(d) => written + d
    case None => written
  }

  lemma {:induction false} FeedStep(sha: Sha256, db: Database, store: Store, qs: seq<ParsedQuery>, written: seq<byte>)
    requires qs != []
    ensures written + Flatten(Contributions(sha, db, store, qs))
         == Write(written, Contribution(sha, db, store, qs[0]))
            + Flatten(Contributions(sha, db, store + [qs[0].query], qs[1..]))
  {
    var c := Contribution(sha, db, store, qs[0]);
    var here := OptionSeq(c);
    var rest := Contributions(sha, db, store + [qs[0].query], qs[1..]);
    assert Contributions(sha, db, store, qs) == here + rest;
    FlattenAppend(here, rest);
    match c
    case None =>
      assert here == [];
      assert Flatten(here) == [];
      assert Flatten(here) + Flatten(rest) == Flatten(rest);
    case Some(d) =>
      assert Flatten(here) == d + Flatten([]);
      assert Flatten(here) == d;
      AppendAssoc(written, d, Flatten(rest));
  }

  /** Runs every statement of the batch in order and returns the submission
      digest and the store afterwards. */
  function Exec(sha: Sha256, db: Database, store: Store, qs: seq<ParsedQuery>): (r: Execution)
    ensures r.digest == sha(Flatten(Contributions(sha, db, store, qs)))
    ensures r.store == store + Issued(qs)
    ensures qs == [] ==> r.digest == sha([])
  {
    var (written, after) := Feed(sha, db, store, qs, []);
    assert written == Flatten(Contributions(sha, db, store, qs));
    Execution(sha(written), after)
  }

  lemma {:induction false} FlattenAppend(a: seq<Digest>, b: seq<Digest>)
    ensures Flatten(a + b) == Flatten(a) + Flatten(b)
  {
    if a == [] {
      assert a + b == b;
    } else {
      TailOfAppend(a, b);
      FlattenAppend(a[1..], b);
      calc {
        Flatten(a + b);
        a[0] + Flatten(a[1..] + b);
        a[0] + (Flatten(a[1..]) + Flatten(b));
        (a[0] + Flatten(a[1..])) + Flatten(b);
      }
    }
  }

  /** Issuing a batch is issuing its first statement, then the rest. */
  lemma IssuedCons(store: Store, qs: seq<ParsedQuery>)
    requires qs != []
    ensures store + [qs[0].query] + Issued(qs[1..]) == store + Issued(qs)
  {
    calc {
      store + Issued(qs);
      store + ([qs[0].query] + Issued(qs[1..]));
      store + [qs[0].query] + Issued(qs[1..]);
    }
  }

  /** Running two batches back to back contributes the first batch's digests
      followed by the second's, the second seeing the first's effects. */
  lemma {:induction false} ContributionsAppend(sha: Sha256, db: Database, store: Store, a: seq<ParsedQuery>, b: seq<ParsedQuery>)
    ensures Contributions(sha, db, store, a + b)
         == Contributions(sha, db, store, a) + Contributions(sha, db, store + Issued(a), b)
    decreases |a|
  {
    if a == [] {
      assert a + b == b;
      assert store + Issued(a) == store;
    } else {
      var next := store + [a[0].query];
      var here := OptionSeq(Contribution(sha, db, store, a[0]));
      TailOfAppend(a, b);
      ContributionsAppend(sha, db, next, a[1..], b);
      IssuedCons(store, a);
      var front := Contributions(sha, db, next, a[1..]);
      var back := Contributions(sha, db, next + Issued(a[1..]), b);
      calc {
        Contributions(sha, db, store, a + b);
        here + Contributions(sha, db, next, a[1..] + b);
        here + (front + back);
        { AppendAssoc(here, front, back); }
        (here + front) + back;
        Contributions(sha, db, store, a) + back;
      }
    }
  }

  /** A statement that does not return rows is run, but the digest of the
      batch is what the remaining statements make of the store after it. */
  lemma NonReturningContributesNothing(sha: Sha256, db: Database, store: Store, q: ParsedQuery, rest: seq<ParsedQuery>)
    requires !q.returning
    ensures Contributions(sha, db, store, [q] + rest) == Contributions(sha, db, store + [q.query], rest)
  {
    assert ([q] + rest)[1..] == rest;
  }

  /** A returning statement whose query or column lookup fails is skipped:
      nothing enters the digest for it and the later statements still run. */
  lemma FailedStatementSkipped(sha: Sha256, db: Database, store: Store, q: ParsedQuery, rest: seq<ParsedQuery>)
    requires q.returning && !db(store, q.query).Rows?
    ensures Contributions(sha, db, store, [q] + rest) == Contributions(sha, db, store + [q.query], rest)
  {
    assert ([q] + rest)[1..] == rest;
  }

  /** A returning statement that yields a result set contributes the digest
      of its buffer, ahead of everything the later statements contribute. */
  lemma ReturningStatementContributes(sha: Sha256, db: Database, store: Store, q: ParsedQuery, rest: seq<ParsedQuery>)
    requires q.returning && db(store, q.query).Rows?
    ensures var o := db(store, q.query);
            Contributions(sha, db, store, [q] + rest)
            == [Hash(sha, ScanRows(NilRow(o.columns), o.scans))] + Contributions(sha, db, store + [q.query], rest)
  {
    assert ([q] + rest)[1..] == rest;
  }

  /** Only the buffer the last scan left behind is hashed: earlier rows are
      overwritten and do not affect the statement's digest. */
  lemma OnlyLastRowHashed(sha: Sha256, columns: nat, earlier: seq<seq<Cell>>, last: seq<Cell>)
    requires |last| == columns
    ensures StatementDigest(sha, Rows(columns, earlier + [last])) == Some(Hash(sha, last))
  {
    assert (earlier + [last])[|earlier + [last]| - 1] == last;
    assert last[..columns] == last;
  }

  /** A result set with no rows hashes a buffer of nil cells: one sentinel
      and one separator per column. */
  lemma {:induction false} NoRowsHashesSentinels(sha: Sha256, columns: nat)
    ensures StatementDigest(sha, Rows(columns, [])) == Some(sha(Copies(Field(None), columns)))
  {
    NilRowPreImage(columns);
  }

  function Copies(s: seq<byte>, n: nat): (r: seq<byte>)
    ensures |r| == n * |s|
  {
    if n == 0 then [] else s + Copies(s, n - 1)
  }

  lemma {:induction false} NilRowPreImage(n: nat)
    ensures PreImage(NilRow(n)) == Copies(Field(None), n)
  {
    if n > 0 {
      NilRowPreImage(n - 1);
      assert NilRow(n)[1..] == NilRow(n - 1);
    }
  }

  /** The submission pre-image is 32 bytes per contributing statement; an
      empty batch hashes the empty input. */
  lemma DigestPreImageLength(sha: Sha256, db: Database, store: Store, qs: seq<ParsedQuery>)
    ensures |Flatten(Contributions(sha, db, store, qs))| == 32 * |Contributions(sha, db, store, qs)|
    ensures qs == [] ==> Exec(sha, db, store, qs).digest == sha([])
  {
  }
}
