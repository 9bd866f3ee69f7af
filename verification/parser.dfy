/** Statement classification of a submitted query batch (sqlWrapper.Parse).

    The SQL grammar is not modelled: a query is the stream of results the
    statement parser hands back, one per `ParseStatement` call, and the end
    of the sequence stands for `io.EOF`. */
module Parser {
  import opened Common

  datatype Kind = Insert | Update | Delete | Select | Other

  /** One parsed statement: its kind and its normalised text (`stmt.String()`). */
  datatype Statement = Statement(kind: Kind, text: string)

  /** What one call to the statement parser yields. */
  datatype Parsed = Stmt(stmt: Statement) | SyntaxError(err: Error)

  /** Go's `ParsedQuery`: whether rows must be read back, and the text to run. */
  datatype ParsedQuery = ParsedQuery(returning: bool, query: string)

  /** Go's triple `(write, parsedQueries, err)`. */
  datatype ParseResult = ParseResult(write: bool, queries: seq<ParsedQuery>, err: Option<Error>)

  const ReturningClause: string := " RETURNING *"

  function Classify(s: Statement): ParsedQuery {
    match s.kind
    case Insert | Update | Delete => ParsedQuery(true, s.text + ReturningClause)
    case Select => ParsedQuery(true, s.text)
    case Other => ParsedQuery(false, s.text)
  }

  /** Parsing stops at the first syntax error and hands back, with the error,
      everything classified before it. */
  function Parse(stream: seq<Parsed>): (r: ParseResult)
    decreases |stream|
    ensures |r.queries| <= |stream|
    ensures forall i | 0 <= i < |r.queries| :: stream[i].Stmt?
    ensures r.err == None <==> |r.queries| == |stream|
    ensures r.err != None ==> stream[|r.queries|] == SyntaxError(r.err.value)
    ensures forall i | 0 <= i < |r.queries| :: r.queries[i] == Classify(stream[i].stmt)
  {
    if stream == [] then ParseResult(false, [], None)
    else match stream[0]
      case SyntaxError(e) => ParseResult(false, [], Some(e))
      case Stmt(s) =>
        var rest := Parse(stream[1..]);
        var r := ParseResult(s.kind != Select || rest.write, [Classify(s)] + rest.queries, rest.err);
        assert forall i | 1 <= i <= |rest.queries| :: stream[i] == stream[1..][i - 1];
        r
  }

  /** The write flag is raised exactly when some parsed statement is not a
      SELECT. */
  lemma {:induction false} WriteFlag(stream: seq<Parsed>)
    decreases |stream|
    ensures var r := Parse(stream);
            r.write <==> exists i | 0 <= i < |r.queries| :: stream[i].stmt.kind != Select
  {
    if stream != [] && stream[0].Stmt? {
      var rest := Parse(stream[1..]);
      WriteFlag(stream[1..]);
      if rest.write {
        var j :| 0 <= j < |rest.queries| && stream[1..][j].stmt.kind != Select;
        assert stream[j + 1].stmt.kind != Select;
      }
      if exists i | 0 <= i < |Parse(stream).queries| :: stream[i].stmt.kind != Select {
        var i :| 0 <= i < |Parse(stream).queries| && stream[i].stmt.kind != Select;
        if i > 0 {
          assert stream[1..][i - 1] == stream[i];
        }
      }
    }
  }

  /** An empty submission reads as no statements, no write and no error. */
  lemma EmptyQuery()
    ensures Parse([]) == ParseResult(false, [], None)
  {
  }

  /** A syntax error at statement `k` does not discard the statements before
      it: the result carries their classification and their write flag. */
  lemma {:induction false} SyntaxErrorKeepsPrefix(stream: seq<Parsed>, k: nat)
    requires k < |stream|
    requires forall i | 0 <= i < k :: stream[i].Stmt?
    requires stream[k].SyntaxError?
    ensures Parse(stream) == ParseResult(Parse(stream[..k]).write, Parse(stream[..k]).queries, Some(stream[k].err))
    ensures Parse(stream[..k]).err == None
  {
    if k == 0 {
    } else {
      SyntaxErrorKeepsPrefix(stream[1..], k - 1);
      assert stream[1..][..k - 1] == stream[..k][1..];
    }
  }
}
