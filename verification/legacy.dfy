/** The older single-file server's flight-plan path (server.go): its own
    copy of the statement classifier, an inline permission condition, an
    inline per-statement row hash that is only printed, and no submission
    digest or attestation. */
module Legacy {
  import opened Common
  import opened Parser
  import opened Hasher
  import opened Executer
  import opened Routes
  import opened FlightPlan

  /** `parseQuery`: the classification loop, statement by statement. */
  method ParseQuery(stream: seq<Parsed>) returns (write: bool, queries: seq<ParsedQuery>, err: Option<Error>)
    ensures ParseResult(write, queries, err) == Parse(stream)
  {
    write := false;
    queries := [];
    var i := 0;
    while i < |stream|
      invariant 0 <= i <= |stream|
      invariant forall j | 0 <= j < i :: stream[j].Stmt?
      invariant |queries| == i
      invariant forall j | 0 <= j < i :: queries[j] == Classify(stream[j].stmt)
      invariant write <==> exists j | 0 <= j < i :: stream[j].stmt.kind != Select
    {
      match stream[i]
      case SyntaxError(e) =>
        SyntaxErrorKeepsPrefix(stream, i);
        WriteFlag(stream[..i]);
        assert forall j | 0 <= j < i :: stream[..i][j] == stream[j];
        return write, queries, Some(e);
      case Stmt(s) =>
        if s.kind == Insert || s.kind == Update || s.kind == Delete {
          queries := queries + [ParsedQuery(true, s.text + ReturningClause)];
          write := true;
        } else if s.kind == Select {
          queries := queries + [ParsedQuery(true, s.text)];
        } else {
          queries := queries + [ParsedQuery(false, s.text)];
          write := true;
        }
        assert stream[i].stmt == s;
      i := i + 1;
    }
    err := None;
    WriteFlag(stream);
    assert stream[..i] == stream;
  }

  /** The inline permission condition of the legacy listener. */
  predicate InlinePermitted(write: bool, routes: RouteMap, destination: Uuid, operator: Address) {
    var route := Lookup(routes, destination);
    (write && (operator in route.canWriteAccount || route.defaultPermission == WritePermission)) || !write
  }

  /** The inline condition and `checkPermission` agree on every input. */
  lemma InlineConditionMatchesCheckPermission(write: bool, routes: RouteMap, destination: Uuid, operator: Address)
    ensures InlinePermitted(write, routes, destination, operator) <==> CheckPermission(write, routes, destination, operator)
  {
  }

  /** The inline per-statement hash, which the legacy path only prints. */
  function InlineStatementHash(sha: Sha256, outcome: Outcome): (r: Option<Digest>)
    ensures r == StatementDigest(sha, outcome)
  {
    match outcome
    case Rows(columns, scans) =>
      var buffer := ScanRows(NilRow(columns), scans);
      assert [] + PreImage(buffer) == PreImage(buffer);
      Some(sha(Encode([], buffer)))
    case _ => None
  }

  datatype LegacyHandled = LegacyHandled(store: Store, printed: seq<Digest>)

  /** The legacy statement loop: every statement is issued, and a returning
      one whose query and column lookup succeed prints its row hash. */
  function InlineRun(sha: Sha256, db: Database, store: Store, qs: seq<ParsedQuery>): (r: LegacyHandled)
    decreases |qs|
    ensures r.store == store + Issued(qs)
    ensures r.printed == Contributions(sha, db, store, qs)
  {
    if qs == [] then
      assert store + Issued(qs) == store;
      LegacyHandled(store, [])
    else
      var q := qs[0];
      var printed := if q.returning then OptionSeq(InlineStatementHash(sha, db(store, q.query))) else [];
      var rest := InlineRun(sha, db, store + [q.query], qs[1..]);
      IssuedCons(store, qs);
      LegacyHandled(rest.store, printed + rest.printed)
  }

  /** The legacy listener's handling of one log: decode, parse (an error is
      only logged), the inline permission check, then the statement loop. */
  function LegacyHandle(sha: Sha256, db: Database, routes: RouteMap, destination: Uuid,
                        store: Store, log: Decoded<Submission>): (r: LegacyHandled)
    ensures log.Undecodable? ==> r == LegacyHandled(store, [])
    ensures log.Decoded? && !Permitted(routes, destination, log.event) ==> r == LegacyHandled(store, [])
    ensures log.Decoded? && Permitted(routes, destination, log.event) ==>
              var qs := Parse(log.event.query).queries;
              r.store == store + Issued(qs) && r.printed == Contributions(sha, db, store, qs)
  {
    match log
    case Undecodable(_) => LegacyHandled(store, [])
    case Decoded(ev) =>
      var parsed := Parse(ev.query);
      if InlinePermitted(parsed.write, routes, destination, ev.operator) then
        InlineRun(sha, db, store, parsed.queries)
      else
        LegacyHandled(store, [])
  }

  /** The legacy and current listeners leave the same store; where the
      current one attests, its digest folds exactly the hashes the legacy
      one prints. */
  lemma LegacyMatchesCurrent(sha: Sha256, db: Database, routes: RouteMap, airportCode: Uuid,
                             destination: Uuid, store: Store, log: Decoded<Submission>)
    ensures var legacy := LegacyHandle(sha, db, routes, destination, store, log);
            var current := HandleSubmission(sha, db, routes, airportCode, destination, store, log);
            && legacy.store == current.store
            && (current.attestation.Some? ==> current.attestation.value.hash == sha(Flatten(legacy.printed)))
            && (current.attestation.None? ==> legacy.printed == [])
  {
  }
}
