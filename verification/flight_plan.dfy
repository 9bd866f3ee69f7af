/** The live per-route listener step for a submitted flight plan: the
    permission check, execution of the classified batch and the attestation
    of its digest (event/flightPlanSubmitted.go). */
module FlightPlan {
  import opened Common
  import opened Parser
  import opened Executer
  import opened Routes

  /** The only default permission that opens a route to every writer. */
  const WritePermission: string := "write"

  /** May `operator` run a batch whose write flag is `write` on the route to
      `destination`? A missing route reads as Go's zero value. */
  function CheckPermission(write: bool, routes: RouteMap, destination: Uuid, operator: Address): (ok: bool)
    ensures !write ==> ok
    ensures write ==> (ok <==> operator in Lookup(routes, destination).canWriteAccount
                               || Lookup(routes, destination).defaultPermission == WritePermission)
  {
    var route := Lookup(routes, destination);
    if write && operator in route.canWriteAccount then true
    else if route.defaultPermission == WritePermission then true
    else if !write then true
    else false
  }

  /** A read-only batch is permitted for every operator on every route. */
  lemma ReadOnlyAlwaysPermitted(routes: RouteMap, destination: Uuid, operator: Address)
    ensures CheckPermission(false, routes, destination, operator)
  {
  }

  /** Any default other than the exact string "write" leaves writers to the
      allow-list. */
  lemma OnlyExactWriteOpensRoute(write: bool, routes: RouteMap, destination: Uuid, operator: Address)
    requires Lookup(routes, destination).defaultPermission != WritePermission
    ensures CheckPermission(write, routes, destination, operator)
            <==> !write || operator in Lookup(routes, destination).canWriteAccount
  {
  }

  /** Without a route entry only read-only batches are permitted. */
  lemma AbsentRoutePermitsOnlyReads(write: bool, routes: RouteMap, destination: Uuid, operator: Address)
    requires destination !in routes
    ensures CheckPermission(write, routes, destination, operator) <==> !write
  {
  }

  /** The decoded `FlightPlanSubmitted` event. */
  datatype Submission = Submission(destination: Uuid, nonce: int, query: seq<Parsed>, operator: Address)

  /** The `reportPos` call `sendHash` packs, arguments in call order. */
  datatype Attestation = ReportPos(airportCode: Uuid, destination: Uuid, nonce: int, hash: Digest)

  /** Is the submission's (possibly partial) parse permitted on the route? */
  predicate Permitted(routes: RouteMap, destination: Uuid, s: Submission) {
    CheckPermission(Parse(s.query).write, routes, destination, s.operator)
  }

  datatype Handled = Handled(store: Store, attestation: Option<Attestation>)

  /** The listener's handling of one log for `destination`: decode, parse
      (an error is only logged), check permission on the write flag, then
      execute and attest, or drop the submission. */
  function HandleSubmission(sha: Sha256, db: Database, routes: RouteMap, airportCode: Uuid,
                            destination: Uuid, store: Store, log: Decoded<Submission>): (r: Handled)
    ensures log.Undecodable? ==> r == Handled(store, None)
    ensures log.Decoded? && !Permitted(routes, destination, log.event) ==> r == Handled(store, None)
    ensures log.Decoded? && Permitted(routes, destination, log.event) ==>
              var qs := Parse(log.event.query).queries;
              && r.store == store + Issued(qs)
              && r.attestation == Some(ReportPos(airportCode, destination, log.event.nonce,
                                                 sha(Flatten(Contributions(sha, db, store, qs)))))
  {
    match log
    case Undecodable(_) => Handled(store, None)
    case Decoded(ev) =>
      var parsed := Parse(ev.query);
      if CheckPermission(parsed.write, routes, destination, ev.operator) then
        var run := Exec(sha, db, store, parsed.queries);
        Handled(run.store, Some(ReportPos(airportCode, destination, ev.nonce, run.digest)))
      else
        Handled(store, None)
  }

  /** A syntax error at statement `k` is only logged: the statements before
      it are permission-checked on their own write flag, executed and
      attested. */
  lemma SyntaxErrorStillRunsPrefix(sha: Sha256, db: Database, routes: RouteMap, airportCode: Uuid,
                                   destination: Uuid, store: Store, s: Submission, k: nat)
    requires k < |s.query|
    requires forall i | 0 <= i < k :: s.query[i].Stmt?
    requires s.query[k].SyntaxError?
    requires CheckPermission(Parse(s.query[..k]).write, routes, destination, s.operator)
    ensures var prefix := Parse(s.query[..k]).queries;
            var r := HandleSubmission(sha, db, routes, airportCode, destination, store, Decoded(s));
            && r.store == store + Issued(prefix)
            && r.attestation == Some(ReportPos(airportCode, destination, s.nonce,
                                               sha(Flatten(Contributions(sha, db, store, prefix)))))
  {
    SyntaxErrorKeepsPrefix(s.query, k);
  }

  datatype Listened = Listened(store: Store, sent: seq<Attestation>)

  /** The listener over a run of logs while the registry stays as it is:
      every log is handled in order against the store the previous ones left. */
  function Listen(sha: Sha256, db: Database, routes: RouteMap, airportCode: Uuid,
                  destination: Uuid, store: Store, logs: seq<Decoded<Submission>>): (r: Listened)
    decreases |logs|
    ensures |r.sent| <= |logs|
    ensures forall a | a in r.sent :: a.airportCode == airportCode && a.destination == destination
  {
    if logs == [] then Listened(store, [])
    else
      var h := HandleSubmission(sha, db, routes, airportCode, destination, store, logs[0]);
      var rest := Listen(sha, db, routes, airportCode, destination, h.store, logs[1..]);
      Listened(rest.store, OptionSeq(h.attestation) + rest.sent)
  }
}
