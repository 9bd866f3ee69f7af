/** Catch-up replay of a destination's historical submissions before its
    route goes live (event/reroute.go). */
module Replay {
  import opened Common
  import opened Parser
  import opened Executer
  import opened Routes
  import opened FlightPlan

  /** The historical log query: it fails (dispatcher lookup, config load,
      dial or `FilterLogs`), or yields the logs in ledger order. */
  datatype History = HistoryFailed(err: Error) | History(logs: seq<Decoded<Submission>>)

  /** How a replay ended, the store it left, and how many logs it executed. */
  datatype Replayed = Replayed(err: Option<Error>, store: Store, executed: nat)

  /** A log the replay executes: it decodes, parses without error and is permitted. */
  predicate Replayable(routes: RouteMap, destination: Uuid, log: Decoded<Submission>) {
    log.Decoded? && Parse(log.event.query).err == None && Permitted(routes, destination, log.event)
  }

  /** A log the replay stops at without an error of its own: it decodes and
      parses, but the operator may not run it. */
  predicate Denied(routes: RouteMap, destination: Uuid, log: Decoded<Submission>) {
    log.Decoded? && Parse(log.event.query).err == None && !Permitted(routes, destination, log.event)
  }

  /** The replay loop. A denied log ends the loop with `onDenial`: the
      source returns the nil `err` there, the corrected replay an error. */
  function ReplayLogs(onDenial: Option<Error>, sha: Sha256, db: Database, routes: RouteMap,
                      destination: Uuid, store: Store, logs: seq<Decoded<Submission>>): (r: Replayed)
    decreases |logs|
    ensures r.executed <= |logs|
    ensures r.executed < |logs| ==> !Replayable(routes, destination, logs[r.executed])
    ensures r.executed == |logs| ==> r.err == None
    ensures r.executed < |logs| && logs[r.executed].Undecodable? ==> r.err == Some(logs[r.executed].err)
    ensures (r.executed < |logs| && logs[r.executed].Decoded? && Parse(logs[r.executed].event.query).err != None)
              ==> r.err == Parse(logs[r.executed].event.query).err
    ensures r.executed < |logs| && Denied(routes, destination, logs[r.executed]) ==> r.err == onDenial
  {
    if logs == [] then Replayed(None, store, 0)
    else match logs[0]
      case Undecodable(e) => Replayed(Some(e), store, 0)
      case Decoded(ev) =>
        var parsed := Parse(ev.query);
        if parsed.err.Some? then Replayed(parsed.err, store, 0)
        else if CheckPermission(parsed.write, routes, destination, ev.operator) then
          var rest := ReplayLogs(onDenial, sha, db, routes, destination,
                                 Exec(sha, db, store, parsed.queries).store, logs[1..]);
          Replayed(rest.err, rest.store, rest.executed + 1)
        else Replayed(onDenial, store, 0)
  }

  /** Every log the replay counts as executed decoded, parsed cleanly and
      was permitted. */
  lemma {:induction false} ExecutedLogsReplayable(onDenial: Option<Error>, sha: Sha256, db: Database, routes: RouteMap,
                                                  destination: Uuid, store: Store, logs: seq<Decoded<Submission>>)
    decreases |logs|
    ensures var r := ReplayLogs(onDenial, sha, db, routes, destination, store, logs);
            forall i | 0 <= i < r.executed :: Replayable(routes, destination, logs[i])
  {
    if logs != [] && Replayable(routes, destination, logs[0]) {
      var next := Exec(sha, db, store, Parse(logs[0].event.query).queries).store;
      var rest := ReplayLogs(onDenial, sha, db, routes, destination, next, logs[1..]);
      ExecutedLogsReplayable(onDenial, sha, db, routes, destination, next, logs[1..]);
      assert ReplayLogs(onDenial, sha, db, routes, destination, store, logs).executed == rest.executed + 1;
      forall i | 1 <= i <= rest.executed
        ensures Replayable(routes, destination, logs[i])
      {
        assert logs[i] == logs[1..][i - 1];
      }
    }
  }

  /** `reroute` as written: a gateway failure ends it before any log, and a
      permission denial returns the nil error. */
  function Reroute(sha: Sha256, db: Database, routes: RouteMap, destination: Uuid,
                   store: Store, history: History): (r: Replayed)
    ensures history.HistoryFailed? ==> r == Replayed(Some(history.err), store, 0)
    ensures history.History? ==>
              && r.executed <= |history.logs|
              && (r.err == None <==> r.executed == |history.logs|
                                     || Denied(routes, destination, history.logs[r.executed]))
  {
    match history
    case HistoryFailed(e) => Replayed(Some(e), store, 0)
    case History(logs) => ReplayLogs(None, sha, db, routes, destination, store, logs)
  }

  /** The replay as intended: a permission denial is reported as an error,
      so success means every historical log was executed. */
  function RerouteIntended(sha: Sha256, db: Database, routes: RouteMap, destination: Uuid,
                           store: Store, history: History): (r: Replayed)
    ensures history.HistoryFailed? ==> r == Replayed(Some(history.err), store, 0)
    ensures r.err == None <==> history.History? && r.executed == |history.logs|
    ensures (history.History? && r.executed < |history.logs|
             && Denied(routes, destination, history.logs[r.executed])) ==> r.err == Some(PermissionDenied)
  {
    match history
    case HistoryFailed(e) => Replayed(Some(e), store, 0)
    case History(logs) => ReplayLogs(Some(PermissionDenied), sha, db, routes, destination, store, logs)
  }

  /** Replay reproduces live processing: the store it leaves is the store
      the live listener leaves after the same executed prefix of the log. */
  lemma {:induction false} ReplayMatchesLive(onDenial: Option<Error>, sha: Sha256, db: Database, routes: RouteMap,
                                             airportCode: Uuid, destination: Uuid, store: Store,
                                             logs: seq<Decoded<Submission>>)
    decreases |logs|
    ensures var r := ReplayLogs(onDenial, sha, db, routes, destination, store, logs);
            r.store == Listen(sha, db, routes, airportCode, destination, store, logs[..r.executed]).store
  {
    if logs == [] || !Replayable(routes, destination, logs[0]) {
      ReplayStops(onDenial, sha, db, routes, airportCode, destination, store, logs);
    } else {
      var next := HandleSubmission(sha, db, routes, airportCode, destination, store, logs[0]).store;
      ReplayStep(onDenial, sha, db, routes, airportCode, destination, store, logs);
      ReplayMatchesLive(onDenial, sha, db, routes, airportCode, destination, next, logs[1..]);
      var r := ReplayLogs(onDenial, sha, db, routes, destination, store, logs);
      ListenPrefixStep(sha, db, routes, airportCode, destination, store, logs, r.executed);
    }
  }

  /** A replay whose first log is not replayable executes nothing, which is
      what the live listener does with no logs. */
  lemma ReplayStops(onDenial: Option<Error>, sha: Sha256, db: Database, routes: RouteMap,
                    airportCode: Uuid, destination: Uuid, store: Store, logs: seq<Decoded<Submission>>)
    requires logs == [] || !Replayable(routes, destination, logs[0])
    ensures var r := ReplayLogs(onDenial, sha, db, routes, destination, store, logs);
            && r.executed == 0 && r.store == store
            && Listen(sha, db, routes, airportCode, destination, store, logs[..r.executed]).store == store
  {
    assert logs[..0] == [];
  }

  /** A replayable first log is executed exactly as the live listener would,
      and replay carries on from the store it leaves. */
  lemma ReplayStep(onDenial: Option<Error>, sha: Sha256, db: Database, routes: RouteMap,
                   airportCode: Uuid, destination: Uuid, store: Store, logs: seq<Decoded<Submission>>)
    requires logs != [] && Replayable(routes, destination, logs[0])
    ensures var next := HandleSubmission(sha, db, routes, airportCode, destination, store, logs[0]).store;
            var r := ReplayLogs(onDenial, sha, db, routes, destination, store, logs);
            var rest := ReplayLogs(onDenial, sha, db, routes, destination, next, logs[1..]);
            r.store == rest.store && r.executed == rest.executed + 1
  {
  }

  /** Listening to the first `n` logs is handling the first, then listening
      to the next `n - 1`. */
  lemma ListenPrefixStep(sha: Sha256, db: Database, routes: RouteMap, airportCode: Uuid,
                         destination: Uuid, store: Store, logs: seq<Decoded<Submission>>, n: nat)
    requires 0 < n <= |logs|
    ensures var next := HandleSubmission(sha, db, routes, airportCode, destination, store, logs[0]).store;
            Listen(sha, db, routes, airportCode, destination, store, logs[..n]).store
            == Listen(sha, db, routes, airportCode, destination, next, logs[1..][..n - 1]).store
  {
    TailOfPrefix(logs, n);
  }

  /** When every historical log decodes, parses and is permitted, replay
      executes all of them, succeeds, and leaves the store continuous live
      processing would have left. */
  lemma {:induction false} ReplayOfCleanHistory(sha: Sha256, db: Database, routes: RouteMap, airportCode: Uuid,
                             destination: Uuid, store: Store, logs: seq<Decoded<Submission>>)
    requires forall i | 0 <= i < |logs| :: Replayable(routes, destination, logs[i])
    ensures var r := Reroute(sha, db, routes, destination, store, History(logs));
            && r.err == None && r.executed == |logs|
            && r.store == Listen(sha, db, routes, airportCode, destination, store, logs).store
  {
    ReplayMatchesLive(None, sha, db, routes, airportCode, destination, store, logs);
    assert logs[..|logs|] == logs;
  }

  /** The source's discrepancy: a denied first log ends the replay with no
      error although nothing was executed, where the corrected replay
      reports the denial. */
  lemma DenialReportedAsSuccess(sha: Sha256, db: Database, routes: RouteMap, destination: Uuid,
                                store: Store, denied: Submission, later: seq<Decoded<Submission>>)
    requires Parse(denied.query).err == None
    requires !Permitted(routes, destination, denied)
    ensures Reroute(sha, db, routes, destination, store, History([Decoded(denied)] + later))
            == Replayed(None, store, 0)
    ensures RerouteIntended(sha, db, routes, destination, store, History([Decoded(denied)] + later))
            == Replayed(Some(PermissionDenied), store, 0)
  {
  }

  /** The two replays execute the same logs and leave the same store; they
      differ only in the error a denial reports. */
  lemma {:induction false} IntendedExecutesTheSame(sha: Sha256, db: Database, routes: RouteMap, destination: Uuid,
                                                   store: Store, logs: seq<Decoded<Submission>>)
    decreases |logs|
    ensures var written := ReplayLogs(None, sha, db, routes, destination, store, logs);
            var intended := ReplayLogs(Some(PermissionDenied), sha, db, routes, destination, store, logs);
            && written.store == intended.store
            && written.executed == intended.executed
            && (written.err == intended.err || written.err == None)
  {
    if logs != [] && Replayable(routes, destination, logs[0]) {
      var next := Exec(sha, db, store, Parse(logs[0].event.query).queries).store;
      IntendedExecutesTheSame(sha, db, routes, destination, next, logs[1..]);
    }
  }

  /** Whatever the history, the written and the corrected replay leave the
      same store and execute the same logs. */
  lemma RerouteLeavesIntendedStore(sha: Sha256, db: Database, routes: RouteMap, destination: Uuid,
                                   store: Store, history: History)
    ensures var written := Reroute(sha, db, routes, destination, store, history);
            var intended := RerouteIntended(sha, db, routes, destination, store, history);
            written.store == intended.store && written.executed == intended.executed
  {
    if history.History? {
      IntendedExecutesTheSame(sha, db, routes, destination, store, history.logs);
    }
  }
}
