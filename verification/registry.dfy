/** The node's route registry as a sequential state machine driven by the
    route-launched, flight-plan-submitted and route-terminated listeners
    (event/newRouteLaunched.go, event/routeTerminated.go). */
module Registry {
  import opened Common
  import opened Executer
  import opened Routes
  import opened FlightPlan
  import opened Replay

  /** The decoded `NewRouteLaunched` event (the origin address is unused). */
  datatype Launch = Launch(
    origin: Uuid,
    destination: Uuid,
    canWriteAccount: seq<Address>,
    defaultPermission: string,
    reroute: bool)

  /** The decoded `RouteTerminated` event. */
  datatype Termination = Termination(origin: Uuid, destination: Uuid)

  /** What the node holds: the route map, each destination's store, the
      destinations a listener was spawned for (in spawn order) and the
      attestations sent so far. */
  datatype Node = Node(routes: RouteMap, stores: map<Uuid, Store>, listeners: seq<Uuid>, sent: seq<Attestation>)

  /** A destination's store; one never written is empty. */
  function StoreOf(node: Node, destination: Uuid): Store {
    if destination in node.stores then node.stores[destination] else []
  }

  /** A route whose instance channel is still open. */
  predicate Active(node: Node, destination: Uuid) {
    destination in node.routes && node.routes[destination].instance == Open
  }

  datatype Launched = Launched(node: Node, replayErr: Option<Error>)

  /** One route-launched log. `dialed` says whether loading the config and
      dialing the ledger succeeded; either failure is only logged, and the
      route gets a nil client. `history` is what the replay's log query
      returns. */
  function OnRouteLaunched(sha: Sha256, db: Database, node: Node, log: Decoded<Launch>,
                           dialed: bool, history: History): (r: Launched)
    ensures log.Undecodable? ==> r == Launched(node, None)
    ensures log.Decoded? ==>
              var ev := log.event;
              var d := ev.destination;
              && d in r.node.routes
              && r.node.routes[d] == Route(if dialed then Connected else NilClient, Open,
                                           ev.canWriteAccount, ev.defaultPermission)
              && (forall x | x in node.routes && x != d :: x in r.node.routes && r.node.routes[x] == node.routes[x])
              && (forall x | x in r.node.routes && x != d :: x in node.routes)
              && r.node.listeners == node.listeners + [d]
              && r.node.sent == node.sent
              && (forall x | x != d :: StoreOf(r.node, x) == StoreOf(node, x))
    ensures log.Decoded? && log.event.reroute ==>
              var replay := Reroute(sha, db, r.node.routes, log.event.destination,
                                    StoreOf(node, log.event.destination), history);
              var intended := RerouteIntended(sha, db, r.node.routes, log.event.destination,
                                              StoreOf(node, log.event.destination), history);
              && StoreOf(r.node, log.event.destination) == replay.store
              && r.replayErr == replay.err
              && StoreOf(r.node, log.event.destination) == intended.store
    ensures log.Decoded? && !log.event.reroute ==> r.node.stores == node.stores && r.replayErr == None
  {
    match log
    case Undecodable(_) => Launched(node, None)
    case Decoded(ev) =>
      var d := ev.destination;
      var route := Route(if dialed then Connected else NilClient, Open, ev.canWriteAccount, ev.defaultPermission);
      var routes := node.routes[d := route];
      if ev.reroute then
        var replay := Reroute(sha, db, routes, d, StoreOf(node, d), history);
        RerouteLeavesIntendedStore(sha, db, routes, d, StoreOf(node, d), history);
        Launched(Node(routes, node.stores[d := replay.store], node.listeners + [d], node.sent), replay.err)
      else
        Launched(Node(routes, node.stores, node.listeners + [d], node.sent), None)
  }

  /** Closing a route's instance and client does not panic: the entry
      exists, its channel is open and its client is not nil. */
  predicate CanTerminate(node: Node, destination: Uuid) {
    && destination in node.routes
    && node.routes[destination].instance == Open
    && node.routes[destination].client != NilClient
  }

  /** One route-terminated log: the entry's channel and client are closed
      and the entry stays in the map. */
  function OnRouteTerminated(node: Node, log: Decoded<Termination>): (r: Node)
    requires log.Decoded? ==> CanTerminate(node, log.event.destination)
    ensures log.Undecodable? ==> r == node
    ensures log.Decoded? ==>
              var d := log.event.destination;
              && d in r.routes
              && r.routes[d] == node.routes[d].(instance := Closed, client := Disconnected)
              && !Active(r, d)
              && r.routes.Keys == node.routes.Keys
              && (forall x | x in node.routes && x != d :: r.routes[x] == node.routes[x])
              && r.stores == node.stores && r.listeners == node.listeners && r.sent == node.sent
  {
    match log
    case Undecodable(_) => node
    case Decoded(ev) =>
      var d := ev.destination;
      var closed := node.routes[d].(instance := Closed, client := Disconnected);
      node.(routes := node.routes[d := closed])
  }

  /** One flight-plan log delivered to the listener for `destination`: the
      registry is only read, and only that destination's store changes. */
  function OnFlightPlanSubmitted(sha: Sha256, db: Database, airportCode: Uuid, node: Node,
                                 destination: Uuid, log: Decoded<Submission>): (r: Node)
    requires destination in node.listeners
    ensures r.routes == node.routes && r.listeners == node.listeners
    ensures forall x | x != destination :: StoreOf(r, x) == StoreOf(node, x)
    ensures |node.sent| <= |r.sent| <= |node.sent| + 1 && r.sent[..|node.sent|] == node.sent
    ensures |r.sent| > |node.sent| ==>
              r.sent[|node.sent|].destination == destination && r.sent[|node.sent|].airportCode == airportCode
  {
    var h := HandleSubmission(sha, db, node.routes, airportCode, destination, StoreOf(node, destination), log);
    node.(stores := node.stores[destination := h.store], sent := node.sent + OptionSeq(h.attestation))
  }

  /** A second termination of the same route would close a closed channel:
      the precondition rules it out. */
  lemma NoSecondTermination(node: Node, t: Termination)
    requires CanTerminate(node, t.destination)
    ensures !CanTerminate(OnRouteTerminated(node, Decoded(t)), t.destination)
  {
  }

  /** A destination relaunched after termination gets a fresh open entry
      with the new launch's permissions. */
  lemma RelaunchAfterTermination(sha: Sha256, db: Database, node: Node, t: Termination,
                                 launch: Launch, dialed: bool, history: History)
    requires CanTerminate(node, t.destination)
    requires launch.destination == t.destination
    ensures var closed := OnRouteTerminated(node, Decoded(t));
            var relaunched := OnRouteLaunched(sha, db, closed, Decoded(launch), dialed, history).node;
            && !Active(closed, t.destination)
            && Active(relaunched, t.destination)
            && relaunched.routes[t.destination].canWriteAccount == launch.canWriteAccount
            && relaunched.routes[t.destination].defaultPermission == launch.defaultPermission
  {
  }

  /** Replay runs against the freshly installed entry, so historical
      submissions are checked against the new launch's permissions. */
  lemma ReplaySeesNewPermissions(sha: Sha256, db: Database, node: Node, launch: Launch,
                                 dialed: bool, history: History)
    requires launch.reroute
    ensures var r := OnRouteLaunched(sha, db, node, Decoded(launch), dialed, history);
            && Lookup(r.node.routes, launch.destination).canWriteAccount == launch.canWriteAccount
            && Lookup(r.node.routes, launch.destination).defaultPermission == launch.defaultPermission
            && StoreOf(r.node, launch.destination)
               == Reroute(sha, db, r.node.routes, launch.destination,
                          StoreOf(node, launch.destination), history).store
  {
  }
}
