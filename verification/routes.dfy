/** The per-destination route record and the registry map that holds them. */
module Routes {
  import opened Common

  /** The route's `Instance` channel: the zero value is a nil channel,
      `make` gives an open one, `close` a closed one. */
  datatype Instance = NilChannel | Open | Closed

  /** The route's ledger client: nil when dialing failed, then connected,
      then closed on termination. */
  datatype Client = NilClient | Connected | Disconnected

  datatype Route = Route(
    client: Client,
    instance: Instance,
    canWriteAccount: seq<Address>,
    defaultPermission: string)

  /** Go's zero value of `Route`, what indexing the map at a missing key yields. */
  const ZeroRoute: Route := Route(NilClient, NilChannel, [], "")

  type RouteMap = map<Uuid, Route>

  /** `routes[destination]` in Go: the entry, or the zero value when absent. */
  function Lookup(routes: RouteMap, destination: Uuid): Route {
    if destination in routes then routes[destination] else ZeroRoute
  }
}
