# Airport query pipeline and route registry, in Dafny

This project models the core of an airport node in a ledger-coordinated,
replicated SQL network. The node watches a dispatcher contract for three
kinds of events:

- route launched, for a destination whose origin is this airport;
- flight plan submitted, for a destination with a live route;
- route terminated.

For every destination, a per-route listener does the following with a
submitted flight plan (a batch of SQL statements):

1. It classifies the statements.
2. It checks the operator's write permission against the route's allow-list
   and default permission.
3. It runs the batch against the destination's sqlite store.
4. It folds the row digests of the row-returning statements into one
   SHA-256 submission digest.
5. It reports that digest back to the ledger (`reportPos`).

A launch flagged "reroute" first replays the destination's whole history
of flight plans through the same pipeline, without attestations.

The model is functional and sequential.

- SHA-256 is a parameter: any function from byte strings to 32-byte
  digests. Every property therefore holds whatever the hash is.
- The SQL grammar is a parameter: a query is the stream of results the
  statement parser yields (`seq<Parsed>`).
- The sqlite engine is an oracle `Database = (Store, string) -> Outcome`.
  `Store` is the log of statement texts issued to a destination's store.
  A deterministic engine's state is a function of that log, so "same
  store" means "same history issued".
- The route registry is a `map<Uuid, Route>` inside a `Node` record. The
  three listeners are step functions on it.

Modules follow the source files: `Common` (shared types), `Parser`
(parser.go), `Hasher` (hasher.go), `Executer` (executer.go), `Routes` (the
route record), `FlightPlan` (flightPlanSubmitted.go), `Replay` (reroute.go),
`Registry` (newRouteLaunched.go and routeTerminated.go) and `Legacy` (the
older flight-plan path in server.go).

Behaviour of the code that the model keeps:

- A syntax error in a submission is only logged. The statements parsed
  before it are still permission-checked on their own write flag, executed
  and attested (flightPlanSubmitted.go:90-97).
- The default permission is a free string. Only the exact string `"write"`
  opens a route to every writer (flightPlanSubmitted.go:37-38).
- One buffer is reused for every `rows.Scan`, and only the buffer left
  after the last row is hashed (executer.go:34-49). When the last scan
  fills every column, earlier rows do not reach the digest
  (`Executer.OnlyLastRowHashed`). When a scan error cuts the last scan
  short, the columns it did not write keep values from earlier rows
  (`Executer.ScanRowsLast`, `Executer.PartialScanKeepsEarlierCells`).
- A permission denial during replay is reported as success. See
  "## Findings".
- The row encoding is not injective. A cell holding `DE AD BE EF` encodes
  like NULL (`Hasher.SentinelCollision`). One cell holding a zero byte
  encodes like two empty cells (`Hasher.SeparatorCollision`).

## Model

| member | source | states |
|---|---|---|
| Parser.Parse | src/sqlWrapper/parser.go:15-41 | Parsing stops at the first syntax error. The output has one entry per statement before it, in order, and reports the error only if one exists. Entry i is statement i classified: INSERT/UPDATE/DELETE become returning entries with " RETURNING *" appended, SELECT becomes a returning entry with its text unchanged, and every other kind becomes a non-returning entry |
| Parser.WriteFlag | src/sqlWrapper/parser.go:16-36 | The write flag is true iff some parsed statement is not a SELECT |
| Parser.EmptyQuery | src/sqlWrapper/parser.go:16-40 | An immediately ended stream gives write=false, no entries and no error |
| Parser.SyntaxErrorKeepsPrefix | src/sqlWrapper/parser.go:24-25 | A syntax error at statement k returns the error together with the first k entries and the write flag computed over them |
| Hasher.PreImage | src/sqlWrapper/hasher.go:10-17 | The pre-image length is the sum of the cell lengths (4 for NULL) plus one separator per column. It is empty exactly when there are no columns |
| Hasher.Encode | src/sqlWrapper/hasher.go:10-17 | The column loop feeds the hasher exactly the pre-image: after what was written before, each column's bytes (DE AD BE EF when NULL) and one zero byte, in column order |
| Hasher.Hash | src/sqlWrapper/hasher.go:8-23 | The row digest is SHA-256 of the row's pre-image |
| Hasher.PreImageAppend | src/sqlWrapper/hasher.go:10-17 | The encoding of a row is the in-order concatenation of its columns' encodings |
| Hasher.PreImageLayout | src/sqlWrapper/hasher.go:10-17 | Column j's bytes (DE AD BE EF when NULL) start right after the encodings of columns 0..j-1 and are followed by one 0x00 byte |
| Hasher.NullDiffersFromEmpty | src/sqlWrapper/hasher.go:11-16 | With any surrounding columns, a NULL cell and an empty non-NULL cell give pre-images that differ (by four bytes in length) |
| Hasher.SentinelCollision | src/sqlWrapper/hasher.go:11-14 | A non-NULL cell equal to DE AD BE EF encodes exactly like NULL |
| Hasher.SeparatorCollision | src/sqlWrapper/hasher.go:14-16 | One cell holding 0x00 encodes exactly like two empty cells |
| Hasher.HashFollowsPreImage | src/sqlWrapper/hasher.go:8-23 | The row digest depends on the columns only through the pre-image, for every hash function |
| Hasher.NoColumnsHashesEmptyInput | src/sqlWrapper/hasher.go:9-22 | An empty column list hashes the empty input |
| Executer.ScanRows | src/sqlWrapper/executer.go:34-46 | Scanning keeps the buffer length. With no rows the buffer stays all nil. When the last row fills every column, the buffer is exactly that row |
| Executer.Scan | src/sqlWrapper/executer.go:41 | One scan into the reused buffer keeps its length. Column i holds the scanned cell when the scan reached column i, and its earlier value otherwise |
| Executer.ScanRowsLast | src/sqlWrapper/executer.go:40-46 | After the row loop, the buffer is the last scan laid over the buffer the earlier scans left, so a short last scan keeps cells of earlier rows |
| Executer.PartialScanKeepsEarlierCells | src/sqlWrapper/executer.go:40-46 | A full row followed by a row cut short after one column leaves the second column holding the first row's value |
| Executer.StatementDigest | src/sqlWrapper/executer.go:20-49 | A returning statement yields a digest exactly when its query and column lookup succeed |
| Executer.OnlyLastRowHashed | src/sqlWrapper/executer.go:34-48 | Rows before the last full row are overwritten and do not affect the statement's digest |
| Executer.NoRowsHashesSentinels | src/sqlWrapper/executer.go:34-48 | A result set with no rows hashes one DE AD BE EF 00 per column |
| Executer.Contributions | src/sqlWrapper/executer.go:18-56 | At most one digest per statement |
| Executer.Feed | src/sqlWrapper/executer.go:16-56 | The statement loop feeds the submission hasher the concatenation of the contributing digests, in statement order. It issues every statement to the store, in order |
| Executer.Exec | src/sqlWrapper/executer.go:9-61 | The submission digest is the hash of the in-order concatenation of the contributing 32-byte digests. The store has every statement issued. An empty batch gives the digest of the empty input |
| Executer.FlattenLayout | src/sqlWrapper/executer.go:48-49 | The k-th contributing digest sits at bytes 32k to 32k+32 of the submission pre-image |
| Executer.DigestPreImageLength | src/sqlWrapper/executer.go:16-61 | The submission pre-image has 32 bytes per contributing statement. An empty batch hashes the empty input |
| Executer.ContributionsAppend | src/sqlWrapper/executer.go:18-56 | Two batches run back to back contribute the first batch's digests, then the second's computed on the store the first left |
| Executer.NonReturningContributesNothing | src/sqlWrapper/executer.go:50-55 | A non-returning statement is issued but adds nothing to the digest |
| Executer.FailedStatementSkipped | src/sqlWrapper/executer.go:21-32 | A returning statement whose query or column lookup fails adds nothing, and the later statements still run |
| Executer.ReturningStatementContributes | src/sqlWrapper/executer.go:34-49 | A returning statement with a result set contributes the digest of its final buffer, ahead of everything later statements contribute |
| FlightPlan.CheckPermission | src/event/flightPlanSubmitted.go:34-44 | A read-only batch is always permitted. A write batch is permitted iff the operator is in the route's allow-list or the default permission is exactly "write". A missing route reads as the zero route |
| FlightPlan.ReadOnlyAlwaysPermitted | src/event/flightPlanSubmitted.go:39-40 | A read-only batch is permitted for every operator and every route state |
| FlightPlan.OnlyExactWriteOpensRoute | src/event/flightPlanSubmitted.go:37-38 | With any default other than "write", a writer needs to be on the allow-list |
| FlightPlan.AbsentRoutePermitsOnlyReads | src/event/flightPlanSubmitted.go:35-41 | For a destination absent from the registry, a batch is permitted iff it is read-only |
| FlightPlan.HandleSubmission | src/event/flightPlanSubmitted.go:86-100 | An undecodable log changes nothing and attests nothing. A denied submission changes nothing and attests nothing. A permitted one issues its parsed statements and attests reportPos(airport, listener destination, nonce, digest of the contributing hashes) |
| FlightPlan.SyntaxErrorStillRunsPrefix | src/event/flightPlanSubmitted.go:90-97 | A syntax error is only logged. The parsed prefix is checked on its own write flag, executed and attested |
| FlightPlan.Listen | src/event/flightPlanSubmitted.go:71-102 | The live listener sends at most one attestation per log, each tagged with this airport and the listener's destination |
| Replay.ReplayLogs | src/event/reroute.go:50-75 | Logs are replayed in order, and replay stops at the first log that does not decode, does not parse cleanly or is not permitted. A decode or parse error is returned as the error. A denial ends with the denial result. Reaching the end returns no error |
| Replay.ExecutedLogsReplayable | src/event/reroute.go:50-72 | Every log counted as executed decoded, parsed without error and was permitted |
| Replay.Reroute | src/event/reroute.go:15-75 | A failed history query returns its error and executes nothing. Otherwise no error is reported iff every log was replayed or replay stopped at a permission denial |
| Replay.RerouteIntended | src/event/reroute.go:67-71 | The corrected replay reports no error iff every historical log was executed. A denial is reported as PermissionDenied |
| Replay.ReplayMatchesLive | src/event/reroute.go:50-72 | The store replay leaves is the store the live listener leaves after the same executed prefix of the history. A log whose parse fails executes none of its statements |
| Replay.ReplayOfCleanHistory | src/event/reroute.go:50-75 | If every log decodes, parses and is permitted, all are executed, nil is returned, and the store equals continuous live processing |
| Replay.DenialReportedAsSuccess | src/event/reroute.go:67-71 | As written, a denied first log ends replay with no error and nothing executed. The corrected replay reports PermissionDenied |
| Replay.IntendedExecutesTheSame | src/event/reroute.go:67-71 | The written and corrected replays execute the same logs and leave the same store. They differ only where the written one reports no error |
| Replay.RerouteLeavesIntendedStore | src/event/reroute.go:15-75 | For every history, the written and corrected replays leave the same store and execute the same logs |
| Registry.OnRouteLaunched | src/event/newRouteLaunched.go:66-94 | An undecodable log changes nothing. A decoded launch installs an open entry with the event's allow-list and default, overwriting any prior one, with a nil client when config or dial failed. Other entries and stores are unchanged. With reroute, `reroute` as written runs on the registry that already holds the new entry, and its error is the one logged, nil on a denial. The store it leaves is the one the corrected replay would leave. A listener is spawned even when replay failed |
| Registry.OnRouteTerminated | src/event/routeTerminated.go:52-59 | Termination needs an open channel and a non-nil client. It closes both and keeps the entry. Other entries, stores and listeners are unchanged. An undecodable log changes nothing |
| Registry.OnFlightPlanSubmitted | src/event/flightPlanSubmitted.go:78-101 | A listener step only reads the registry. It changes only its own destination's store and appends at most one attestation, tagged with that destination |
| Registry.NoSecondTermination | src/event/routeTerminated.go:58 | After a termination the route no longer meets the termination precondition, so a second close is excluded |
| Registry.RelaunchAfterTermination | src/event/newRouteLaunched.go:80-85 | A relaunch after termination replaces the closed entry with an open one carrying the new permissions |
| Registry.ReplaySeesNewPermissions | src/event/newRouteLaunched.go:80-92 | Replay is checked against the newly launched entry's allow-list and default permission |
| Legacy.ParseQuery | src/server.go:218-244 | The legacy classification loop computes exactly what the current parser computes, on every input |
| Legacy.InlineConditionMatchesCheckPermission | src/server.go:305 | The inline permission condition agrees with checkPermission on every input |
| Legacy.InlineStatementHash | src/server.go:309-347 | The inline per-statement hash equals the current per-statement digest. Its inline column loop (server.go:335-343) is the same loop as `hash` |
| Legacy.InlineRun | src/server.go:306-354 | The legacy statement loop issues every statement and prints exactly the contributing per-statement hashes. Non-returning statements print nothing |
| Legacy.LegacyHandle | src/server.go:298-358 | An undecodable or denied log changes nothing. Otherwise the parsed prefix is executed even after a syntax error, and the per-statement hashes are printed with no submission fold or attestation |
| Legacy.LegacyMatchesCurrent | src/server.go:305-355 | Started from the same store contents, the legacy and current listeners leave the same store. The current digest hashes exactly the hashes the legacy listener prints |

## Findings

| source | as written | input that shows it | evidently intended | confidence | as-written member | corrected member |
|---|---|---|---|---|---|---|
| src/event/reroute.go:67-71 | on a permission denial the loop executes `return err`, and `err` is the parse error already checked to be nil | a history whose first log decodes and parses cleanly but whose operator may not write | return an error, so that a replay stopped by a denial is not reported as a complete replay | medium; not executed | Replay.Reroute (exhibited by Replay.DenialReportedAsSuccess) | Replay.RerouteIntended |

`Registry.OnRouteLaunched` runs `Replay.Reroute` as written, as
newRouteLaunched.go:88 does, so a denial during a launch's replay is not
logged. The launch step only logs the replay error. `Replay.RerouteLeavesIntendedStore`
shows that the corrected replay would leave the same store and execute
the same logs. So the defect changes only what is logged, and the
launch's contract states both stores equal.

## Left out

- SHA-256 internals: the hash is a parameter, so no property depends on it.
- The rqlite SQL grammar and `stmt.String()` normalisation: a query is the parser's statement stream.
- sqlite execution: the database is an oracle over the issued-statement log. `sql.Open` failures (a nil handle) are not modelled.
- `sql.RawBytes` aliasing: the driver keeps an empty value scanned into a nil buffer as nil. The model takes cells as the driver delivers them.
- Goroutines, channels and `select`: the listeners are sequential step functions. `select` picks randomly among ready cases, so the model does not claim that a termination is seen before the next log. The unsynchronised route map is not modelled.
- The airport-wide shutdown channel: it is loop control with no effect on state.
- Registry.OnFlightPlanSubmitted: a listener whose route has a nil client panics at start-up. That happens after a failed config load or dial: `SubscribeFilterLogs` is called on a nil client (flightPlanSubmitted.go:64). A listener whose subscription failed also panics, at `sub.Err()` on a nil subscription (flightPlanSubmitted.go:76). Such a panic ends the process, so steps for such a destination have no counterpart in the source. The model does not exclude them. Otherwise an error on a live subscription only restarts the select loop.
- Legacy.LegacyMatchesCurrent: the legacy listener opens `database/%x.db` once per listener (server.go:279). `Exec` opens `%x.db` for each batch (executer.go:10). The two paths use different files, so the lemma compares them from the same starting contents.
- `sendHash` transport: dispatcher lookup, ABI packing and transaction sending are not modelled, and their errors are ignored by the caller. The attestation is the `reportPos` argument tuple.
- Logging: errors that are only printed are dropped. Replay errors at launch are kept in `Launched.replayErr`.
- The nonce is Go's `*big.Int`, modelled as an unbounded `int`.
- Registry.OnRouteTerminated: closing a nil or closed channel, or a nil client, panics in Go. These cases are a precondition rather than a modelled panic.
- Executer.Contributions: its own contract only bounds the length. Its meaning is stated by `Executer.Exec`, `Executer.ContributionsAppend` and the per-statement lemmas.
- The legacy launch and termination listeners in server.go (`checkNewRouteLaunchedEvent`, `checkRouteTerminatedEvent`) are not modelled. They are the current ones without replay.
- Ledger RPC plumbing (src/contract), configuration, airport registration and process lifecycle (src/config, src/airport, src/main.go and their server.go copies) are not modelled. They are I/O outside the core.
- Injectivity of the row encoding is not claimed, because it is false (see the two collision lemmas).
