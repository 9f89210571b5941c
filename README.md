# Dashboard live-feed orchestration (kinesis-explorer)

This project models the `Dashboard` component of the kinesis-explorer web
dashboard. The component shows the latest ledgers and transactions of a
Kinesis network. On mount it fetches both lists, shows them, and opens two
live streams starting at the newest record's paging token. Each streamed
record is put at the front of its feed, and at most nine older records are
kept. When the selected connection changes, the component closes its
streams and starts over. On unmount it closes its streams.

The project has five modules:

- `Wrappers` (wrappers.dfy): `Option`, which stands for a value that may be `undefined`.
- `Kinesis` (kinesis.dfy): the service-layer pieces the component relies on.
  - `Connection` is a class, because connections are compared by reference.
  - `Record` is an opaque payload with an optional `paging_token`.
  - `StreamSource` is the call builder that `getLedgerStream` and `getTransactionStream` prepare.
  - The `'now'` cursor default lives here.
- `Feeds` (feeds.dfy): the pure state updaters that `setState` applies.
  - `Slice` follows the semantics of JavaScript's `Array.prototype.slice`.
  - `Push`, `LoadData` and `StreamData` are the updaters.
  - Lemmas cover any number of pushes.
- `Lifecycle` (lifecycle.dfy): the component as a state machine over `Snapshot` values.
  - `fetchData` is cut at its `await` points into `FetchBegin`, `BulkResolved` and `StreamsOpened`.
  - The caller decides when each awaited call resolves, so fetch cycles can overlap.
  - Requests, opened streams and invoked close functions are recorded as events on a trace.
  - Lemmas state which close functions are invoked, and how often.
- `Layout` (dashboard.dfy): `class Dashboard`.
  - Its fields are the props' connection, `ledgers`, `transactions`, `isLoading`, the two close-function fields, and a ghost trace.
  - A `mounted` field stands for React's own record of whether the component is mounted. React drops a `setState` made after unmount.
  - Each lifecycle method changes these fields in place.
  - Each method is proved to move `Snap()` exactly as its `Lifecycle` function says. `ComponentDidMount`, `ComponentDidUpdate`, `ComponentWillUnmount`, `CloseDataStreams`, `HandleConnectionChange`, `HandleLoadData`, `HandleStreamData` and `SetState` pair with the `Lifecycle` functions of the same name. `FetchDataBegin`, `FetchDataBulkResolved` and `FetchDataStreamsOpened` pair with `FetchBegin`, `BulkResolved` and `StreamsOpened`. `ReceiveConnection` has no counterpart: it only replaces the connection.

The `Lifecycle` step functions `FetchBegin`, `BulkResolved`, `StreamsOpened`, `CloseDataStreams`, `HandleConnectionChange`, `ComponentDidMount`, `HandleStreamData` and `HandleLoadData` have no contracts of their own. Each one is stated by the `Layout.Dashboard` row of the method it specifies, as paired above, and by the lemmas about it.

The bulk fetches (`getLedgers`, `getTransactions`) and the SDK's `stream(...)`
call are not modelled. The records they return and the close functions
`stream(...)` hands back are parameters of `FetchDataBulkResolved` and
`FetchDataStreamsOpened`. `ReceiveConnection` stands for the host replacing
the component's props. Each opened stream is recorded with the feed its
`onmessage` pushes onto: the ledger stream feeds `ledgers`, the transaction
stream feeds `transactions`.

How the code behaves at its edges:

- Fetched lists are stored exactly as returned; nothing caps them at ten.
  The only bound is the `limit(10)` asked of the server.
- `componentDidMount` closes nothing before fetching. Only a connection change
  and unmount close streams.
- Unmount does not stop a fetch that is already running. React drops the
  cycle's `setState`, so the feeds stay as they were and `isLoading` stays
  raised. The cycle still opens both streams, and nothing ever closes them
  (`UnmountDuringFetchLeaks`).
- Nothing guards against overlapping fetch cycles, so stale close functions
  are overwritten and leaked (`OverlappingCyclesLeak`). Close functions stay
  stored after they are invoked, so a second quick change invokes them again
  (`RapidChangesCloseTwice`).
- The `'now'` default applies only when the token is `undefined`. An empty-string
  `paging_token` is passed through as the cursor.

Between `FetchBegin` and `BulkResolved` the browser can run other events.
Between `BulkResolved` and `StreamsOpened` the code only awaits
`getLedgerStream` and `getTransactionStream`, which resolve without I/O. So both
builders are requested against the connection that is current when the bulk
fetches resolve.

The state machine allows more event orders than React produces. A caller may
put other steps between `BulkResolved` and `StreamsOpened`, resolve a fetch
that was never issued, or send a connection change after unmount. The lemmas
that matter name the order they assume.

## Model

| member | source | states |
|---|---|---|
| Feeds.Slice | src/components/layout/Dashboard.tsx:108 | JavaScript `slice(start, end)`: the length is the clamped range, and element i is `s[start + i]` |
| Feeds.Push | src/components/layout/Dashboard.tsx:108 | after a push the new record is first, the length is `1 + min(old length, 9)` (never more than 10), and the rest is the first `min(old length, 9)` old records in order |
| Feeds.StreamData | src/components/layout/Dashboard.tsx:104-114 | a stream event pushes onto its own entity's feed; the other feed and `isLoading` are unchanged |
| Feeds.LoadData | src/components/layout/Dashboard.tsx:95-102 | a load replaces exactly the named feed with the data; the other feed and `isLoading` are unchanged |
| Feeds.StreamAllIsPushAll | src/components/layout/Dashboard.tsx:104-114 | a run of stream events for one entity acts on its feed as the pushes in order, and leaves the other feed and the flag alone |
| Feeds.PushAllIsNewestFirst | src/components/layout/Dashboard.tsx:108 | after one or more pushes the feed is the first ten of "pushed records newest first, then the starting feed" |
| Feeds.PushAllBounded | src/components/layout/Dashboard.tsx:108 | after one or more pushes a feed holds at most ten records, whatever it held before |
| Feeds.LastTenPushes | src/components/layout/Dashboard.tsx:108 | after ten or more pushes the feed is exactly the last ten pushed records, newest first |
| Kinesis.CursorOrDefault | src/services/kinesis.ts:69 | the cursor is `"now"` exactly when none is given (JavaScript `undefined`); a given cursor, even an empty string, is used as is |
| Kinesis.GetLedgerStream | src/services/kinesis.ts:101-110 | the builder is for the ledgers collection on the given connection, with limit 1, starting at the given cursor or at `"now"` |
| Kinesis.GetTransactionStream | src/services/kinesis.ts:67-76 | the builder is for the transactions collection on the given connection, with limit 1, starting at the given cursor or at `"now"` |
| Lifecycle.NewestToken | src/components/layout/Dashboard.tsx:66-67 | the token of the first (newest) fetched record; undefined when the list is empty |
| Lifecycle.SetState | src/components/layout/Dashboard.tsx:58 | while mounted the component state becomes the new state; after unmount it is left alone; nothing else changes |
| Lifecycle.RequestedSources | src/components/layout/Dashboard.tsx:66-76 | each stream starts at the newest fetched record's paging token, or at `"now"` when the list is empty or that token is undefined; the ledger builder is for ledgers, the other for transactions, both against the current connection with limit 1; every cursor is either `"now"` or the newest fetched record's token |
| Lifecycle.CloseEvents | src/components/layout/Dashboard.tsx:86-93 | closing invokes the transaction close function first and the ledger one last, one invocation per assigned field, and skips unassigned fields |
| Lifecycle.CloseEventsCount | src/components/layout/Dashboard.tsx:86-93 | one close pass invokes each stored close function exactly once per field that holds it, and invokes no other function |
| Lifecycle.ComponentDidUpdate | src/components/layout/Dashboard.tsx:47-51 | only a connection that is a different object acts: it closes the stored streams, then issues the new fetch and sets loading while mounted; feeds and stored close functions are unchanged; otherwise nothing changes |
| Lifecycle.ComponentWillUnmount | src/components/layout/Dashboard.tsx:53-55 | unmount adds exactly one close pass to the trace (transactions first, then ledgers, only the assigned ones), issues no fetch, marks the component unmounted, and changes nothing else |
| Lifecycle.ResolveTrace | src/components/layout/Dashboard.tsx:64-83 | an uninterrupted fetch cycle obtains the ledger close function, then the transaction one, and invokes nothing |
| Lifecycle.ChangeTrace | src/components/layout/Dashboard.tsx:116-119 | a connection change opens nothing; the only invocations it adds are those of one close pass |
| Lifecycle.FirstCycleGoesLive | src/components/layout/Dashboard.tsx:43-84 | after mount and a completed first cycle, both close functions are stored and not yet invoked, and the feeds hold the fetched records with loading off |
| Lifecycle.ChangeWhileLiveStaysLive | src/components/layout/Dashboard.tsx:47-119 | a connection change whose cycle completes undisturbed invokes each old close function exactly once and leaves live, unleaked streams on the new connection |
| Lifecycle.UnmountWhileLiveClosesAll | src/components/layout/Dashboard.tsx:53-55 | unmounting a live dashboard leaves every close function ever obtained invoked exactly once |
| Lifecycle.OverlappingCyclesLeak | src/components/layout/Dashboard.tsx:57-84 | when a second cycle starts before the first opens its streams, the first cycle's close functions are overwritten and never invoked, even after unmount |
| Lifecycle.RapidChangesCloseTwice | src/components/layout/Dashboard.tsx:116-119 | two connection changes with no completed cycle in between invoke the same stored close functions twice |
| Lifecycle.UnmountDuringFetchLeaks | src/components/layout/Dashboard.tsx:53-84 | when a fetch is in flight at unmount, its state update and later stream pushes are dropped (feeds stay empty, loading stays raised), yet it still opens both streams and neither is ever closed |
| Lifecycle.MountFetchPushScenario | src/components/layout/Dashboard.tsx:57-114 | mount, fetch `[L5, L4]` (token "5"), then push L6: the ledger stream starts at "5", loading is off, and the ledger feed becomes `[L6, L5, L4]` |
| Layout.Dashboard.constructor | src/components/layout/Dashboard.tsx:34-41 | the component starts with empty feeds, not loading, no close function assigned |
| Layout.Dashboard.ComponentDidMount | src/components/layout/Dashboard.tsx:43-45 | mount starts a fetch and nothing else |
| Layout.Dashboard.ComponentDidUpdate | src/components/layout/Dashboard.tsx:47-51 | follows `Lifecycle.ComponentDidUpdate`: loading is set when the connection object differs and the component is mounted, and the close-function fields are unchanged |
| Layout.Dashboard.ComponentWillUnmount | src/components/layout/Dashboard.tsx:53-55 | follows `Lifecycle.ComponentWillUnmount`: one close pass, then the component is unmounted |
| Layout.Dashboard.SetState | src/components/layout/Dashboard.tsx:58 | follows `Lifecycle.SetState`: the state fields take the new values only while mounted |
| Layout.Dashboard.FetchDataBegin | src/components/layout/Dashboard.tsx:57-62 | sets `isLoading` (a no-op after unmount), keeps both feeds, and issues the bulk fetches against the current connection |
| Layout.Dashboard.FetchDataBulkResolved | src/components/layout/Dashboard.tsx:63-76 | while mounted, stores both fetched lists and clears `isLoading` in one step (after unmount the state is unchanged), then requests the ledger builder and then the transaction builder, with the cursors of `Lifecycle.RequestedSources` |
| Layout.Dashboard.FetchDataStreamsOpened | src/components/layout/Dashboard.tsx:78-83 | streams the ledger builder into the ledger feed, then the transaction builder into the transaction feed, and stores the returned close functions, overwriting earlier ones; the feeds are unchanged |
| Layout.Dashboard.CloseDataStreams | src/components/layout/Dashboard.tsx:86-93 | invokes the assigned close functions, transactions first, and leaves both fields as they were |
| Layout.Dashboard.HandleLoadData | src/components/layout/Dashboard.tsx:95-102 | while mounted the named feed becomes the data; the other feed is always unchanged, and after unmount nothing changes |
| Layout.Dashboard.HandleStreamData | src/components/layout/Dashboard.tsx:104-114 | while mounted the new record heads its feed and the feed length is `1 + min(old, 9)`; the other feed and `isLoading` are always unchanged, and after unmount nothing changes |
| Layout.Dashboard.HandleConnectionChange | src/components/layout/Dashboard.tsx:116-119 | closes the streams, then starts a new fetch |

## Left out

- Rendering (`render`) and the `ConnectedDashboard` wrapper. These are UI and the `unstated` container wiring.
- The rest of src/services/kinesis.ts is not modelled. That is `getNetwork`, `getServer`, `getTransaction`, `getTransactions`, `getLedger`, `getLedgers` and `getAccount`, thin SDK and network wrappers. Their results are parameters here, and `getLedgers`/`getTransactions` are one `BulkFetchIssued` event.
- `convertStroopsToKinesis`: floating-point division.
- `validateAccount`: it defers to the SDK's key check, whose logic is not part of this model.
- src/components/widgets/SearchBar.tsx and src/utils/index.ts. The first is a text input and a link. The second holds `moment` and wall-clock formatting and an untyped `concat` pass-through.
- Connection fields (network passphrase, Horizon URL) and their type file are not part of this model. Only reference identity is used.
- What the SDK does with a stream: delivering records, and stopping them when a close function runs. A stream event is modelled as a call to `HandleStreamData` at any time.
- Rejected promises: the code has no handler for them, so a failed fetch simply never reaches the next step.
- React's batching of `setState`. Each `setState` is applied at once, in program order.
