/**
 * The Dashboard component's lifecycle as a state machine over snapshots of
 * its state (src/components/layout/Dashboard.tsx:43-119). fetchData is cut
 * at its await points into three steps: FetchBegin, BulkResolved and
 * StreamsOpened; whoever drives the machine decides when each awaited call
 * resolves, so two fetch cycles may overlap as they can in the browser.
 * Invoking a close function, issuing a request and opening a stream are
 * recorded as events on a trace. React's own record of whether the
 * component is still mounted is kept too, because React drops a setState
 * made after unmount.
 */
module Lifecycle {
  import opened Wrappers
  import opened Kinesis
  import opened Feeds

  /** A close function returned by a call builder's stream(...); only its
      identity matters here. */
  datatype Handle = Handle(subscription: nat)

  datatype Event =
    | BulkFetchIssued(connection: Connection)        // getLedgers and getTransactions
    | StreamRequested(source: StreamSource)          // getLedgerStream / getTransactionStream
    | StreamOpened(source: StreamSource, feed: Entity, handle: Handle)  // its onmessage pushes onto feed
    | Closed(handle: Handle)                         // a close function invoked

  /** Everything the component holds: its props' connection, its state, the
      two close-function fields (undefined until assigned) and the trace; and
      whether React still has it mounted. */
  datatype Snapshot = Snapshot(
    connection: Connection,
    mounted: bool,
    state: DashboardState,
    closeLedgerStream: Option<Handle>,
    closeTransactionStream: Option<Handle>,
    trace: seq<Event>)

  /** The two call builders a fetch cycle has prepared and not yet streamed. */
  datatype Sources = Sources(ledger: StreamSource, transaction: StreamSource)

  function Initial(connection: Connection): Snapshot
  {
    Snapshot(connection, true, InitialState, None, None, [])
  }

  /** `(records[0] || {}).paging_token`: undefined for an empty list, else
      the first record's token, itself possibly undefined. */
  function NewestToken(records: seq<Record>): (t: Option<string>)
    ensures |records| == 0 ==> t == None
    ensures |records| > 0 ==> t == records[0].pagingToken
  {
    if |records| == 0 then None else records[0].pagingToken
  }

  /** The builders a cycle requests once its bulk fetches resolve: each one
      starts at the paging token of the newest fetched record, or at "now"
      when there is no record or it has no token. */
  function RequestedSources(connection: Connection, ledgers: seq<Record>, transactions: seq<Record>): (r: Sources)
    ensures r.ledger.collection == LedgerCollection && r.transaction.collection == TransactionCollection
    ensures r.ledger.connection == connection && r.transaction.connection == connection
    ensures r.ledger.limit == 1 && r.transaction.limit == 1
    ensures |ledgers| > 0 && ledgers[0].pagingToken.Some? ==> r.ledger.cursor == ledgers[0].pagingToken.value
    ensures (|ledgers| == 0 || ledgers[0].pagingToken.None?) ==> r.ledger.cursor == "now"
    ensures |transactions| > 0 && transactions[0].pagingToken.Some? ==> r.transaction.cursor == transactions[0].pagingToken.value
    ensures (|transactions| == 0 || transactions[0].pagingToken.None?) ==> r.transaction.cursor == "now"
    ensures r.ledger.cursor == "now" || (|ledgers| > 0 && ledgers[0].pagingToken == Some(r.ledger.cursor))
    ensures r.transaction.cursor == "now" || (|transactions| > 0 && transactions[0].pagingToken == Some(r.transaction.cursor))
  {
    Sources(GetLedgerStream(connection, NewestToken(ledgers)),
            GetTransactionStream(connection, NewestToken(transactions)))
  }

  /** this.setState(...): React applies the new state while the component is
      mounted and drops it afterwards. */
  function SetState(s: Snapshot, next: DashboardState): (u: Snapshot)
    ensures u.state == (if s.mounted then next else s.state)
    ensures u.(state := s.state) == s
  {
    if s.mounted then s.(state := next) else s
  }

  /** fetchData up to its first await: raise the loading flag and issue the
      two bulk fetches against the current connection. */
  function FetchBegin(s: Snapshot): Snapshot
  {
    SetState(s, s.state.(isLoading := true)).(trace := s.trace + [BulkFetchIssued(s.connection)])
  }

  /** fetchData once both bulk fetches have resolved: both feeds and the flag
      in one setState, then the two builders requested, ledgers first,
      against the connection current at that moment. */
  function BulkResolved(s: Snapshot, ledgers: seq<Record>, transactions: seq<Record>): Snapshot
  {
    var src := RequestedSources(s.connection, ledgers, transactions);
    SetState(s, DashboardState(ledgers, transactions, false))
      .(trace := s.trace + [StreamRequested(src.ledger), StreamRequested(src.transaction)])
  }

  /** fetchData's last step: stream both builders, ledgers first, and store
      the close functions they return, overwriting whatever was stored. */
  function StreamsOpened(s: Snapshot, src: Sources, ledgerHandle: Handle, transactionHandle: Handle): Snapshot
  {
    s.(closeLedgerStream := Some(ledgerHandle), closeTransactionStream := Some(transactionHandle),
       trace := s.trace + [StreamOpened(src.ledger, Ledgers, ledgerHandle), StreamOpened(src.transaction, Transactions, transactionHandle)])
  }

  /** The remainder of one fetch cycle when nothing interleaves with it. */
  function Resolve(s: Snapshot, ledgers: seq<Record>, transactions: seq<Record>, ledgerHandle: Handle, transactionHandle: Handle): Snapshot
  {
    StreamsOpened(BulkResolved(s, ledgers, transactions), RequestedSources(s.connection, ledgers, transactions), ledgerHandle, transactionHandle)
  }

  /** The invocations closeDataStreams makes: the transaction close function,
      then the ledger one, each once if it is assigned. */
  function CloseEvents(transaction: Option<Handle>, ledger: Option<Handle>): (r: seq<Event>)
    ensures |r| == (if transaction.Some? then 1 else 0) + (if ledger.Some? then 1 else 0)
    ensures transaction.Some? ==> r[0] == Closed(transaction.value)
    ensures ledger.Some? ==> r[|r| - 1] == Closed(ledger.value)
    ensures forall i :: 0 <= i < |r| ==> r[i].Closed?
  {
    (if transaction.Some? then [Closed(transaction.value)] else [])
      + (if ledger.Some? then [Closed(ledger.value)] else [])
  }

  /** closeDataStreams: the stored close functions are invoked and stay stored. */
  function CloseDataStreams(s: Snapshot): Snapshot
  {
    s.(trace := s.trace + CloseEvents(s.closeTransactionStream, s.closeLedgerStream))
  }

  function HandleConnectionChange(s: Snapshot): Snapshot
  {
    FetchBegin(CloseDataStreams(s))
  }

  function ComponentDidMount(s: Snapshot): Snapshot
  {
    FetchBegin(s)
  }

  /** componentDidUpdate: a connection that is a different object closes the
      streams and only then starts a new fetch; any other update (a
      re-render after setState, the same connection) changes nothing. */
  function ComponentDidUpdate(s: Snapshot, prevConnection: Connection): (u: Snapshot)
    ensures prevConnection != s.connection ==>
      && u.trace == s.trace + CloseEvents(s.closeTransactionStream, s.closeLedgerStream) + [BulkFetchIssued(s.connection)]
      && u.state == (if s.mounted then s.state.(isLoading := true) else s.state)
      && u.mounted == s.mounted
      && u.connection == s.connection
      && u.closeLedgerStream == s.closeLedgerStream && u.closeTransactionStream == s.closeTransactionStream
    ensures prevConnection == s.connection ==> u == s
  {
    if prevConnection != s.connection then HandleConnectionChange(s) else s
  }

  /** componentWillUnmount: the stored close functions are invoked (one close
      pass), no fetch is issued, React forgets the component, and nothing
      else changes. */
  function ComponentWillUnmount(s: Snapshot): (u: Snapshot)
    ensures u.trace == s.trace + CloseEvents(s.closeTransactionStream, s.closeLedgerStream)
    ensures forall i :: |s.trace| <= i < |u.trace| ==> u.trace[i].Closed?
    ensures !u.mounted
    ensures u.(trace := s.trace, mounted := s.mounted) == s
  {
    CloseDataStreams(s).(mounted := false)
  }

  function HandleStreamData(s: Snapshot, e: Entity, x: Record): Snapshot
  {
    SetState(s, StreamData(s.state, e, x))
  }

  function HandleLoadData(s: Snapshot, e: Entity, data: seq<Record>): Snapshot
  {
    SetState(s, LoadData(s.state, e, data))
  }

  /** The host re-renders the component with a new selected connection and
      React then calls componentDidUpdate with the previous props. */
  function ChangeConnection(s: Snapshot, c: Connection): Snapshot
  {
    ComponentDidUpdate(s.(connection := c), s.connection)
  }

  // ---- Reading the trace ----

  /** The close functions obtained, in the order the streams were opened. */
  function Opened(t: seq<Event>): seq<Handle>
    decreases |t|
  {
    if t == [] then [] else (if t[0].StreamOpened? then [t[0].handle] else []) + Opened(t[1..])
  }

  /** How many times the close function h was invoked. */
  function Closes(t: seq<Event>, h: Handle): nat
    decreases |t|
  {
    if t == [] then 0 else (if t[0] == Closed(h) then 1 else 0) + Closes(t[1..], h)
  }

  lemma {:induction false} OpenedAppend(a: seq<Event>, b: seq<Event>)
    ensures Opened(a + b) == Opened(a) + Opened(b)
    decreases |a|
  {
    if a != [] {
      assert (a + b)[1..] == a[1..] + b;
      OpenedAppend(a[1..], b);
    } else {
      assert a + b == b;
    }
  }

  lemma {:induction false} ClosesAppend(a: seq<Event>, b: seq<Event>, h: Handle)
    ensures Closes(a + b, h) == Closes(a, h) + Closes(b, h)
    decreases |a|
  {
    if a != [] {
      assert (a + b)[1..] == a[1..] + b;
      ClosesAppend(a[1..], b, h);
    } else {
      assert a + b == b;
    }
  }

  /** The events that open no stream and close nothing. */
  lemma NeutralEvents(e: Event, h: Handle)
    requires !e.StreamOpened? && !e.Closed?
    ensures Opened([e]) == [] && Closes([e], h) == 0
  {
  }

  function Stored(s: Snapshot, h: Handle): bool
  {
    s.closeLedgerStream == Some(h) || s.closeTransactionStream == Some(h)
  }

  /** Live streams with no leak so far: both close functions are stored and
      distinct, they have not been invoked, and every close function obtained
      earlier has been invoked exactly once. */
  ghost predicate Live(s: Snapshot)
  {
    && s.mounted
    && s.closeLedgerStream.Some? && s.closeTransactionStream.Some?
    && s.closeLedgerStream.value != s.closeTransactionStream.value
    && s.closeLedgerStream.value in Opened(s.trace)
    && s.closeTransactionStream.value in Opened(s.trace)
    && (forall h :: h in Opened(s.trace) ==> Closes(s.trace, h) == (if Stored(s, h) then 0 else 1))
    && (forall h :: h !in Opened(s.trace) ==> Closes(s.trace, h) == 0)
  }

  /** What one uninterrupted fetch cycle adds to the trace. */
  lemma ResolveTrace(s: Snapshot, ledgers: seq<Record>, transactions: seq<Record>, l: Handle, x: Handle)
    ensures var u := Resolve(s, ledgers, transactions, l, x);
      && Opened(u.trace) == Opened(s.trace) + [l, x]
      && forall h :: Closes(u.trace, h) == Closes(s.trace, h)
  {
    var src := RequestedSources(s.connection, ledgers, transactions);
    var e0, e1, e2, e3 := StreamRequested(src.ledger), StreamRequested(src.transaction), StreamOpened(src.ledger, Ledgers, l), StreamOpened(src.transaction, Transactions, x);
    var t1 := s.trace + [e0];
    var t2 := t1 + [e1];
    var t3 := t2 + [e2];
    var u := Resolve(s, ledgers, transactions, l, x);
    assert u.trace == t3 + [e3];
    forall h ensures Closes(u.trace, h) == Closes(s.trace, h) && Opened(u.trace) == Opened(s.trace) + [l, x] {
      Extend(s.trace, e0, h);
      Extend(t1, e1, h);
      Extend(t2, e2, h);
      Extend(t3, e3, h);
    }
    Extend(s.trace, e0, l);
    Extend(t1, e1, l);
    Extend(t2, e2, l);
    Extend(t3, e3, l);
  }

  /** What one more event does to the two readings of the trace. */
  lemma Extend(t: seq<Event>, e: Event, h: Handle)
    ensures Opened(t + [e]) == Opened(t) + (if e.StreamOpened? then [e.handle] else [])
    ensures Closes(t + [e], h) == Closes(t, h) + (if e == Closed(h) then 1 else 0)
  {
    assert [e][1..] == [];
    OpenedAppend(t, [e]);
    ClosesAppend(t, [e], h);
  }

  /** What a connection change adds to the trace. */
  lemma ChangeTrace(s: Snapshot, c: Connection)
    requires c != s.connection
    ensures var u := ChangeConnection(s, c);
      && Opened(u.trace) == Opened(s.trace)
      && forall h :: Closes(u.trace, h) == Closes(s.trace, h) + Closes(CloseEvents(s.closeTransactionStream, s.closeLedgerStream), h)
  {
    var u := ChangeConnection(s, c);
    var cl := CloseEvents(s.closeTransactionStream, s.closeLedgerStream);
    assert u.trace == s.trace + cl + [BulkFetchIssued(c)];
    OpenedAppend(s.trace + cl, [BulkFetchIssued(c)]);
    OpenedAppend(s.trace, cl);
    ClosedOnlyOpensNothing(cl);
    forall h ensures Closes(u.trace, h) == Closes(s.trace, h) + Closes(cl, h) {
      ClosesAppend(s.trace + cl, [BulkFetchIssued(c)], h);
      ClosesAppend(s.trace, cl, h);
      NeutralEvents(BulkFetchIssued(c), h);
    }
    NeutralEvents(BulkFetchIssued(c), Handle(0));
  }

  lemma {:induction false} ClosedOnlyOpensNothing(t: seq<Event>)
    requires forall i :: 0 <= i < |t| ==> t[i].Closed?
    ensures Opened(t) == []
    decreases |t|
  {
    if t != [] {
      ClosedOnlyOpensNothing(t[1..]);
    }
  }

  /** closeDataStreams invokes each stored close function exactly once (once
      for each field holding it) and no other. */
  lemma CloseEventsCount(transaction: Option<Handle>, ledger: Option<Handle>, h: Handle)
    ensures Closes(CloseEvents(transaction, ledger), h)
         == (if transaction == Some(h) then 1 else 0) + (if ledger == Some(h) then 1 else 0)
  {
    var tPart := if transaction.Some? then [Closed(transaction.value)] else [];
    var lPart := if ledger.Some? then [Closed(ledger.value)] else [];
    ClosesAppend(tPart, lPart, h);
    if transaction.Some? { assert tPart[1..] == []; }
    if ledger.Some? { assert lPart[1..] == []; }
  }

  /** Mounting and letting the first fetch cycle finish makes the streams live. */
  lemma FirstCycleGoesLive(c: Connection, ledgers: seq<Record>, transactions: seq<Record>, l: Handle, x: Handle)
    requires l != x
    ensures var u := Resolve(ComponentDidMount(Initial(c)), ledgers, transactions, l, x);
      Live(u) && u.state == DashboardState(ledgers, transactions, false)
  {
    var m := ComponentDidMount(Initial(c));
    NeutralEvents(BulkFetchIssued(c), l);
    ResolveTrace(m, ledgers, transactions, l, x);
    forall h ensures Closes(m.trace, h) == 0 {
      NeutralEvents(BulkFetchIssued(c), h);
    }
  }

  /** A connection change while live, when the new cycle finishes before
      anything else happens, closes each old stream exactly once and leaves
      the dashboard live on streams of the new connection. */
  lemma ChangeWhileLiveStaysLive(s: Snapshot, c: Connection, ledgers: seq<Record>, transactions: seq<Record>, l: Handle, x: Handle)
    requires Live(s) && c != s.connection
    requires l != x && l !in Opened(s.trace) && x !in Opened(s.trace)
    ensures var u := Resolve(ChangeConnection(s, c), ledgers, transactions, l, x);
      && Live(u)
      && Closes(u.trace, s.closeLedgerStream.value) == 1
      && Closes(u.trace, s.closeTransactionStream.value) == 1
      && u.state == DashboardState(ledgers, transactions, false)
      && u.connection == c
  {
    var m := ChangeConnection(s, c);
    ChangeTrace(s, c);
    ResolveTrace(m, ledgers, transactions, l, x);
    var u := Resolve(m, ledgers, transactions, l, x);
    forall h ensures Closes(u.trace, h) == Closes(s.trace, h) + Closes(CloseEvents(s.closeTransactionStream, s.closeLedgerStream), h) {
    }
    forall h | h in Opened(u.trace) ensures Closes(u.trace, h) == (if Stored(u, h) then 0 else 1) {
      CloseEventsCount(s.closeTransactionStream, s.closeLedgerStream, h);
    }
    forall h | h !in Opened(u.trace) ensures Closes(u.trace, h) == 0 {
      CloseEventsCount(s.closeTransactionStream, s.closeLedgerStream, h);
    }
    CloseEventsCount(s.closeTransactionStream, s.closeLedgerStream, s.closeLedgerStream.value);
    CloseEventsCount(s.closeTransactionStream, s.closeLedgerStream, s.closeTransactionStream.value);
  }

  /** Unmounting a live dashboard invokes every close function ever obtained
      exactly once and issues no new request. */
  lemma UnmountWhileLiveClosesAll(s: Snapshot)
    requires Live(s)
    ensures var u := ComponentWillUnmount(s);
      && Opened(u.trace) == Opened(s.trace)
      && forall h :: Closes(u.trace, h) == (if h in Opened(u.trace) then 1 else 0)
  {
    var cl := CloseEvents(s.closeTransactionStream, s.closeLedgerStream);
    var u := ComponentWillUnmount(s);
    OpenedAppend(s.trace, cl);
    ClosedOnlyOpensNothing(cl);
    forall h ensures Closes(u.trace, h) == (if h in Opened(u.trace) then 1 else 0) {
      ClosesAppend(s.trace, cl, h);
      CloseEventsCount(s.closeTransactionStream, s.closeLedgerStream, h);
    }
  }

  /** As written, nothing ties a fetch cycle to the connection it started
      for: when a second cycle starts before the first has opened its
      streams, both open streams, the later overwrites the stored close
      functions, and the earlier cycle's streams are never closed, not even
      on unmount. */
  lemma OverlappingCyclesLeak(a: Connection, b: Connection, l1: Handle, x1: Handle, l2: Handle, x2: Handle,
                              ledgers1: seq<Record>, transactions1: seq<Record>, ledgers2: seq<Record>, transactions2: seq<Record>)
    requires a != b
    requires l1 != x1 && l2 != x2 && l1 != l2 && l1 != x2 && x1 != l2 && x1 != x2
    ensures var s1 := ComponentDidMount(Initial(a));
      var s2 := ChangeConnection(s1, b);
      var s3 := Resolve(s2, ledgers1, transactions1, l1, x1);
      var s4 := Resolve(s3, ledgers2, transactions2, l2, x2);
      var u := ComponentWillUnmount(s4);
      && l1 in Opened(u.trace) && x1 in Opened(u.trace)
      && Closes(u.trace, l1) == 0 && Closes(u.trace, x1) == 0
      && Closes(u.trace, l2) == 1 && Closes(u.trace, x2) == 1
  {
    var s1 := ComponentDidMount(Initial(a));
    var s2 := ChangeConnection(s1, b);
    var s3 := Resolve(s2, ledgers1, transactions1, l1, x1);
    var s4 := Resolve(s3, ledgers2, transactions2, l2, x2);
    var u := ComponentWillUnmount(s4);
    assert s4.closeLedgerStream == Some(l2) && s4.closeTransactionStream == Some(x2);
    var cl := CloseEvents(Some(x2), Some(l2));
    assert u.trace == s4.trace + cl;
    ChangeTrace(s1, b);
    ResolveTrace(s2, ledgers1, transactions1, l1, x1);
    ResolveTrace(s3, ledgers2, transactions2, l2, x2);
    OpenedAppend(s4.trace, cl);
    ClosedOnlyOpensNothing(cl);
    assert s1.trace == [BulkFetchIssued(a)];
    assert Opened(s1.trace) == [] by { NeutralEvents(BulkFetchIssued(a), l1); }
    assert Opened(s4.trace) == [l1, x1, l2, x2];
    forall h ensures Closes(u.trace, h) == Closes(s4.trace, h) + Closes(cl, h) && Closes(s4.trace, h) == 0 {
      NeutralEvents(BulkFetchIssued(a), h);
      ClosesAppend(s4.trace, cl, h);
    }
    CloseEventsCount(Some(x2), Some(l2), l1);
    CloseEventsCount(Some(x2), Some(l2), x1);
    CloseEventsCount(Some(x2), Some(l2), l2);
    CloseEventsCount(Some(x2), Some(l2), x2);
  }

  /** As written, the close functions stay stored after they are invoked, so
      two connection changes in a row, the second before the first cycle has
      opened streams, invoke the same close functions twice. */
  lemma RapidChangesCloseTwice(s: Snapshot, b: Connection, c: Connection)
    requires Live(s) && b != s.connection && c != b
    ensures var u := ChangeConnection(ChangeConnection(s, b), c);
      && Closes(u.trace, s.closeLedgerStream.value) == 2
      && Closes(u.trace, s.closeTransactionStream.value) == 2
  {
    var m := ChangeConnection(s, b);
    ChangeTrace(s, b);
    ChangeTrace(m, c);
    CloseEventsCount(s.closeTransactionStream, s.closeLedgerStream, s.closeLedgerStream.value);
    CloseEventsCount(s.closeTransactionStream, s.closeLedgerStream, s.closeTransactionStream.value);
    CloseEventsCount(m.closeTransactionStream, m.closeLedgerStream, s.closeLedgerStream.value);
    CloseEventsCount(m.closeTransactionStream, m.closeLedgerStream, s.closeTransactionStream.value);
  }

  /** As written, unmounting while the first fetch is in flight does not stop
      it: React drops the cycle's setState, so the feeds stay empty and the
      flag stays raised, and any record the leaked streams deliver is dropped
      too; but the cycle still opens both streams, and nothing closes them. */
  lemma UnmountDuringFetchLeaks(a: Connection, ledgers: seq<Record>, transactions: seq<Record>, l: Handle, x: Handle, r: Record)
    requires l != x
    ensures var u := Resolve(ComponentWillUnmount(ComponentDidMount(Initial(a))), ledgers, transactions, l, x);
      && u.state == DashboardState([], [], true)
      && HandleStreamData(u, Ledgers, r).state == u.state
      && l in Opened(u.trace) && x in Opened(u.trace)
      && Closes(u.trace, l) == 0 && Closes(u.trace, x) == 0
  {
    var m := ComponentWillUnmount(ComponentDidMount(Initial(a)));
    assert m.trace == [BulkFetchIssued(a)];
    NeutralEvents(BulkFetchIssued(a), l);
    NeutralEvents(BulkFetchIssued(a), x);
    ResolveTrace(m, ledgers, transactions, l, x);
  }

  /** Mount on a connection, receive the ledgers [L5, L4] with L5's token "5",
      then the pushed ledger L6: the ledger stream starts at "5", loading is
      over, and the ledger feed reads [L6, L5, L4]. */
  lemma MountFetchPushScenario(c: Connection, transactions: seq<Record>, l: Handle, x: Handle)
    ensures var L4, L5, L6 := Record("L4", Some("4")), Record("L5", Some("5")), Record("L6", Some("6"));
      var s := BulkResolved(ComponentDidMount(Initial(c)), [L5, L4], transactions);
      var src := RequestedSources(c, [L5, L4], transactions);
      var u := HandleStreamData(StreamsOpened(s, src, l, x), Ledgers, L6);
      && src.ledger.cursor == "5"
      && !s.state.isLoading && s.state.ledgers == [L5, L4]
      && u.state.ledgers == [L6, L5, L4]
  {
  }
}
