/**
 * The Dashboard component itself (src/components/layout/Dashboard.tsx:33-119):
 * its props' connection, its state fields, the two close-function fields
 * that its lifecycle methods assign and invoke, and a ghost trace of what
 * it asked the service layer to do, plus React's record of whether the
 * component is mounted (a setState after unmount is dropped). Each method
 * is one event-loop turn of the component and is proved to take the
 * snapshot exactly where the Lifecycle state machine says.
 */
module Layout {
  import opened Wrappers
  import opened Kinesis
  import opened Feeds
  import Lifecycle

  class Dashboard {
    var selectedConnection: Connection
    var mounted: bool
    var ledgers: seq<Record>
    var transactions: seq<Record>
    var isLoading: bool
    var closeLedgerStream: Option<Lifecycle.Handle>
    var closeTransactionStream: Option<Lifecycle.Handle>
    ghost var trace: seq<Lifecycle.Event>

    function State(): DashboardState
      reads this
    {
      DashboardState(ledgers, transactions, isLoading)
    }

    ghost function Snap(): Lifecycle.Snapshot
      reads this
    {
      Lifecycle.Snapshot(selectedConnection, mounted, State(), closeLedgerStream, closeTransactionStream, trace)
    }

    /** Both feeds empty, not loading, no close function assigned. */
    constructor (connection: Connection)
      ensures Snap() == Lifecycle.Initial(connection)
    {
      selectedConnection, mounted := connection, true;
      ledgers, transactions, isLoading := [], [], false;
      closeLedgerStream, closeTransactionStream := None, None;
      trace := [];
    }

    /** The host replaces the props with a new selected connection. */
    method ReceiveConnection(connection: Connection)
      modifies this
      ensures Snap() == old(Snap()).(connection := connection)
    {
      selectedConnection := connection;
    }

    method ComponentDidMount()
      modifies this
      ensures Snap() == Lifecycle.ComponentDidMount(old(Snap()))
    {
      FetchDataBegin();
    }

    method ComponentDidUpdate(prevConnection: Connection)
      modifies this
      ensures Snap() == Lifecycle.ComponentDidUpdate(old(Snap()), prevConnection)
      ensures prevConnection != old(selectedConnection) && old(mounted) ==> isLoading
      ensures closeLedgerStream == old(closeLedgerStream) && closeTransactionStream == old(closeTransactionStream)
    {
      if prevConnection != selectedConnection {
        HandleConnectionChange();
      }
    }

    method ComponentWillUnmount()
      modifies this
      ensures Snap() == Lifecycle.ComponentWillUnmount(old(Snap()))
      ensures !mounted
    {
      CloseDataStreams();
      mounted := false;
    }

    /** this.setState(next): applied while mounted, dropped afterwards. */
    method SetState(next: DashboardState)
      modifies this
      ensures Snap() == Lifecycle.SetState(old(Snap()), next)
    {
      if mounted {
        ledgers, transactions, isLoading := next.ledgers, next.transactions, next.isLoading;
      }
    }

    /** fetchData up to `await Promise.all(...)`. */
    method FetchDataBegin()
      modifies this
      ensures Snap() == Lifecycle.FetchBegin(old(Snap()))
      ensures isLoading == (old(mounted) || old(isLoading)) && ledgers == old(ledgers) && transactions == old(transactions)
    {
      SetState(State().(isLoading := true));
      trace := trace + [Lifecycle.BulkFetchIssued(selectedConnection)];
    }

    /** fetchData resumed with both bulk results: one setState, then the two
        stream builders requested from the newest records' tokens. */
    method FetchDataBulkResolved(fetchedLedgers: seq<Record>, fetchedTransactions: seq<Record>)
      returns (sources: Lifecycle.Sources)
      modifies this
      ensures Snap() == Lifecycle.BulkResolved(old(Snap()), fetchedLedgers, fetchedTransactions)
      ensures sources == Lifecycle.RequestedSources(selectedConnection, fetchedLedgers, fetchedTransactions)
      ensures old(mounted) ==> ledgers == fetchedLedgers && transactions == fetchedTransactions && !isLoading
      ensures !old(mounted) ==> State() == old(State())
    {
      SetState(DashboardState(fetchedLedgers, fetchedTransactions, false));
      var ledgerCursor := Lifecycle.NewestToken(fetchedLedgers);
      var transactionCursor := Lifecycle.NewestToken(fetchedTransactions);
      var ledgerResponse := GetLedgerStream(selectedConnection, ledgerCursor);
      trace := trace + [Lifecycle.StreamRequested(ledgerResponse)];
      var transactionResponse := GetTransactionStream(selectedConnection, transactionCursor);
      trace := trace + [Lifecycle.StreamRequested(transactionResponse)];
      sources := Lifecycle.Sources(ledgerResponse, transactionResponse);
    }

    /** fetchData's end: stream both builders, ledgers first, and keep the
        close functions the SDK returns. */
    method FetchDataStreamsOpened(sources: Lifecycle.Sources, ledgerHandle: Lifecycle.Handle, transactionHandle: Lifecycle.Handle)
      modifies this
      ensures Snap() == Lifecycle.StreamsOpened(old(Snap()), sources, ledgerHandle, transactionHandle)
      ensures closeLedgerStream == Some(ledgerHandle) && closeTransactionStream == Some(transactionHandle)
      ensures State() == old(State())
    {
      closeLedgerStream := Some(ledgerHandle);
      trace := trace + [Lifecycle.StreamOpened(sources.ledger, Ledgers, ledgerHandle)];
      closeTransactionStream := Some(transactionHandle);
      trace := trace + [Lifecycle.StreamOpened(sources.transaction, Transactions, transactionHandle)];
    }

    /** Invoke the transaction close function, then the ledger one, each only
        when assigned; both stay assigned. */
    method CloseDataStreams()
      modifies this
      ensures Snap() == Lifecycle.CloseDataStreams(old(Snap()))
      ensures closeLedgerStream == old(closeLedgerStream) && closeTransactionStream == old(closeTransactionStream)
    {
      if closeTransactionStream.Some? {
        trace := trace + [Lifecycle.Closed(closeTransactionStream.value)];
      }
      if closeLedgerStream.Some? {
        trace := trace + [Lifecycle.Closed(closeLedgerStream.value)];
      }
    }

    method HandleLoadData(dataType: Entity, initialData: seq<Record>)
      modifies this
      ensures Snap() == Lifecycle.HandleLoadData(old(Snap()), dataType, initialData)
      ensures old(mounted) ==> Feed(State(), dataType) == initialData
      ensures Feed(State(), Other(dataType)) == Feed(old(State()), Other(dataType))
      ensures !old(mounted) ==> State() == old(State())
    {
      SetState(LoadData(State(), dataType, initialData));
    }

    method HandleStreamData(dataType: Entity, nextData: Record)
      modifies this
      ensures Snap() == Lifecycle.HandleStreamData(old(Snap()), dataType, nextData)
      ensures old(mounted) ==> Feed(State(), dataType)[0] == nextData
      ensures old(mounted) ==> |Feed(State(), dataType)| == 1 + Min(|Feed(old(State()), dataType)|, Retained)
      ensures Feed(State(), Other(dataType)) == Feed(old(State()), Other(dataType))
      ensures isLoading == old(isLoading)
      ensures !old(mounted) ==> State() == old(State())
    {
      SetState(StreamData(State(), dataType, nextData));
    }

    method HandleConnectionChange()
      modifies this
      ensures Snap() == Lifecycle.HandleConnectionChange(old(Snap()))
    {
      CloseDataStreams();
      FetchDataBegin();
    }
  }
}
