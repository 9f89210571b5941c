/**
 * The part of the service layer (src/services/kinesis.ts) that the dashboard's
 * live streams depend on: the record shape it reads, the call builders that
 * getLedgerStream and getTransactionStream prepare, and their `'now'` cursor
 * default. The bulk fetches and the network itself are left to the caller.
 */
module Kinesis {
  import opened Wrappers

  /** A selected network connection. The dashboard only ever compares two
      connections by reference, which a class gives directly. */
  class Connection { }

  /** A ledger or transaction record as the SDK hands it over: an opaque
      payload and its `paging_token`, which may be undefined. */
  datatype Record = Record(payload: string, pagingToken: Option<string>)

  datatype Collection = LedgerCollection | TransactionCollection

  /** A call builder ready to be streamed: which collection, against which
      connection's server, from which cursor, with which page limit. */
  datatype StreamSource = StreamSource(collection: Collection, connection: Connection, cursor: string, limit: nat)

  /** The default of the `cursor` parameter of both stream wrappers. */
  const DefaultCursor: string := "now"

  /** Both stream wrappers ask for pages of one record. */
  const StreamLimit: nat := 1

  /** A JavaScript default parameter: it replaces an undefined argument and
      nothing else (an empty string is passed through). */
  function CursorOrDefault(cursor: Option<string>): (c: string)
    ensures cursor.None? ==> c == DefaultCursor
    ensures cursor.Some? ==> c == cursor.value
  {
    match cursor
    case None => DefaultCursor
    case Some(c) => c
  }

  /** getLedgerStream(connection, cursor = 'now'): the ledgers of the
      connection's server, from the cursor, one record per page. */
  function GetLedgerStream(connection: Connection, cursor: Option<string>): (b: StreamSource)
    ensures b.collection == LedgerCollection && b.connection == connection && b.limit == 1
    ensures b.cursor == if cursor.Some? then cursor.value else "now"
  {
    StreamSource(LedgerCollection, connection, CursorOrDefault(cursor), StreamLimit)
  }

  /** getTransactionStream(connection, cursor = 'now'): the transactions of
      the connection's server, from the cursor, one record per page. */
  function GetTransactionStream(connection: Connection, cursor: Option<string>): (b: StreamSource)
    ensures b.collection == TransactionCollection && b.connection == connection && b.limit == 1
    ensures b.cursor == if cursor.Some? then cursor.value else "now"
  {
    StreamSource(TransactionCollection, connection, CursorOrDefault(cursor), StreamLimit)
  }
}
