/** The event schema and the rows that the PostgreSQL sink derives from it. */
module Events {

  datatype Trade = Trade(symbol: string, price: real, volume: int, timestamp: int)

  datatype Log = Log(level: string, message: string, serviceName: string, timestamp: int)

  datatype Payload = TradePayload(trade: Trade) | LogPayload(log: Log) | NoPayload

  datatype Event = Event(eventId: string, payload: Payload)

  datatype TradeRow = TradeRow(eventId: string, symbol: string, price: real, volume: int, timestamp: int)

  datatype LogRow = LogRow(eventId: string, level: string, message: string, serviceName: string, timestamp: int)

  /** Rows of both kinds, each kind in order. */
  datatype Batch = Batch(trades: seq<TradeRow>, logs: seq<LogRow>) {
    function Size(): nat { |trades| + |logs| }

    function Plus(b: Batch): Batch { Batch(trades + b.trades, logs + b.logs) }

    ghost function ToBag(): Bag { Bag(multiset(trades), multiset(logs)) }
  }

  const NO_ROWS := Batch([], [])

  /** The same rows with their order forgotten. */
  datatype Bag = Bag(trades: multiset<TradeRow>, logs: multiset<LogRow>) {
    ghost function Plus(b: Bag): Bag { Bag(trades + b.trades, logs + b.logs) }
  }

  const EMPTY_BAG := Bag(multiset{}, multiset{})

  /** The row an event contributes: one trade, one log, or nothing. */
  function RowsOf(e: Event): Batch
  {
    match e.payload
    case TradePayload(t) => Batch([TradeRow(e.eventId, t.symbol, t.price, t.volume, t.timestamp)], [])
    case LogPayload(l) => Batch([], [LogRow(e.eventId, l.level, l.message, l.serviceName, l.timestamp)])
    case NoPayload => NO_ROWS
  }

  /** The event whose trade (log) row this is. */
  function EventOfTrade(r: TradeRow): Event
  {
    Event(r.eventId, TradePayload(Trade(r.symbol, r.price, r.volume, r.timestamp)))
  }

  function EventOfLog(r: LogRow): Event
  {
    Event(r.eventId, LogPayload(Log(r.level, r.message, r.serviceName, r.timestamp)))
  }

  /** Read back column by column, the row of an event is the event: every column holds the field of its name. */
  lemma RowsReadBack(e: Event)
    ensures match e.payload
            case TradePayload(_) =>
              |RowsOf(e).trades| == 1 && RowsOf(e).logs == [] && EventOfTrade(RowsOf(e).trades[0]) == e
            case LogPayload(_) =>
              RowsOf(e).trades == [] && |RowsOf(e).logs| == 1 && EventOfLog(RowsOf(e).logs[0]) == e
            case NoPayload => RowsOf(e).trades == [] && RowsOf(e).logs == []
  {
  }

  /** The last row of a table is this trade's (log's), column by column. */
  predicate LastTradeIs(rows: seq<TradeRow>, id: string, t: Trade)
  {
    && |rows| > 0
    && var r := rows[|rows| - 1];
       && r.eventId == id && r.symbol == t.symbol && r.price == t.price && r.volume == t.volume
       && r.timestamp == t.timestamp
  }

  predicate LastLogIs(rows: seq<LogRow>, id: string, l: Log)
  {
    && |rows| > 0
    && var r := rows[|rows| - 1];
       && r.eventId == id && r.level == l.level && r.message == l.message && r.serviceName == l.serviceName
       && r.timestamp == l.timestamp
  }

  /** No column is lost: an event that has a payload is determined by its rows. */
  lemma RowsDetermineEvent(e: Event, f: Event)
    requires !e.payload.NoPayload?
    ensures RowsOf(e) == RowsOf(f) ==> e == f
  {
    RowsReadBack(e);
    RowsReadBack(f);
  }
}
