/**
 The sink as the object the program builds: two buffers, a batch size and a
 connection pool.  Each method is one call of one goroutine; the contracts tie
 it to functions of the buffers and tables, and `SoloWrite` and `SoloDrain` show
 that those functions are what the threads of `SinkProtocol` compute when they
 run alone.

 `fault` is the database's answer to one flush: the number of the call (begin is
 0, then the INSERTs in order, then commit) that fails, or None if none does.
 */
module PostgresSink {
  import opened Wrappers
  import opened Events
  import opened SinkProtocol
  import opened SinkSafety

  // -------------------------------------------------------- specification

  /** A flush of n rows succeeds exactly when no call up to the commit fails. */
  predicate FlushOk(n: nat, open: bool, fault: Option<nat>)
  {
    open && (fault.None? || fault.value > n + 1)
  }

  function FlushTables(tables: Batch, batch: Batch, open: bool, fault: Option<nat>): Batch
  {
    if FlushOk(batch.Size(), open, fault) then tables.Plus(batch) else tables
  }

  /** The rows buffered after a Write, and the rows it hands to flush, if any. */
  function WriteSplit(buffer: Batch, batchSize: int, e: Event): (Batch, Option<Batch>)
  {
    var full := buffer.Plus(RowsOf(e));
    if full.Size() >= batchSize then (NO_ROWS, Some(full)) else (full, None)
  }

  /** One round of the flusher's select: rows have arrived, and the ticker fired or stopCh was closed. */
  datatype Turn = Tick(arrived: Batch, fault: Option<nat>) | Stop(arrived: Batch)

  /** The buffer and the tables after the given turns. */
  function Ticked(buffer: Batch, tables: Batch, open: bool, turns: seq<Turn>): (Batch, Batch)
    decreases |turns|
  {
    if turns == [] then (buffer, tables)
    else
      match turns[0]
      case Tick(rows, fault) =>
        Ticked(NO_ROWS, FlushTables(tables, buffer.Plus(rows), open, fault), open, turns[1..])
      case Stop(rows) => (buffer.Plus(rows), tables)
  }

  /** All rows that arrive up to the first Stop, in order. */
  function Arrived(turns: seq<Turn>): Batch
  {
    if turns == [] then NO_ROWS
    else if turns[0].Stop? then turns[0].arrived
    else turns[0].arrived.Plus(Arrived(turns[1..]))
  }

  /** If no flush fails, the tables and then the buffer hold every row that arrived, in order. */
  lemma {:induction false} TickedKeepsRows(buffer: Batch, tables: Batch, turns: seq<Turn>)
    requires forall turn <- turns :: turn.Tick? ==> turn.fault.None?
    ensures var (buffer', tables') := Ticked(buffer, tables, true, turns);
            tables'.Plus(buffer') == tables.Plus(buffer).Plus(Arrived(turns))
    decreases |turns|
  {
    if turns == [] {
      assert tables.Plus(buffer).Plus(NO_ROWS) == tables.Plus(buffer);
    } else {
      var rows := turns[0].arrived;
      PlusAssociative(tables, buffer, rows);
      if turns[0].Tick? {
        var tables1 := tables.Plus(buffer.Plus(rows));
        TickedKeepsRows(NO_ROWS, tables1, turns[1..]);
        assert tables1.Plus(NO_ROWS) == tables1;
        PlusAssociative(tables.Plus(buffer), rows, Arrived(turns[1..]));
      }
    }
  }

  /** Every round up to the first Stop brings its rows behind those of the rounds before it. */
  lemma {:induction false} ArrivedInOrder(turns: seq<Turn>, i: nat)
    requires i < |turns| && forall j | 0 <= j < i :: turns[j].Tick?
    ensures exists later: Batch :: Arrived(turns) == Arrived(turns[..i]).Plus(turns[i].arrived).Plus(later)
    decreases i
  {
    var first := turns[0].arrived;
    if i == 0 {
      var later := if turns[0].Stop? then NO_ROWS else Arrived(turns[1..]);
      assert Arrived(turns) == Arrived(turns[..0]).Plus(first).Plus(later);
    } else {
      ArrivedInOrder(turns[1..], i - 1);
      assert turns[1..][..i - 1] == turns[..i][1..] && turns[..i][0] == turns[0];
      var front := Arrived(turns[1..][..i - 1]);
      var later: Batch :| Arrived(turns[1..]) == front.Plus(turns[i].arrived).Plus(later);
      PlusAssociative(first, front.Plus(turns[i].arrived), later);
      PlusAssociative(first, front, turns[i].arrived);
      assert Arrived(turns) == Arrived(turns[..i]).Plus(turns[i].arrived).Plus(later);
    }
  }

  /** A row waits for at most one tick: after a tick the buffer holds only what arrived later. */
  lemma {:induction false} TickedEmpties(buffer: Batch, tables: Batch, open: bool, turns: seq<Turn>, last: Turn)
    requires forall turn <- turns :: turn.Tick?
    ensures Ticked(buffer, tables, open, turns + [last]).0 ==
            if last.Tick? then NO_ROWS else (if turns == [] then buffer else NO_ROWS).Plus(last.arrived)
    decreases |turns|
  {
    if turns == [] {
      assert ([] + [last])[0] == last && ([] + [last])[1..] == [];
    } else {
      var all := turns + [last];
      assert all[0] == turns[0] && all[1..] == turns[1..] + [last];
      TickedEmpties(NO_ROWS, FlushTables(tables, buffer.Plus(turns[0].arrived), open, turns[0].fault), open, turns[1..],
                    last);
    }
  }

  // ------------------------------------------------------------- the objects

  class Database {
    var trades: seq<TradeRow>
    var logs: seq<LogRow>
    var open: bool

    constructor (tables: Batch)
      ensures Tables() == tables && open
    {
      trades, logs, open := tables.trades, tables.logs, true;
    }

    function Tables(): Batch
      reads this
    {
      Batch(trades, logs)
    }
  }

  /** A transaction: its rows reach the tables only by a commit that succeeds. */
  class Tx {
    const db: Database
    var trades: seq<TradeRow>
    var logs: seq<LogRow>

    constructor (db: Database)
      ensures this.db == db && trades == [] && logs == []
    {
      this.db := db;
      trades, logs := [], [];
    }

    method InsertTrade(row: TradeRow, fails: bool) returns (ok: bool)
      modifies this
      ensures ok == !fails
      ensures logs == old(logs) && trades == if ok then old(trades) + [row] else old(trades)
    {
      if !fails {
        trades := trades + [row];
      }
      ok := !fails;
    }

    method InsertLog(row: LogRow, fails: bool) returns (ok: bool)
      modifies this
      ensures ok == !fails
      ensures trades == old(trades) && logs == if ok then old(logs) + [row] else old(logs)
    {
      if !fails {
        logs := logs + [row];
      }
      ok := !fails;
    }

    method Commit(fails: bool) returns (ok: bool)
      modifies db
      ensures ok == !fails && db.open == old(db.open)
      ensures db.Tables() == if ok then old(db.Tables()).Plus(Batch(trades, logs)) else old(db.Tables())
    {
      if !fails {
        db.trades, db.logs := db.trades + trades, db.logs + logs;
      }
      ok := !fails;
    }
  }

  class PostgresSink {
    const db: Database
    const batchSize: int
    var trades: seq<TradeRow>
    var logs: seq<LogRow>
    var stopped: bool

    constructor (db: Database)
      ensures this.db == db && batchSize == 100 && Buffer() == NO_ROWS && !stopped
    {
      this.db := db;
      batchSize := 100;
      trades, logs, stopped := [], [], false;
    }

    function Buffer(): Batch
      reads this
    {
      Batch(trades, logs)
    }

    /** All or nothing: the tables gain exactly the batch, in order, or stay as they were. */
    method Flush(trades: seq<TradeRow>, logs: seq<LogRow>, fault: Option<nat>) returns (ok: bool)
      modifies db
      ensures ok == FlushOk(|trades| + |logs|, old(db.open), fault)
      ensures db.Tables() == if ok then old(db.Tables()).Plus(Batch(trades, logs)) else old(db.Tables())
      ensures db.open == old(db.open)
    {
      if !db.open || fault == Some(0) {
        return false;
      }
      var tx := new Tx(db);
      for i := 0 to |trades|
        invariant tx.trades == trades[..i] && tx.logs == [] && tx.db == db && unchanged(db)
        invariant fault.Some? ==> fault.value > i
      {
        var inserted := tx.InsertTrade(trades[i], fault == Some(i + 1));
        if !inserted {
          return false;
        }
      }
      for j := 0 to |logs|
        invariant tx.trades == trades && tx.logs == logs[..j] && tx.db == db && unchanged(db)
        invariant fault.Some? ==> fault.value > |trades| + j
      {
        var inserted := tx.InsertLog(logs[j], fault == Some(|trades| + j + 1));
        if !inserted {
          return false;
        }
      }
      ok := tx.Commit(fault == Some(|trades| + |logs| + 1));
    }

    /** Buffer the event's row; whoever fills the batch detaches and flushes it. */
    method Write(event: Event, fault: Option<nat>) returns (ok: bool)
      modifies this, db
      ensures stopped == old(stopped) && db.open == old(db.open)
      ensures Buffer() == WriteSplit(old(Buffer()), batchSize, event).0
      ensures match WriteSplit(old(Buffer()), batchSize, event).1
              case None => ok && db.Tables() == old(db.Tables())
              case Some(batch) =>
                && ok == FlushOk(batch.Size(), old(db.open), fault)
                && db.Tables() == FlushTables(old(db.Tables()), batch, old(db.open), fault)
      ensures match event.payload
              case TradePayload(t) =>
                && (Buffer() != NO_ROWS ==> LastTradeIs(trades, event.eventId, t))
                && (Buffer() == NO_ROWS && ok ==> LastTradeIs(db.trades, event.eventId, t))
              case LogPayload(l) =>
                && (Buffer() != NO_ROWS ==> LastLogIs(logs, event.eventId, l))
                && (Buffer() == NO_ROWS && ok ==> LastLogIs(db.logs, event.eventId, l))
              case NoPayload => Buffer() == old(Buffer()) || Buffer() == NO_ROWS
    {
      match event.payload {
        case TradePayload(t) =>
          trades := trades + [TradeRow(event.eventId, t.symbol, t.price, t.volume, t.timestamp)];
        case LogPayload(l) =>
          logs := logs + [LogRow(event.eventId, l.level, l.message, l.serviceName, l.timestamp)];
        case NoPayload =>
      }
      assert Buffer() == old(Buffer()).Plus(RowsOf(event));
      var shouldFlush := |trades| + |logs| >= batchSize;
      var tradeBatch, logBatch := [], [];
      if shouldFlush {
        tradeBatch, logBatch := trades, logs;
        trades, logs := [], [];
        ok := Flush(tradeBatch, logBatch, fault);
      } else {
        ok := true;
      }
    }

    /** Detach whatever is buffered and flush it if there is anything. */
    method Drain(fault: Option<nat>)
      modifies this, db
      ensures stopped == old(stopped) && db.open == old(db.open)
      ensures Buffer() == NO_ROWS
      ensures db.Tables() == FlushTables(old(db.Tables()), old(Buffer()), old(db.open), fault)
    {
      var tradeBatch, logBatch := trades, logs;
      trades, logs := [], [];
      if |tradeBatch| > 0 || |logBatch| > 0 {
        var _ := Flush(tradeBatch, logBatch, fault);
      }
    }

    /** What writers do to the buffers between two turns of the flusher. */
    method Arrive(rows: Batch)
      modifies this
      ensures stopped == old(stopped) && Buffer() == old(Buffer()).Plus(rows)
    {
      trades, logs := trades + rows.trades, logs + rows.logs;
    }

    /** The flusher's loop: every tick flushes what has arrived since the last, until stopCh is closed. */
    method BackgroundFlusher(turns: seq<Turn>)
      modifies this, db
      ensures db.open == old(db.open)
      ensures stopped == (old(stopped) || exists turn <- turns :: turn.Stop?)
      ensures if old(stopped) then Buffer() == old(Buffer()) && db.Tables() == old(db.Tables())
              else (Buffer(), db.Tables()) == Ticked(old(Buffer()), old(db.Tables()), old(db.open), turns)
    {
      if stopped {
        return;
      }
      var k := 0;
      while k < |turns|
        invariant 0 <= k <= |turns| && !stopped && db.open == old(db.open)
        invariant forall turn <- turns[..k] :: turn.Tick?
        invariant Ticked(old(Buffer()), old(db.Tables()), old(db.open), turns) ==
                  Ticked(Buffer(), db.Tables(), old(db.open), turns[k..])
      {
        var turn := turns[k];
        assert turns[k..][0] == turn && turns[k..][1..] == turns[k + 1..];
        Arrive(turn.arrived);
        if turn.Stop? {
          stopped := true;
          return;
        }
        Drain(turn.fault);
        k := k + 1;
      }
      assert turns[..k] == turns;
    }

    /** Stop the flusher, flush what is left, close the pool. */
    method Close(fault: Option<nat>)
      requires !stopped
      modifies this, db
      ensures stopped && !db.open && Buffer() == NO_ROWS
      ensures db.Tables() == FlushTables(old(db.Tables()), old(Buffer()), old(db.open), fault)
    {
      stopped := true;
      Drain(fault);
      db.open := false;
    }
  }

  // ------------------------------------- one thread of the protocol on its own

  /** A step inside a turn: not the call that begins it, nor what follows its end. */
  predicate Inner(a: Action)
  {
    a.Lock? || a.Append? || a.Test? || a.Take? || a.Unlock? || a.Begin? || a.Exec? || a.Commit?
  }

  /** Thread t, taking every step inside its turn, leads from s to s'. */
  ghost predicate Alone(s: State, s': State, t: Thread)
  {
    exists acts: seq<Action> :: (forall a <- acts :: Actor(a) == t && Inner(a)) && Run(s, acts) == Some(s')
  }

  lemma AloneRefl(s: State, t: Thread)
    ensures Alone(s, s, t)
  {
    assert Run(s, []) == Some(s);
  }

  lemma {:induction false} RunAppend(s: State, a: seq<Action>, b: seq<Action>)
    requires Run(s, a).Some?
    ensures Run(s, a + b) == Run(Run(s, a).value, b)
  {
    if b == [] {
      assert a + b == a;
    } else {
      assert (a + b)[..|a + b| - 1] == a + b[..|b| - 1];
      RunAppend(s, a, b[..|b| - 1]);
    }
  }

  lemma AloneThen(s: State, a: Action, s': State)
    requires Inner(a) && Enabled(s, a) && Alone(Next(s, a), s', Actor(a))
    ensures Alone(s, s', Actor(a))
  {
    var acts :| (forall b <- acts :: Actor(b) == Actor(a) && Inner(b)) && Run(Next(s, a), acts) == Some(s');
    assert [a][..0] == [] && Run(s, []) == Some(s);
    assert Run(s, [a]) == Some(Next(s, a));
    RunAppend(s, [a], acts);
    assert forall b <- [a] + acts :: Actor(b) == Actor(a) && Inner(b);
  }

  /** What a flush by thread t leaves behind: its return value, the tables, and all else as it was. */
  ghost predicate FlushedTo(s: State, s': State, t: Thread, ok: bool, tables: Batch)
  {
    && t in s'.pcs && s'.pcs[t].Returned? && s'.pcs[t].ok == ok && s'.pcs == s.pcs[t := s'.pcs[t]]
    && s'.tables == tables
    && s'.buffer == s.buffer && s'.mutex == s.mutex && s'.accepted == s.accepted
    && s'.poolClosed == s.poolClosed && s'.stopped == s.stopped && s'.batchSize == s.batchSize
  }

  /** Thread t alone can finish its flush with this return value and these tables. */
  ghost predicate FlushesAlone(s: State, t: Thread, ok: bool, tables: Batch)
  {
    exists s' :: Alone(s, s', t) && FlushedTo(s, s', t, ok, tables)
  }

  /** A call that fails ends the flush with nothing written. */
  lemma SoloFails(s: State, a: Action)
    requires (a.Begin? || a.Exec? || a.Commit?) && Enabled(s, a) && !a.ok
    ensures FlushesAlone(s, a.t, false, s.tables)
  {
    AloneRefl(Next(s, a), a.t);
    AloneThen(s, a, Next(s, a));
    assert FlushedTo(s, Next(s, a), a.t, false, s.tables);
  }

  /** The commit ends the flush with the whole batch written. */
  lemma SoloCommits(s: State, a: Action)
    requires a.Commit? && Enabled(s, a) && a.ok && PartOf(s.pcs[a.t].tx, s.pcs[a.t].hand.batch)
    ensures FlushesAlone(s, a.t, true, s.tables.Plus(s.pcs[a.t].hand.batch))
  {
    AloneRefl(Next(s, a), a.t);
    AloneThen(s, a, Next(s, a));
    assert s.pcs[a.t].tx == s.pcs[a.t].hand.batch;
    assert FlushedTo(s, Next(s, a), a.t, true, s.tables.Plus(s.pcs[a.t].hand.batch));
  }

  /** Beginning, or one insert, only moves the transaction on. */
  lemma SoloGoesOn(s: State, a: Action, ok: bool, tables: Batch)
    requires (a.Begin? || a.Exec?) && Enabled(s, a) && a.ok
    requires FlushesAlone(Next(s, a), a.t, ok, tables)
    ensures FlushesAlone(s, a.t, ok, tables)
  {
    var s' :| Alone(Next(s, a), s', a.t) && FlushedTo(Next(s, a), s', a.t, ok, tables);
    AloneThen(s, a, s');
    assert FlushedTo(s, s', a.t, ok, tables);
  }

  /** An insert only moves its row into the transaction. */
  lemma SoloExecs(s: State, a: Action)
    requires a.Exec? && Enabled(s, a) && a.ok
    ensures var InTx(hand, tx) := s.pcs[a.t];
            Next(s, a) == s.(pcs := s.pcs[a.t := InTx(hand, Inserted(hand.batch, tx))])
  {
  }

  lemma TxSize(batch: Batch, tx: Batch)
    requires PartOf(tx, batch)
    ensures tx.Size() <= batch.Size() && (AllInserted(batch, tx) <==> tx.Size() == batch.Size())
  {
  }

  /** A transaction left alone ends all or nothing, as the failing call decides. */
  lemma {:induction false} SoloInserts(s: State, t: Thread, fault: Option<nat>)
    requires t in s.pcs && s.pcs[t].InTx? && s.pcs[t].hand.Hand? && PartOf(s.pcs[t].tx, s.pcs[t].hand.batch)
    requires fault.Some? ==> fault.value > s.pcs[t].tx.Size()
    ensures var batch := s.pcs[t].hand.batch;
            FlushesAlone(s, t, FlushOk(batch.Size(), true, fault), FlushTables(s.tables, batch, true, fault))
    decreases s.pcs[t].hand.batch.Size() - s.pcs[t].tx.Size()
  {
    var InTx(hand, tx) := s.pcs[t];
    var ok := fault != Some(tx.Size() + 1);
    var a := if AllInserted(hand.batch, tx) then Commit(t, ok) else Exec(t, ok);
    TxSize(hand.batch, tx);
    if !ok {
      SoloFails(s, a);
    } else if a.Commit? {
      SoloCommits(s, a);
    } else {
      InsertedFits(hand.batch, tx);
      SoloExecs(s, a);
      SoloInserts(Next(s, a), t, fault);
      SoloGoesOn(s, a, FlushOk(hand.batch.Size(), true, fault), FlushTables(s.tables, hand.batch, true, fault));
    }
  }

  lemma SoloFlush(s: State, t: Thread, fault: Option<nat>)
    requires t in s.pcs && s.pcs[t].AtBegin? && s.pcs[t].hand.Hand?
    ensures var batch, open := s.pcs[t].hand.batch, !s.poolClosed;
            FlushesAlone(s, t, FlushOk(batch.Size(), open, fault), FlushTables(s.tables, batch, open, fault))
  {
    var batch := s.pcs[t].hand.batch;
    var a := Begin(t, !s.poolClosed && fault != Some(0));
    if a.ok {
      SoloInserts(Next(s, a), t, fault);
      SoloGoesOn(s, a, FlushOk(batch.Size(), true, fault), FlushTables(s.tables, batch, true, fault));
    } else {
      SoloFails(s, a);
    }
  }

  function Released(s: State): State
  {
    s.(mutex := None)
  }

  /** What thread t flushes once it releases the mutex, if anything. */
  function ToFlush(s: State, t: Thread): Option<Batch>
    requires t in s.pcs && s.pcs[t].AtUnlock?
  {
    if s.pcs[t].hand.Hand? && (t.Writer? || s.pcs[t].hand.batch.Size() > 0) then Some(s.pcs[t].hand.batch) else None
  }

  predicate OkAfter(batch: Option<Batch>, open: bool, fault: Option<nat>)
  {
    batch.Some? ==> FlushOk(batch.value.Size(), open, fault)
  }

  function TablesAfter(tables: Batch, batch: Option<Batch>, open: bool, fault: Option<nat>): Batch
  {
    if batch.Some? then FlushTables(tables, batch.value, open, fault) else tables
  }

  /** The end of a turn in the critical section: release the mutex, then flush what was detached. */
  lemma SoloRelease(s: State, t: Thread, fault: Option<nat>)
    requires t in s.pcs && s.pcs[t].AtUnlock?
    ensures exists s' :: Alone(s, s', t) &&
              FlushedTo(Released(s), s', t, OkAfter(ToFlush(s, t), !s.poolClosed, fault),
                        TablesAfter(s.tables, ToFlush(s, t), !s.poolClosed, fault))
  {
    var a := Unlock(t);
    var m := Next(s, a);
    var ok := OkAfter(ToFlush(s, t), !s.poolClosed, fault);
    var tables := TablesAfter(s.tables, ToFlush(s, t), !s.poolClosed, fault);
    if m.pcs[t].Returned? {
      AloneRefl(m, t);
      AloneThen(s, a, m);
      assert FlushedTo(Released(s), m, t, ok, tables);
    } else {
      SoloFlush(m, t, fault);
      var s' :| Alone(m, s', t) && FlushedTo(m, s', t, ok, tables);
      AloneThen(s, a, s');
      assert FlushedTo(Released(s), s', t, ok, tables);
    }
  }

  /** The result of one Write call made with nobody else running. */
  ghost predicate Filled(s: State, s': State, t: Thread, e: Event, fault: Option<nat>)
  {
    var (buffer, batch) := WriteSplit(s.buffer, s.batchSize, e);
    && t in s'.pcs && s'.pcs[t].Returned? && s'.pcs[t].ok == OkAfter(batch, !s.poolClosed, fault)
    && s'.pcs == s.pcs[t := s'.pcs[t]]
    && s'.buffer == buffer && s'.accepted == s.accepted.Plus(RowsOf(e))
    && s'.tables == TablesAfter(s.tables, batch, !s.poolClosed, fault)
    && s'.mutex == None && s'.stopped == s.stopped && s'.poolClosed == s.poolClosed && s'.batchSize == s.batchSize
  }

  lemma SoloFill(s: State, t: Thread, fault: Option<nat>)
    requires t in s.pcs && t.Writer? && s.pcs[t].Locked? && s.pcs[t].event.Some?
    ensures exists s' :: Alone(s, s', t) && Filled(s, s', t, s.pcs[t].event.value, fault)
  {
    var e := s.pcs[t].event.value;
    var s1 := Next(s, Append(t));
    var s2 := Next(s1, Test(t));
    SoloRelease(s2, t, fault);
    var s' :| Alone(s2, s', t) && FlushedTo(Released(s2), s', t, OkAfter(ToFlush(s2, t), !s2.poolClosed, fault),
                                            TablesAfter(s2.tables, ToFlush(s2, t), !s2.poolClosed, fault));
    assert ToFlush(s2, t) == WriteSplit(s.buffer, s.batchSize, e).1;
    AloneThen(s1, Test(t), s');
    AloneThen(s, Append(t), s');
    assert Filled(s, s', t, e, fault);
  }

  /** A writer that runs alone from the call to the return does what the method Write promises. */
  lemma SoloWrite(s: State, t: Thread, e: Event, fault: Option<nat>)
    requires t in s.pcs && t.Writer? && s.pcs[t].Idle? && s.mutex == None
    ensures exists s' :: Alone(Next(s, Invoke(t, e)), s', t) && Filled(s, s', t, e, fault)
  {
    var s1 := Next(s, Invoke(t, e));
    var s2 := Next(s1, Lock(t));
    SoloFill(s2, t, fault);
    var s' :| Alone(s2, s', t) && Filled(s2, s', t, e, fault);
    AloneThen(s1, Lock(t), s');
    assert Filled(s, s', t, e, fault);
  }

  /** The result of one turn of the flusher, or of Close, with nobody else running. */
  ghost predicate Drained(s: State, s': State, t: Thread, fault: Option<nat>)
  {
    && t in s'.pcs && s'.pcs[t].Returned? && s'.pcs == s.pcs[t := s'.pcs[t]]
    && s'.buffer == NO_ROWS && s'.accepted == s.accepted
    && s'.tables == FlushTables(s.tables, s.buffer, !s.poolClosed, fault)
    && s'.mutex == None && s'.stopped == s.stopped && s'.poolClosed == s.poolClosed
  }

  /** The flusher or Close, running alone from the lock on, does what the method Drain promises. */
  lemma SoloDrain(s: State, t: Thread, fault: Option<nat>)
    requires t in s.pcs && !t.Writer? && s.pcs[t] == AtLock(None) && s.mutex == None
    ensures exists s' :: Alone(s, s', t) && Drained(s, s', t, fault)
  {
    var s1 := Next(s, Lock(t));
    var s2 := Next(s1, Take(t));
    SoloRelease(s2, t, fault);
    var s' :| Alone(s2, s', t) && FlushedTo(Released(s2), s', t, OkAfter(ToFlush(s2, t), !s2.poolClosed, fault),
                                            TablesAfter(s2.tables, ToFlush(s2, t), !s2.poolClosed, fault));
    AloneThen(s1, Take(t), s');
    AloneThen(s, Lock(t), s');
    assert s.buffer.Size() == 0 ==> s.tables.Plus(s.buffer) == s.tables;
    assert Drained(s, s', t, fault);
  }

  /** Whenever it is idle and the mutex free, the flusher can start a turn that empties the buffers, stopped or not. */
  lemma SoloTick(s: State, fault: Option<nat>)
    requires Flusher in s.pcs && s.pcs[Flusher].Idle? && s.mutex == None
    ensures Enabled(s, Action.Tick)
    ensures exists s' :: Alone(Next(s, Action.Tick), s', Flusher) && Drained(s, s', Flusher, fault)
  {
    var m := Next(s, Action.Tick);
    SoloDrain(m, Flusher, fault);
    var s' :| Alone(m, s', Flusher) && Drained(m, s', Flusher, fault);
    assert Drained(s, s', Flusher, fault);
  }
}
