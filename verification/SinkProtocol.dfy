/**
 The batching PostgreSQL sink as the interleaving of its threads.

 Any number of writers, the background flusher and one Close call share two
 buffers under a mutex; whoever detaches the buffers writes them to the database
 in a transaction of its own, outside the mutex.  One `Action` is one step of
 one thread: taking the mutex, appending a row, testing the batch size, one
 INSERT, and so on.  Every database call may fail, and a writer may panic at any
 point of its call.

 `accepted`, `log` and `commits` are histories: no step reads them.
 */
module SinkProtocol {
  import opened Wrappers
  import opened Events

  datatype Thread = Writer(id: nat) | Flusher | Closer

  /** The buffers a thread has detached, under their number in `log`. */
  datatype Hand = Nothing | Hand(id: nat, batch: Batch)

  datatype Pc =
    | Idle                                    // between Write calls; at the flusher's select; Close not called
    | Joining                                 // Close has closed stopCh and waits for the flusher
    | AtLock(event: Option<Event>)            // about to take the mutex
    | Locked(event: Option<Event>)            // mutex held, buffers not yet touched
    | Appended                                // mutex held, row appended, size not yet tested
    | AtUnlock(hand: Hand)                    // mutex held, buffers left alone or detached
    | AtBegin(hand: Hand)                     // mutex released, about to begin the transaction
    | InTx(hand: Hand, tx: Batch)             // tx: the rows inserted so far
    | Returned(ok: bool, flushed: Hand)       // what this turn flushed, if anything, and whether that succeeded
    | Exited
    | Crashed(held: bool)                     // unwound by a panic; held: the mutex was never released
  {
    predicate HoldsMutex() {
      Locked? || Appended? || AtUnlock? || (Crashed? && held)
    }

    function InHand(): Hand {
      if AtUnlock? || AtBegin? || InTx? then hand else Nothing
    }
  }

  datatype Status = InFlight | Skipped | Committed | Dropped

  /** One detachment of the buffers: who took them, what they held, what became of them. */
  datatype Entry = Entry(owner: Thread, batch: Batch, status: Status)

  datatype State = State(
    batchSize: int,
    buffer: Batch,
    mutex: Option<Thread>,
    stopped: bool,
    poolClosed: bool,
    tables: Batch,
    pcs: map<Thread, Pc>,
    accepted: Batch,
    log: seq<Entry>,
    commits: seq<nat>)

  function Threads(writers: nat): set<Thread>
  {
    {Flusher, Closer} + set i | 0 <= i < writers :: Writer(i)
  }

  function Init(batchSize: int, tables: Batch, writers: nat): State
  {
    State(batchSize, NO_ROWS, None, false, false, tables,
          map t | t in Threads(writers) :: Idle, NO_ROWS, [], [])
  }

  datatype Action =
    | Invoke(t: Thread, event: Event)
    | Tick
    | Stop
    | BeginClose
    | Join
    | Lock(t: Thread)
    | Append(t: Thread)
    | Test(t: Thread)
    | Take(t: Thread)
    | Unlock(t: Thread)
    | Begin(t: Thread, ok: bool)
    | Exec(t: Thread, ok: bool)
    | Commit(t: Thread, ok: bool)
    | Finish(t: Thread)
    | Panic(t: Thread)

  /** The thread that takes the step. */
  function Actor(a: Action): Thread
  {
    match a
    case Tick => Flusher
    case Stop => Flusher
    case BeginClose => Closer
    case Join => Closer
    case _ => a.t
  }

  predicate AllInserted(batch: Batch, tx: Batch)
  {
    |tx.trades| >= |batch.trades| && |tx.logs| >= |batch.logs|
  }

  predicate Enabled(s: State, a: Action)
  {
    var t := Actor(a);
    && t in s.pcs
    && var pc := s.pcs[t];
       match a
       case Invoke(_, _) => t.Writer? && pc.Idle?
       case Tick => pc.Idle?
       case Stop => pc.Idle? && s.stopped
       case BeginClose => pc.Idle?
       case Join => pc.Joining? && Flusher in s.pcs && s.pcs[Flusher].Exited?
       case Lock(_) => pc.AtLock? && s.mutex == None
       case Append(_) => pc.Locked? && pc.event.Some?
       case Test(_) => pc.Appended?
       case Take(_) => pc.Locked? && pc.event.None?
       case Unlock(_) => pc.AtUnlock?
       case Begin(_, ok) => pc.AtBegin? && pc.hand.Hand? && (ok ==> !s.poolClosed)
       case Exec(_, _) => pc.InTx? && pc.hand.Hand? && !AllInserted(pc.hand.batch, pc.tx)
       case Commit(_, _) => pc.InTx? && pc.hand.Hand? && AllInserted(pc.hand.batch, pc.tx)
       case Finish(_) => pc.Returned?
       case Panic(_) => t.Writer? && !pc.Idle? && !pc.Crashed?
  }

  /** Thread t moves to pc; nothing else changes. */
  function Goto(s: State, t: Thread, pc: Pc): State
  {
    s.(pcs := s.pcs[t := pc])
  }

  /** Detach both buffers into thread t's hands. */
  function Detach(s: State, t: Thread): State
  {
    Goto(s, t, AtUnlock(Hand(|s.log|, s.buffer)))
      .(buffer := NO_ROWS, log := s.log + [Entry(t, s.buffer, InFlight)])
  }

  /** Record what became of a detached batch. */
  function Settle(s: State, hand: Hand, status: Status): State
  {
    if hand.Hand? && hand.id < |s.log|
    then s.(log := s.log[hand.id := s.log[hand.id].(status := status)])
    else s
  }

  /** A failed database call: the transaction rolls back and flush returns the error. */
  function Fail(s: State, t: Thread, hand: Hand): State
  {
    Goto(Settle(s, hand, Dropped), t, Returned(false, hand))
  }

  /** One more row: trades first, then logs. */
  function Inserted(batch: Batch, tx: Batch): Batch
    requires !AllInserted(batch, tx)
  {
    if |tx.trades| < |batch.trades|
    then tx.(trades := tx.trades + [batch.trades[|tx.trades|]])
    else tx.(logs := tx.logs + [batch.logs[|tx.logs|]])
  }

  function AfterUnlock(s: State, t: Thread, hand: Hand): State
  {
    if hand.Nothing? then Goto(s, t, Returned(true, Nothing))
    else if !t.Writer? && hand.batch.Size() == 0 then Goto(Settle(s, hand, Skipped), t, Returned(true, hand))
    else Goto(s, t, AtBegin(hand))
  }

  function Next(s: State, a: Action): State
    requires Enabled(s, a)
  {
    var t := Actor(a);
    var pc := s.pcs[t];
    match a
    case Invoke(_, e) => Goto(s, t, AtLock(Some(e)))
    case Tick => Goto(s, t, AtLock(None))
    case Stop => Goto(s, t, Exited)
    case BeginClose => Goto(s, t, Joining).(stopped := true)
    case Join => Goto(s, t, AtLock(None))
    case Lock(_) => Goto(s, t, Locked(pc.event)).(mutex := Some(t))
    case Append(_) =>
      var row := RowsOf(pc.event.value);
      Goto(s, t, Appended).(buffer := s.buffer.Plus(row), accepted := s.accepted.Plus(row))
    case Test(_) => if s.buffer.Size() >= s.batchSize then Detach(s, t) else Goto(s, t, AtUnlock(Nothing))
    case Take(_) => Detach(s, t)
    case Unlock(_) => AfterUnlock(s, t, pc.hand).(mutex := None)
    case Begin(_, ok) => if ok then Goto(s, t, InTx(pc.hand, NO_ROWS)) else Fail(s, t, pc.hand)
    case Exec(_, ok) => if ok then Goto(s, t, InTx(pc.hand, Inserted(pc.hand.batch, pc.tx))) else Fail(s, t, pc.hand)
    case Commit(_, ok) =>
      if ok
      then Goto(Settle(s, pc.hand, Committed), t, Returned(true, pc.hand))
           .(tables := s.tables.Plus(pc.tx), commits := s.commits + [pc.hand.id])
      else Fail(s, t, pc.hand)
    case Finish(_) =>
      if t.Closer? then Goto(s, t, Exited).(poolClosed := true) else Goto(s, t, Idle)
    case Panic(_) => Goto(Settle(s, pc.InHand(), Dropped), t, Crashed(pc.HoldsMutex()))
  }

  /** The state after a whole run, or None if some action was not enabled when its turn came. */
  function Run(s: State, acts: seq<Action>): Option<State>
  {
    if acts == [] then Some(s)
    else
      match Run(s, acts[..|acts| - 1])
      case None => None
      case Some(m) => if Enabled(m, acts[|acts| - 1]) then Some(Next(m, acts[|acts| - 1])) else None
  }

  // ---------------------------------------------------------------- histories

  /** Every row ever detached, batch by batch in the order of detachment. */
  function Detached(log: seq<Entry>): Batch
  {
    if log == [] then NO_ROWS else Detached(log[..|log| - 1]).Plus(log[|log| - 1].batch)
  }

  /** The rows of the batches that met the given fate. */
  function WithStatus(log: seq<Entry>, status: Status): Batch
  {
    if log == [] then NO_ROWS
    else
      var e := log[|log| - 1];
      WithStatus(log[..|log| - 1], status).Plus(if e.status == status then e.batch else NO_ROWS)
  }

  predicate ValidIds(ids: seq<nat>, bound: nat)
  {
    forall k | 0 <= k < |ids| :: ids[k] < bound
  }

  /** The batches named by ids, one after the other. */
  function Concatenated(log: seq<Entry>, ids: seq<nat>): Batch
    requires ValidIds(ids, |log|)
  {
    if ids == [] then NO_ROWS else Concatenated(log, ids[..|ids| - 1]).Plus(log[ids[|ids| - 1]].batch)
  }
}
