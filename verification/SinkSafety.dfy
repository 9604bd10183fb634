/** What every step of the sink's threads keeps, and what therefore holds in every run. */
module SinkSafety {
  import opened Wrappers
  import opened Events
  import opened SinkProtocol

  // --------------------------------------------------------------- invariants

  /** The program counters a thread can reach. */
  predicate PcFits(t: Thread, pc: Pc)
  {
    match pc
    case Idle => true
    case Joining => t.Closer?
    case AtLock(e) => e.Some? <==> t.Writer?
    case Locked(e) => e.Some? <==> t.Writer?
    case Appended => t.Writer?
    case AtUnlock(h) => h.Hand? || t.Writer?
    case AtBegin(h) => h.Hand?
    case InTx(h, tx) => h.Hand? && PartOf(tx, h.batch)
    case Returned(ok, h) => h.Nothing? ==> ok
    case Exited => !t.Writer?
    case Crashed(_) => t.Writer?
  }

  ghost predicate ShapeInv(s: State)
  {
    && {Flusher, Closer} <= s.pcs.Keys
    && (forall t <- s.pcs :: PcFits(t, s.pcs[t]))
  }

  /** Close waits for the flusher, and the pool stays open until Close is done. */
  ghost predicate CloseInv(s: State)
    requires {Flusher, Closer} <= s.pcs.Keys
  {
    && (s.stopped <==> !s.pcs[Closer].Idle?)
    && (s.pcs[Flusher].Exited? ==> s.stopped)
    && (s.pcs[Closer].Idle? || s.pcs[Closer].Joining? || s.pcs[Flusher].Exited?)
    && (s.poolClosed <==> s.pcs[Closer].Exited?)
  }

  /** At most one thread is inside the critical section: the one the mutex names. */
  ghost predicate MutexInv(s: State)
  {
    && (forall t <- s.pcs :: s.pcs[t].HoldsMutex() <==> s.mutex == Some(t))
    && (s.mutex.Some? ==> s.mutex.value in s.pcs)
  }

  /** What an open transaction contains: an initial part of its batch, trades before logs. */
  predicate PartOf(tx: Batch, batch: Batch)
  {
    && tx.trades <= batch.trades
    && tx.logs <= batch.logs
    && (tx.logs != [] ==> tx.trades == batch.trades)
  }

  /** Batches in flight and batches in hand are the same batches, each in one thread's hands. */
  ghost predicate HandInv(s: State)
  {
    && (forall t <- s.pcs | s.pcs[t].InHand().Hand? ::
          var h := s.pcs[t].InHand();
          h.id < |s.log| && s.log[h.id] == Entry(t, h.batch, InFlight))
    && (forall i | 0 <= i < |s.log| && s.log[i].status == InFlight ::
          s.log[i].owner in s.pcs && s.pcs[s.log[i].owner].InHand() == Hand(i, s.log[i].batch))
  }

  /** Nothing accepted is lost or reordered on its way into the batches. */
  ghost predicate FlowInv(s: State)
  {
    s.accepted == Detached(s.log).Plus(s.buffer)
  }

  /** Both buffers together stay below the batch size, and batches have the size their owner implies. */
  ghost predicate SizeInv(s: State)
  {
    s.batchSize > 0 ==>
      && s.buffer.Size() <= s.batchSize
      && (s.buffer.Size() == s.batchSize ==>
            && s.mutex.Some? && s.mutex.value in s.pcs
            && (s.pcs[s.mutex.value].Appended? || s.pcs[s.mutex.value].Crashed?))
      && (forall t <- s.pcs | s.pcs[t].Locked? :: s.buffer.Size() < s.batchSize)
      && (forall e <- s.log :: if e.owner.Writer? then e.batch.Size() == s.batchSize else e.batch.Size() < s.batchSize)
  }

  predicate NoDuplicates(ids: seq<nat>)
  {
    forall i, j | 0 <= i < j < |ids| :: ids[i] != ids[j]
  }

  /** Each committed batch committed once, and only empty batches were never written. */
  ghost predicate CommitInv(s: State)
  {
    && ValidIds(s.commits, |s.log|)
    && (forall i | 0 <= i < |s.log| :: s.log[i].status == Committed <==> i in s.commits)
    && NoDuplicates(s.commits)
    && (forall i | 0 <= i < |s.log| && s.log[i].status == Skipped :: s.log[i].batch == NO_ROWS)
  }

  /** The tables are what they were at the start plus the committed batches, whole, in commit order. */
  ghost predicate TableInv(s: State, initial: Batch)
  {
    && ValidIds(s.commits, |s.log|)
    && s.tables == initial.Plus(Concatenated(s.log, s.commits))
  }

  ghost predicate BagInv(s: State, initial: Batch)
  {
    s.tables.ToBag() == initial.ToBag().Plus(WithStatus(s.log, Committed).ToBag())
  }

  /** A turn reports an error exactly when the batch it flushed was dropped. */
  ghost predicate ReturnInv(s: State)
  {
    forall t <- s.pcs | s.pcs[t].Returned? && s.pcs[t].flushed.Hand? ::
      var h := s.pcs[t].flushed;
      && h.id < |s.log| && s.log[h.id].owner == t && s.log[h.id].batch == h.batch
      && s.log[h.id].status != InFlight
      && (s.log[h.id].status == Dropped <==> !s.pcs[t].ok)
  }

  ghost predicate Inv(s: State, initial: Batch)
  {
    ShapeInv(s) && CloseInv(s) && MutexInv(s) && HandInv(s) && FlowInv(s) && SizeInv(s)
    && ReturnInv(s) && CommitInv(s) && TableInv(s, initial) && BagInv(s, initial)
  }

  // ---------------------------------------------- histories under one more step

  lemma DetachedSnoc(log: seq<Entry>, e: Entry)
    ensures Detached(log + [e]) == Detached(log).Plus(e.batch)
  {
    assert (log + [e])[..|log|] == log;
  }

  lemma {:induction false} DetachedSettle(log: seq<Entry>, i: nat, status: Status)
    requires i < |log|
    ensures Detached(log[i := log[i].(status := status)]) == Detached(log)
  {
    var n := |log| - 1;
    var log' := log[i := log[i].(status := status)];
    if i == n {
      assert log'[..n] == log[..n];
    } else {
      assert log'[..n] == log[..n][i := log[i].(status := status)];
      DetachedSettle(log[..n], i, status);
    }
  }

  lemma WithStatusSnoc(log: seq<Entry>, e: Entry, status: Status)
    ensures WithStatus(log + [e], status) ==
            WithStatus(log, status).Plus(if e.status == status then e.batch else NO_ROWS)
  {
    assert (log + [e])[..|log|] == log;
  }

  /** The rows entry e adds to the batches of the given status. */
  function Share(e: Entry, status: Status): Batch
  {
    if e.status == status then e.batch else NO_ROWS
  }

  lemma PlusAssociative(a: Batch, b: Batch, c: Batch)
    ensures a.Plus(b).Plus(c) == a.Plus(b.Plus(c))
  {
    assert a.trades + b.trades + c.trades == a.trades + (b.trades + c.trades);
    assert a.logs + b.logs + c.logs == a.logs + (b.logs + c.logs);
  }

  lemma SlicesBeforeLast(log: seq<Entry>, i: nat)
    requires i < |log| - 1
    ensures var n := |log| - 1;
            log[..n][..i] == log[..i] && log[i + 1..] == log[..n][i + 1..] + [log[n]]
  {
  }

  lemma {:induction false} WithStatusSplit(log: seq<Entry>, i: nat, q: Status)
    requires i < |log|
    ensures WithStatus(log, q) ==
            WithStatus(log[..i], q).Plus(Share(log[i], q).Plus(WithStatus(log[i + 1..], q)))
  {
    var n := |log| - 1;
    var a, x := WithStatus(log[..i], q), Share(log[i], q);
    if i < n {
      WithStatusSplit(log[..n], i, q);
      SlicesBeforeLast(log, i);
      WithStatusSnoc(log[..n][i + 1..], log[n], q);
      var b, y := WithStatus(log[..n][i + 1..], q), Share(log[n], q);
      PlusAssociative(a, x.Plus(b), y);
      PlusAssociative(x, b, y);
    }
  }

  lemma Exchange<T>(a: seq<T>, b: seq<T>, x: seq<T>, y: seq<T>)
    ensures multiset(a + (x + b)) + multiset(y) == multiset(a + (y + b)) + multiset(x)
  {
    assert multiset(a + (x + b)) == multiset(a) + multiset(x) + multiset(b);
    assert multiset(a + (y + b)) == multiset(a) + multiset(y) + multiset(b);
  }

  /** Changing one entry exchanges its share of every status, and changes nothing else. */
  lemma WithStatusUpdate(log: seq<Entry>, i: nat, e: Entry, q: Status)
    requires i < |log|
    ensures WithStatus(log[i := e], q).ToBag().Plus(Share(log[i], q).ToBag()) ==
            WithStatus(log, q).ToBag().Plus(Share(e, q).ToBag())
  {
    WithStatusSplit(log, i, q);
    WithStatusSplit(log[i := e], i, q);
    assert log[i := e][..i] == log[..i] && log[i := e][i + 1..] == log[i + 1..];
    var a, b := WithStatus(log[..i], q), WithStatus(log[i + 1..], q);
    var x, y := Share(log[i], q), Share(e, q);
    Exchange(a.trades, b.trades, x.trades, y.trades);
    Exchange(a.logs, b.logs, x.logs, y.logs);
  }

  lemma {:induction false} ConcatenatedGrows(log: seq<Entry>, log': seq<Entry>, ids: seq<nat>)
    requires |log| <= |log'|
    requires forall i | 0 <= i < |log| :: log'[i].batch == log[i].batch
    requires ValidIds(ids, |log|)
    ensures Concatenated(log', ids) == Concatenated(log, ids)
  {
    if ids != [] {
      ConcatenatedGrows(log, log', ids[..|ids| - 1]);
    }
  }

  // ------------------------------------------------------- one step keeps them

  /** From s to s' only thread t moves. */
  ghost predicate OnlyMoves(s: State, s': State, t: Thread)
  {
    t in s.pcs && t in s'.pcs && s'.pcs == s.pcs[t := s'.pcs[t]]
  }

  /** Thread t keeps whatever batch it has in hand. */
  ghost predicate Keeps(s: State, s': State, t: Thread)
  {
    && OnlyMoves(s, s', t)
    && s'.pcs[t].InHand() == s.pcs[t].InHand()
    && s'.log == s.log && s'.commits == s.commits && s'.tables == s.tables
  }

  /** Thread t, empty-handed, takes both buffers. */
  ghost predicate Detaches(s: State, s': State, t: Thread)
  {
    && OnlyMoves(s, s', t)
    && s.pcs[t].InHand() == Nothing
    && s'.pcs[t].InHand() == Hand(|s.log|, s.buffer)
    && s'.log == s.log + [Entry(t, s.buffer, InFlight)]
    && s'.buffer == NO_ROWS && s'.accepted == s.accepted
    && s'.commits == s.commits && s'.tables == s.tables
  }

  /** Thread t is rid of the batch it had in hand, whose fate is now known. */
  ghost predicate Settles(s: State, s': State, t: Thread)
  {
    && OnlyMoves(s, s', t)
    && var h := s.pcs[t].InHand();
       && h.Hand? && h.id < |s.log| && |s'.log| == |s.log|
       && s'.pcs[t].InHand() == Nothing
       && s'.log == s.log[h.id := s.log[h.id].(status := s'.log[h.id].status)]
       && s'.buffer == s.buffer && s'.accepted == s.accepted
       && match s'.log[h.id].status
          case InFlight => false
          case Skipped => h.batch == NO_ROWS && s'.commits == s.commits && s'.tables == s.tables
          case Committed => s'.commits == s.commits + [h.id] && s'.tables == s.tables.Plus(h.batch)
          case Dropped => s'.commits == s.commits && s'.tables == s.tables
  }

  lemma ActorMoves(s: State, a: Action)
    requires Enabled(s, a)
    ensures OnlyMoves(s, Next(s, a), Actor(a))
    ensures a.Append? ==> s.pcs[a.t].event.Some? &&
                          Next(s, a).accepted == s.accepted.Plus(RowsOf(s.pcs[a.t].event.value))
    ensures !a.Append? ==> Next(s, a).accepted == s.accepted
  {
  }

  lemma DatabaseKind(s: State, a: Action)
    requires ShapeInv(s) && HandInv(s) && Enabled(s, a) && (a.Begin? || a.Exec? || a.Commit?)
    ensures Keeps(s, Next(s, a), Actor(a)) || Settles(s, Next(s, a), Actor(a))
  {
    assert PcFits(Actor(a), s.pcs[Actor(a)]);
  }

  lemma StepKind(s: State, a: Action)
    requires ShapeInv(s) && HandInv(s) && Enabled(s, a)
    ensures var s', t := Next(s, a), Actor(a);
            Keeps(s, s', t) || Detaches(s, s', t) || Settles(s, s', t)
  {
    if a.Begin? || a.Exec? || a.Commit? {
      DatabaseKind(s, a);
    } else {
      assert PcFits(Actor(a), s.pcs[Actor(a)]);
    }
  }

  lemma InsertedFits(batch: Batch, tx: Batch)
    requires PartOf(tx, batch) && !AllInserted(batch, tx)
    ensures PartOf(Inserted(batch, tx), batch)
  {
  }

  lemma MoverFits(s: State, a: Action)
    requires ShapeInv(s) && Enabled(s, a)
    ensures Actor(a) in Next(s, a).pcs && PcFits(Actor(a), Next(s, a).pcs[Actor(a)])
  {
    var pc := s.pcs[Actor(a)];
    assert PcFits(Actor(a), pc);
    if a.Exec? {
      InsertedFits(pc.hand.batch, pc.tx);
    }
  }

  lemma ShapeStep(s: State, s': State, t: Thread)
    requires ShapeInv(s) && OnlyMoves(s, s', t) && PcFits(t, s'.pcs[t])
    ensures ShapeInv(s')
  {
  }

  lemma CloseStep(s: State, a: Action)
    requires ShapeInv(s) && CloseInv(s) && Enabled(s, a)
    ensures {Flusher, Closer} <= Next(s, a).pcs.Keys && CloseInv(Next(s, a))
  {
    assert PcFits(Actor(a), s.pcs[Actor(a)]);
  }

  /** The mutex changes hands only by the mover, who knows whether it holds it. */
  lemma MutexMoves(s: State, a: Action)
    requires ShapeInv(s) && MutexInv(s) && Enabled(s, a)
    ensures var s', t := Next(s, a), Actor(a);
            && (s'.pcs[t].HoldsMutex() <==> s'.mutex == Some(t))
            && (s'.mutex == s.mutex || (s.mutex == None && s'.mutex == Some(t))
                || (s.mutex == Some(t) && s'.mutex == None))
  {
    assert PcFits(Actor(a), s.pcs[Actor(a)]);
  }

  lemma MutexStep(s: State, s': State, t: Thread)
    requires MutexInv(s) && OnlyMoves(s, s', t)
    requires s'.pcs[t].HoldsMutex() <==> s'.mutex == Some(t)
    requires s'.mutex == s.mutex || (s.mutex == None && s'.mutex == Some(t)) || (s.mutex == Some(t) && s'.mutex == None)
    ensures MutexInv(s')
  {
  }

  lemma HandKept(s: State, s': State, t: Thread)
    requires HandInv(s) && Keeps(s, s', t)
    ensures HandInv(s')
  {
  }

  lemma HandDetached(s: State, s': State, t: Thread)
    requires HandInv(s) && Detaches(s, s', t)
    ensures HandInv(s')
  {
  }

  lemma HandSettled(s: State, s': State, t: Thread)
    requires HandInv(s) && Settles(s, s', t)
    ensures HandInv(s')
  {
  }

  /** What the mover reports is what became of the batch it was rid of in this step. */
  lemma ReturnMoves(s: State, a: Action)
    requires ShapeInv(s) && HandInv(s) && Enabled(s, a)
    ensures var s', t := Next(s, a), Actor(a);
            s'.pcs[t].Returned? && s'.pcs[t].flushed.Hand? ==>
              && s.pcs[t].InHand() == s'.pcs[t].flushed && Settles(s, s', t)
              && (s'.log[s'.pcs[t].flushed.id].status == Dropped <==> !s'.pcs[t].ok)
  {
    assert PcFits(Actor(a), s.pcs[Actor(a)]);
  }

  lemma ReturnStep(s: State, s': State, t: Thread)
    requires HandInv(s) && ReturnInv(s)
    requires Keeps(s, s', t) || Detaches(s, s', t) || Settles(s, s', t)
    requires s'.pcs[t].Returned? && s'.pcs[t].flushed.Hand? ==>
               && s.pcs[t].InHand() == s'.pcs[t].flushed && Settles(s, s', t)
               && (s'.log[s'.pcs[t].flushed.id].status == Dropped <==> !s'.pcs[t].ok)
    ensures ReturnInv(s')
  {
  }

  lemma FlowDetached(s: State, s': State, t: Thread)
    requires FlowInv(s) && Detaches(s, s', t)
    ensures FlowInv(s')
  {
    DetachedSnoc(s.log, Entry(t, s.buffer, InFlight));
  }

  lemma FlowSettled(s: State, s': State, t: Thread)
    requires FlowInv(s) && Settles(s, s', t)
    ensures FlowInv(s')
  {
    var id := s.pcs[t].InHand().id;
    DetachedSettle(s.log, id, s'.log[id].status);
  }

  /** A step that takes no batch either leaves the buffers alone or appends one event's rows to them. */
  lemma BufferMoves(s: State, a: Action)
    requires Enabled(s, a) && !Detaches(s, Next(s, a), Actor(a)) && HandInv(s) && ShapeInv(s)
    ensures var s' := Next(s, a);
            if a.Append?
            then var row := RowsOf(s.pcs[a.t].event.value);
                 s'.buffer == s.buffer.Plus(row) && s'.accepted == s.accepted.Plus(row)
            else s'.buffer == s.buffer && s'.accepted == s.accepted
  {
    assert PcFits(Actor(a), s.pcs[Actor(a)]);
  }

  lemma FlowKept(s: State, a: Action)
    requires FlowInv(s) && Enabled(s, a) && Keeps(s, Next(s, a), Actor(a))
    requires HandInv(s) && ShapeInv(s)
    ensures FlowInv(Next(s, a))
  {
    BufferMoves(s, a);
    if a.Append? {
      PlusAssociative(Detached(s.log), s.buffer, RowsOf(s.pcs[a.t].event.value));
    }
  }

  lemma RowsOfIsSmall(e: Event)
    ensures RowsOf(e).Size() <= 1
  {
  }

  lemma SizeAppended(s: State, a: Action)
    requires ShapeInv(s) && MutexInv(s) && SizeInv(s) && Enabled(s, a) && a.Append?
    ensures SizeInv(Next(s, a))
  {
    assert PcFits(a.t, s.pcs[a.t]);
    RowsOfIsSmall(s.pcs[a.t].event.value);
  }

  lemma SizeDetached(s: State, a: Action)
    requires ShapeInv(s) && MutexInv(s) && SizeInv(s) && Enabled(s, a)
    requires HandInv(s) && Detaches(s, Next(s, a), Actor(a))
    ensures SizeInv(Next(s, a))
  {
    assert PcFits(Actor(a), s.pcs[Actor(a)]);
  }

  /** When a full buffer stays put, so does the thread that filled it, or else it panics. */
  lemma FullStays(s: State, a: Action)
    requires ShapeInv(s) && MutexInv(s) && SizeInv(s) && HandInv(s) && Enabled(s, a)
    requires !a.Append? && !Detaches(s, Next(s, a), Actor(a))
    ensures var s', t := Next(s, a), Actor(a);
            && s'.batchSize == s.batchSize && s'.buffer == s.buffer
            && (s'.pcs[t].Locked? ==> s.mutex == None && s'.mutex == Some(t))
            && (s.batchSize > 0 && s.buffer.Size() == s.batchSize ==>
                 s'.mutex == s.mutex && (s.mutex == Some(t) ==> s'.pcs[t].Crashed?))
  {
    BufferMoves(s, a);
    assert PcFits(Actor(a), s.pcs[Actor(a)]);
  }

  lemma SizeKept(s: State, s': State, t: Thread)
    requires SizeInv(s) && MutexInv(s) && MutexInv(s') && OnlyMoves(s, s', t)
    requires s'.log == s.log || Settles(s, s', t)
    requires s'.batchSize == s.batchSize && s'.buffer == s.buffer
    requires s'.pcs[t].Locked? ==> s.mutex == None && s'.mutex == Some(t)
    requires s.batchSize > 0 && s.buffer.Size() == s.batchSize ==>
               s'.mutex == s.mutex && (s.mutex == Some(t) ==> s'.pcs[t].Crashed?)
    ensures SizeInv(s')
  {
    if s.batchSize > 0 {
      forall e | e in s'.log
        ensures if e.owner.Writer? then e.batch.Size() == s.batchSize else e.batch.Size() < s.batchSize
      {
        var i :| 0 <= i < |s'.log| && s'.log[i] == e;
        assert s.log[i] in s.log && s.log[i].batch == e.batch && s.log[i].owner == e.owner;
      }
    }
  }

  lemma ConcatenatedSnoc(log: seq<Entry>, ids: seq<nat>, id: nat)
    requires ValidIds(ids, |log|) && id < |log|
    ensures ValidIds(ids + [id], |log|)
    ensures Concatenated(log, ids + [id]) == Concatenated(log, ids).Plus(log[id].batch)
  {
    assert (ids + [id])[..|ids|] == ids;
  }

  lemma CommitStep(s: State, s': State, t: Thread)
    requires HandInv(s) && CommitInv(s)
    requires Keeps(s, s', t) || Detaches(s, s', t) || Settles(s, s', t)
    ensures CommitInv(s')
  {
  }

  lemma TableStep(s: State, s': State, t: Thread, initial: Batch)
    requires HandInv(s) && TableInv(s, initial)
    requires Keeps(s, s', t) || Detaches(s, s', t) || Settles(s, s', t)
    ensures TableInv(s', initial)
  {
    if s'.log != s.log {
      ConcatenatedGrows(s.log, s'.log, s.commits);
    }
    if s'.commits != s.commits {
      var id := s.pcs[t].InHand().id;
      ConcatenatedSnoc(s'.log, s.commits, id);
      PlusAssociative(initial, Concatenated(s.log, s.commits), s.log[id].batch);
    }
  }

  lemma BagDetached(s: State, s': State, t: Thread, initial: Batch)
    requires BagInv(s, initial) && Detaches(s, s', t)
    ensures BagInv(s', initial)
  {
    WithStatusSnoc(s.log, Entry(t, s.buffer, InFlight), Committed);
  }

  lemma BagPlus(a: Batch, b: Batch)
    ensures a.Plus(b).ToBag() == a.ToBag().Plus(b.ToBag())
  {
  }

  lemma BagAssociative(a: Bag, b: Bag, c: Bag)
    ensures a.Plus(b).Plus(c) == a.Plus(b.Plus(c))
    ensures a.Plus(EMPTY_BAG) == a
  {
    assert a.trades + b.trades + c.trades == a.trades + (b.trades + c.trades);
    assert a.logs + b.logs + c.logs == a.logs + (b.logs + c.logs);
  }

  lemma BagSettled(s: State, s': State, t: Thread, initial: Batch)
    requires HandInv(s) && BagInv(s, initial) && Settles(s, s', t)
    ensures BagInv(s', initial)
  {
    var id := s.pcs[t].InHand().id;
    var e, e' := s.log[id], s'.log[id];
    var before, after := WithStatus(s.log, Committed).ToBag(), WithStatus(s'.log, Committed).ToBag();
    WithStatusUpdate(s.log, id, e', Committed);
    BagAssociative(after, EMPTY_BAG, EMPTY_BAG);
    BagAssociative(before, EMPTY_BAG, EMPTY_BAG);
    BagPlus(s.tables, e.batch);
    BagAssociative(initial.ToBag(), before, e.batch.ToBag());
  }

  // ------------------------------------------------------------ whole runs

  lemma InitInv(batchSize: int, tables: Batch, writers: nat)
    ensures Inv(Init(batchSize, tables, writers), tables)
  {
    var s := Init(batchSize, tables, writers);
    assert Flusher in s.pcs && Closer in s.pcs;
    BagAssociative(tables.ToBag(), EMPTY_BAG, EMPTY_BAG);
  }

  /** The rows: where they are and in what order. */
  lemma RowsStep(s: State, a: Action, initial: Batch)
    requires ShapeInv(s) && HandInv(s) && FlowInv(s) && BagInv(s, initial) && Enabled(s, a)
    ensures HandInv(Next(s, a)) && FlowInv(Next(s, a))
    ensures Keeps(s, Next(s, a), Actor(a)) || BagInv(Next(s, a), initial)
  {
    var s', t := Next(s, a), Actor(a);
    StepKind(s, a);
    if Keeps(s, s', t) {
      HandKept(s, s', t);
      FlowKept(s, a);
    } else if Detaches(s, s', t) {
      HandDetached(s, s', t);
      FlowDetached(s, s', t);
      BagDetached(s, s', t, initial);
    } else {
      HandSettled(s, s', t);
      FlowSettled(s, s', t);
      BagSettled(s, s', t, initial);
    }
  }

  /** The sizes of the buffer and of the batches. */
  lemma SizeStep(s: State, a: Action)
    requires ShapeInv(s) && HandInv(s) && MutexInv(s) && SizeInv(s) && Enabled(s, a) && MutexInv(Next(s, a))
    ensures SizeInv(Next(s, a))
  {
    var s', t := Next(s, a), Actor(a);
    StepKind(s, a);
    if a.Append? {
      SizeAppended(s, a);
    } else if Detaches(s, s', t) {
      SizeDetached(s, a);
    } else {
      MutexMoves(s, a);
      FullStays(s, a);
      SizeKept(s, s', t);
    }
  }

  lemma StepKeepsInv(s: State, a: Action, initial: Batch)
    requires Inv(s, initial) && Enabled(s, a)
    ensures Inv(Next(s, a), initial)
  {
    var s', t := Next(s, a), Actor(a);
    StepKind(s, a);
    MoverFits(s, a);
    ShapeStep(s, s', t);
    CloseStep(s, a);
    MutexMoves(s, a);
    MutexStep(s, s', t);
    ReturnMoves(s, a);
    ReturnStep(s, s', t);
    CommitStep(s, s', t);
    TableStep(s, s', t, initial);
    RowsStep(s, a, initial);
    SizeStep(s, a);
  }

  lemma {:induction false} RunKeepsInv(s: State, acts: seq<Action>, initial: Batch)
    requires Inv(s, initial) && Run(s, acts).Some?
    ensures Inv(Run(s, acts).value, initial)
  {
    if acts != [] {
      RunKeepsInv(s, acts[..|acts| - 1], initial);
      StepKeepsInv(Run(s, acts[..|acts| - 1]).value, acts[|acts| - 1], initial);
    }
  }
}
