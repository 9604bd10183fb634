/**
 The sink's guarantees over every run: any number of writers, the flusher and
 Close, in any interleaving, with any database calls failing and any writers
 panicking.
 */
module SinkTheorems {
  import opened Wrappers
  import opened Events
  import opened SinkProtocol
  import opened SinkSafety

  /** The state a run reaches from a fresh sink over the given tables. */
  ghost predicate Reaches(batchSize: int, initial: Batch, writers: nat, acts: seq<Action>, s: State)
  {
    Run(Init(batchSize, initial, writers), acts) == Some(s)
  }

  lemma ReachedInv(batchSize: int, initial: Batch, writers: nat, acts: seq<Action>, s: State)
    requires Reaches(batchSize, initial, writers, acts, s)
    ensures Inv(s, initial)
  {
    InitInv(batchSize, initial, writers);
    RunKeepsInv(Init(batchSize, initial, writers), acts, initial);
  }

  /** The rows of all four fates together. */
  ghost function Fates(a: Bag, b: Bag, c: Bag, d: Bag): Bag
  {
    a.Plus(b).Plus(c).Plus(d)
  }

  lemma FatesGrow(a: Bag, b: Bag, c: Bag, d: Bag, x: Bag)
    ensures Fates(a.Plus(x), b, c, d) == Fates(a, b, c, d).Plus(x)
    ensures Fates(a, b.Plus(x), c, d) == Fates(a, b, c, d).Plus(x)
    ensures Fates(a, b, c.Plus(x), d) == Fates(a, b, c, d).Plus(x)
    ensures Fates(a, b, c, d.Plus(x)) == Fates(a, b, c, d).Plus(x)
  {
    BagSwap(a, x, b);
    BagSwap(a.Plus(b), x, c);
    BagSwap(a.Plus(b).Plus(c), x, d);
    BagAssociative(a, b, x);
    BagAssociative(a.Plus(b), c, x);
    BagAssociative(a.Plus(b).Plus(c), d, x);
  }

  lemma BagSwap(a: Bag, b: Bag, c: Bag)
    ensures a.Plus(b).Plus(c) == a.Plus(c).Plus(b)
  {
    assert a.trades + b.trades + c.trades == a.trades + c.trades + b.trades;
    assert a.logs + b.logs + c.logs == a.logs + c.logs + b.logs;
  }

  /** A bag, with x added exactly when the condition holds. */
  ghost function AddIf(b: Bag, cond: bool, x: Bag): Bag
  {
    if cond then b.Plus(x) else b
  }

  lemma WithStatusLast(log: seq<Entry>, q: Status)
    requires log != []
    ensures var rest, e := log[..|log| - 1], log[|log| - 1];
            WithStatus(log, q).ToBag() == AddIf(WithStatus(rest, q).ToBag(), e.status == q, e.batch.ToBag())
  {
  }

  lemma FatesOneMore(a: Bag, b: Bag, c: Bag, d: Bag, q: Status, x: Bag)
    ensures Fates(AddIf(a, q == InFlight, x), AddIf(b, q == Committed, x),
                  AddIf(c, q == Dropped, x), AddIf(d, q == Skipped, x)) == Fates(a, b, c, d).Plus(x)
  {
    FatesGrow(a, b, c, d, x);
  }

  /** The four fates account for every detached row. */
  lemma {:induction false} FatesPartition(log: seq<Entry>)
    ensures Detached(log).ToBag() ==
            Fates(WithStatus(log, InFlight).ToBag(), WithStatus(log, Committed).ToBag(),
                  WithStatus(log, Dropped).ToBag(), WithStatus(log, Skipped).ToBag())
  {
    if log != [] {
      var rest, e := log[..|log| - 1], log[|log| - 1];
      FatesPartition(rest);
      BagPlus(Detached(rest), e.batch);
      WithStatusLast(log, InFlight);
      WithStatusLast(log, Committed);
      WithStatusLast(log, Dropped);
      WithStatusLast(log, Skipped);
      FatesOneMore(WithStatus(rest, InFlight).ToBag(), WithStatus(rest, Committed).ToBag(),
                   WithStatus(rest, Dropped).ToBag(), WithStatus(rest, Skipped).ToBag(), e.status, e.batch.ToBag());
    }
  }

  lemma {:induction false} SkippedAreEmpty(log: seq<Entry>)
    requires forall i | 0 <= i < |log| && log[i].status == Skipped :: log[i].batch == NO_ROWS
    ensures WithStatus(log, Skipped) == NO_ROWS
  {
    if log != [] {
      SkippedAreEmpty(log[..|log| - 1]);
    }
  }

  /**
   Conservation under failure.  Every accepted row is, once, in the buffer, in the
   hands of exactly one thread, in its table, or in a batch whose flush failed.
   */
  lemma Conservation(batchSize: int, initial: Batch, writers: nat, acts: seq<Action>, s: State)
    requires Reaches(batchSize, initial, writers, acts, s)
    ensures s.accepted.ToBag() ==
            s.buffer.ToBag().Plus(WithStatus(s.log, InFlight).ToBag())
            .Plus(WithStatus(s.log, Committed).ToBag()).Plus(WithStatus(s.log, Dropped).ToBag())
    ensures s.tables.ToBag() == initial.ToBag().Plus(WithStatus(s.log, Committed).ToBag())
    ensures forall i | 0 <= i < |s.log| :: s.log[i].status == InFlight <==>
              s.log[i].owner in s.pcs && s.pcs[s.log[i].owner].InHand() == Hand(i, s.log[i].batch)
    ensures forall t <- s.pcs | s.pcs[t].InHand().Hand? ::
              s.pcs[t].InHand().id < |s.log| && s.log[s.pcs[t].InHand().id].owner == t
  {
    ReachedInv(batchSize, initial, writers, acts, s);
    AcceptedFates(s);
  }

  lemma AcceptedFates(s: State)
    requires FlowInv(s) && CommitInv(s)
    ensures s.accepted.ToBag() ==
            s.buffer.ToBag().Plus(WithStatus(s.log, InFlight).ToBag())
            .Plus(WithStatus(s.log, Committed).ToBag()).Plus(WithStatus(s.log, Dropped).ToBag())
  {
    FatesPartition(s.log);
    SkippedAreEmpty(s.log);
    BagPlus(Detached(s.log), s.buffer);
    BagRotate(WithStatus(s.log, InFlight).ToBag(), WithStatus(s.log, Committed).ToBag(),
              WithStatus(s.log, Dropped).ToBag(), s.buffer.ToBag());
  }

  lemma BagRotate(a: Bag, b: Bag, c: Bag, d: Bag)
    ensures a.Plus(b).Plus(c).Plus(EMPTY_BAG).Plus(d) == d.Plus(a).Plus(b).Plus(c)
  {
    assert a.trades + b.trades + c.trades + multiset{} + d.trades == d.trades + a.trades + b.trades + c.trades;
    assert a.logs + b.logs + c.logs + multiset{} + d.logs == d.logs + a.logs + b.logs + c.logs;
  }

  /**
   Order.  Per kind, the batches in the order they were detached, then the buffer,
   spell the rows in the order the mutex admitted them; and the tables hold whole
   committed batches one after the other, each at most once, in commit order.
   */
  lemma OrderPreserved(batchSize: int, initial: Batch, writers: nat, acts: seq<Action>, s: State)
    requires Reaches(batchSize, initial, writers, acts, s)
    ensures s.accepted == Detached(s.log).Plus(s.buffer)
    ensures ValidIds(s.commits, |s.log|) && NoDuplicates(s.commits)
    ensures s.tables == initial.Plus(Concatenated(s.log, s.commits))
  {
    ReachedInv(batchSize, initial, writers, acts, s);
  }

  /**
   Batch sizes.  Whenever the mutex is free fewer than batchSize rows are buffered; a
   writer only ever detaches exactly batchSize rows, the flusher and Close fewer.
   */
  lemma ExactBatchSizes(batchSize: int, initial: Batch, writers: nat, acts: seq<Action>, s: State)
    requires Reaches(batchSize, initial, writers, acts, s) && batchSize > 0
    ensures s.buffer.Size() <= batchSize
    ensures s.mutex == None ==> s.buffer.Size() < batchSize
    ensures forall i | 0 <= i < |s.log| ::
              if s.log[i].owner.Writer? then s.log[i].batch.Size() == batchSize
              else s.log[i].batch.Size() < batchSize
  {
    ReachedInv(batchSize, initial, writers, acts, s);
    RunKeepsBatchSize(Init(batchSize, initial, writers), acts);
    forall i | 0 <= i < |s.log|
      ensures if s.log[i].owner.Writer? then s.log[i].batch.Size() == batchSize
              else s.log[i].batch.Size() < batchSize
    {
      assert s.log[i] in s.log;
    }
  }

  lemma StepKeepsBatchSize(s: State, a: Action)
    requires Enabled(s, a)
    ensures Next(s, a).batchSize == s.batchSize
  {
  }

  lemma {:induction false} RunKeepsBatchSize(s: State, acts: seq<Action>)
    requires Run(s, acts).Some?
    ensures Run(s, acts).value.batchSize == s.batchSize
  {
    if acts != [] {
      RunKeepsBatchSize(s, acts[..|acts| - 1]);
      StepKeepsBatchSize(Run(s, acts[..|acts| - 1]).value, acts[|acts| - 1]);
    }
  }

  /** Two threads are never in the critical section together, and only the one inside touches the buffers. */
  lemma MutualExclusion(batchSize: int, initial: Batch, writers: nat, acts: seq<Action>, s: State, a: Action)
    requires Reaches(batchSize, initial, writers, acts, s) && Enabled(s, a)
    ensures forall t, u | t in s.pcs && u in s.pcs && s.pcs[t].HoldsMutex() && s.pcs[u].HoldsMutex() :: t == u
    ensures Next(s, a).buffer != s.buffer ==> s.mutex == Some(Actor(a))
  {
    ReachedInv(batchSize, initial, writers, acts, s);
  }

  /** One step changes the tables only by committing, and then by exactly the whole batch in hand. */
  lemma TransactionsAreAtomic(batchSize: int, initial: Batch, writers: nat, acts: seq<Action>, s: State, a: Action)
    requires Reaches(batchSize, initial, writers, acts, s) && Enabled(s, a)
    ensures Next(s, a).tables ==
            if a.Commit? && a.ok then s.tables.Plus(s.pcs[a.t].InHand().batch) else s.tables
    ensures a.Commit? && a.ok ==>
              s.pcs[a.t].InHand().id < |s.log| && s.log[s.pcs[a.t].InHand().id].status == InFlight
  {
    ReachedInv(batchSize, initial, writers, acts, s);
    assert PcFits(Actor(a), s.pcs[Actor(a)]);
  }

  /** A turn reports an error exactly when the batch it flushed was dropped, and success only for one that was not. */
  lemma ErrorsAreTruthful(batchSize: int, initial: Batch, writers: nat, acts: seq<Action>, s: State, t: Thread)
    requires Reaches(batchSize, initial, writers, acts, s) && t in s.pcs && s.pcs[t].Returned?
    ensures match s.pcs[t].flushed
            case Nothing => s.pcs[t].ok
            case Hand(id, batch) =>
              && id < |s.log| && s.log[id].owner == t && s.log[id].batch == batch
              && (s.pcs[t].ok <==> s.log[id].status == Committed || s.log[id].status == Skipped)
              && (!s.pcs[t].ok <==> s.log[id].status == Dropped)
  {
    ReachedInv(batchSize, initial, writers, acts, s);
    assert PcFits(t, s.pcs[t]);
  }

  // ------------------------------------------------------- what can be under way

  /** The threads with a batch in flight. */
  function Holders(log: seq<Entry>): set<Thread>
  {
    set i | 0 <= i < |log| && log[i].status == InFlight :: log[i].owner
  }

  lemma HoldersLast(log: seq<Entry>)
    requires log != []
    ensures var rest, e := log[..|log| - 1], log[|log| - 1];
            Holders(log) == Holders(rest) + if e.status == InFlight then {e.owner} else {}
  {
    var rest, e := log[..|log| - 1], log[|log| - 1];
    forall t | t in Holders(log) ensures t in Holders(rest) || (e.status == InFlight && t == e.owner) {
      var i :| 0 <= i < |log| && log[i].status == InFlight && log[i].owner == t;
      assert i < |rest| ==> rest[i] == log[i];
    }
    forall t | t in Holders(rest) ensures t in Holders(log) {
      var i :| 0 <= i < |rest| && rest[i].status == InFlight && rest[i].owner == t;
      assert log[i] == rest[i];
    }
  }

  /** Batches in flight are in different hands, and none is larger than the bound. */
  ghost predicate OneEach(log: seq<Entry>, bound: nat)
  {
    && (forall i | 0 <= i < |log| && log[i].status == InFlight :: log[i].batch.Size() <= bound)
    && (forall i, j | 0 <= i < j < |log| && log[i].status == InFlight && log[j].status == InFlight ::
          log[i].owner != log[j].owner)
  }

  lemma OneEachRest(log: seq<Entry>, bound: nat)
    requires log != [] && OneEach(log, bound)
    ensures var rest, e := log[..|log| - 1], log[|log| - 1];
            OneEach(rest, bound) && (e.status == InFlight ==> e.owner !in Holders(rest))
  {
  }

  lemma OneMoreFits(bound: nat, n: nat, rows: nat, more: nat)
    requires rows <= bound * n && more <= bound
    ensures rows + more <= bound * (n + 1)
  {
    assert bound * (n + 1) == bound * n + bound;
  }

  /** The rows in flight are at most a full batch for every thread that holds one. */
  lemma {:induction false} InFlightBound(log: seq<Entry>, bound: nat)
    requires OneEach(log, bound)
    ensures WithStatus(log, InFlight).Size() <= bound * |Holders(log)|
  {
    if log != [] {
      var rest, e := log[..|log| - 1], log[|log| - 1];
      OneEachRest(log, bound);
      InFlightBound(rest, bound);
      HoldersLast(log);
      if e.status == InFlight {
        OneMoreFits(bound, |Holders(rest)|, WithStatus(rest, InFlight).Size(), e.batch.Size());
      }
    }
  }

  lemma {:induction false} SizesPartition(log: seq<Entry>)
    ensures Detached(log).Size() == WithStatus(log, InFlight).Size() + WithStatus(log, Committed).Size()
                                    + WithStatus(log, Dropped).Size() + WithStatus(log, Skipped).Size()
  {
    if log != [] {
      SizesPartition(log[..|log| - 1]);
    }
  }

  lemma {:induction false} ThreadsCount(writers: nat)
    ensures |Threads(writers)| == writers + 2
  {
    if writers == 0 {
      assert Threads(0) == {Flusher, Closer};
    } else {
      ThreadsCount(writers - 1);
      assert Threads(writers) == Threads(writers - 1) + {Writer(writers - 1)};
    }
  }

  lemma Fewer<T>(a: set<T>, b: set<T>)
    requires a <= b
    ensures |a| <= |b|
  {
    assert b == a + (b - a);
  }

  /** Rows accepted and neither written nor given up: a full buffer, and a full batch for every thread. */
  lemma UnsettledRows(s: State, initial: Batch, writers: nat)
    requires Inv(s, initial) && s.batchSize > 0 && s.pcs.Keys <= Threads(writers)
    ensures s.accepted.Size() <= WithStatus(s.log, Committed).Size() + WithStatus(s.log, Dropped).Size()
                                 + s.batchSize * (writers + 3)
  {
    forall i | 0 <= i < |s.log| && s.log[i].status == InFlight ensures s.log[i].batch.Size() <= s.batchSize {
      assert s.log[i] in s.log;
    }
    assert OneEach(s.log, s.batchSize);
    InFlightBound(s.log, s.batchSize);
    SizesPartition(s.log);
    SkippedAreEmpty(s.log);
    assert Holders(s.log) <= Threads(writers);
    Fewer(Holders(s.log), Threads(writers));
    ThreadsCount(writers);
    Scale(s.batchSize, |Holders(s.log)|, writers + 2);
  }

  lemma Scale(b: nat, m: nat, n: nat)
    requires m <= n
    ensures b * m <= b * n && b * (n + 1) == b * n + b
  {
  }

  // ------------------------------------------------------------------- Close

  /** No Write call is under way; once Close has emptied the buffers they stay empty. */
  ghost predicate Quiet(s: State)
    requires Closer in s.pcs
  {
    && (forall t <- s.pcs | t.Writer? :: s.pcs[t].Idle? || s.pcs[t].Crashed?)
    && (match s.pcs[Closer]
        case Idle => true
        case Joining => true
        case AtLock(_) => true
        case Locked(_) => true
        case _ => s.buffer == NO_ROWS)
  }

  lemma QuietStep(s: State, a: Action)
    requires ShapeInv(s) && HandInv(s) && Quiet(s) && Enabled(s, a) && !a.Invoke?
    ensures Closer in Next(s, a).pcs && Quiet(Next(s, a))
  {
    assert PcFits(Actor(a), s.pcs[Actor(a)]);
  }

  /** Close has returned with no Write call under way: nothing is buffered and nothing is in flight. */
  lemma ClosedMeansEmpty(s: State, initial: Batch)
    requires Inv(s, initial) && Quiet(s) && s.pcs[Closer].Exited?
    ensures s.buffer == NO_ROWS && WithStatus(s.log, InFlight) == NO_ROWS
    ensures s.accepted.ToBag() == WithStatus(s.log, Committed).ToBag().Plus(WithStatus(s.log, Dropped).ToBag())
  {
    forall i | 0 <= i < |s.log| ensures s.log[i].status != InFlight {
      var t := s.log[i].owner;
      assert t in s.pcs && PcFits(t, s.pcs[t]) ==> s.pcs[t].InHand() == Nothing;
    }
    NoneWithStatus(s.log, InFlight);
    AcceptedFates(s);
    BagUnit(WithStatus(s.log, Committed).ToBag());
  }

  lemma BagUnit(b: Bag)
    ensures EMPTY_BAG.Plus(EMPTY_BAG).Plus(b) == b && b.Plus(EMPTY_BAG) == b
  {
  }

  lemma {:induction false} NoneWithStatus(log: seq<Entry>, q: Status)
    requires forall i | 0 <= i < |log| :: log[i].status != q
    ensures WithStatus(log, q) == NO_ROWS
  {
    if log != [] {
      NoneWithStatus(log[..|log| - 1], q);
    }
  }

  lemma {:induction false} QuietRun(s: State, acts: seq<Action>, initial: Batch)
    requires Inv(s, initial) && Quiet(s)
    requires Run(s, acts).Some? && forall i | 0 <= i < |acts| :: !acts[i].Invoke?
    ensures Inv(Run(s, acts).value, initial) && Quiet(Run(s, acts).value)
  {
    if acts != [] {
      QuietRun(s, acts[..|acts| - 1], initial);
      var m := Run(s, acts[..|acts| - 1]).value;
      QuietStep(m, acts[|acts| - 1]);
      StepKeepsInv(m, acts[|acts| - 1], initial);
    }
  }

  /**
   Close flushes everything.  If no Write call is under way when Close begins and none
   follows, then when Close returns every accepted row is in its table, except those of
   batches whose flush failed.
   */
  lemma CloseFlushesAll(batchSize: int, initial: Batch, writers: nat, before: seq<Action>, s: State,
                        after: seq<Action>)
    requires Reaches(batchSize, initial, writers, before, s)
    requires Closer in s.pcs && s.pcs[Closer].Idle?
    requires forall t <- s.pcs | t.Writer? :: s.pcs[t].Idle? || s.pcs[t].Crashed?
    requires Run(s, after).Some? && forall i | 0 <= i < |after| :: !after[i].Invoke?
    requires Closer in Run(s, after).value.pcs && Run(s, after).value.pcs[Closer].Exited?
    ensures var z := Run(s, after).value;
            && z.buffer == NO_ROWS
            && z.accepted.ToBag() == WithStatus(z.log, Committed).ToBag().Plus(WithStatus(z.log, Dropped).ToBag())
            && z.tables.ToBag() == initial.ToBag().Plus(WithStatus(z.log, Committed).ToBag())
  {
    ReachedInv(batchSize, initial, writers, before, s);
    QuietRun(s, after, initial);
    ClosedMeansEmpty(Run(s, after).value, initial);
  }
}
