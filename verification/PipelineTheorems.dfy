/** The server's guarantees over every run from start to any state, in any interleaving. */
module PipelineTheorems {
  import opened Wrappers
  import opened Events
  import opened Frame
  import opened Sequences
  import opened Pipeline
  import opened PipelineSafety
  import opened PipelineJobs
  import opened PipelineRuns
  import Sink = SinkProtocol
  import SinkSafety
  import SinkTheorems

  // -------------------------------------------------------------- connections

  /**
   Semaphore.  Active connections never exceed the slots taken, which are the handlers not
   yet released and never exceed the limit; a connection is turned away only while every
   slot is taken.
   */
  lemma Semaphore(cfg: Config, initial: Batch, acts: seq<Action>, s: State)
    requires Reaches(cfg, initial, acts, s)
    ensures 0 <= s.net.active <= s.net.tokens <= cfg.maxConns
    ensures s.net.tokens == Sum(s.net.handlers, Token) && s.net.active == Sum(s.net.handlers, Gauge)
    ensures NetEnabled(cfg, s, Reject) ==> s.net.tokens == cfg.maxConns
  {
    ReachedSemaphore(cfg, initial, acts, s);
    GaugeBelowTokens(s.net.handlers);
    if NetEnabled(cfg, s, Reject) {
      RejectsWhenFull(cfg, s);
    }
  }

  lemma ReachedSemaphore(cfg: Config, initial: Batch, acts: seq<Action>, s: State)
    requires Reaches(cfg, initial, acts, s)
    ensures SemaphoreInv(cfg, s.net)
  {
    ReachedInv(cfg, initial, acts, s);
  }

  lemma RejectsWhenFull(cfg: Config, s: State)
    requires SemaphoreInv(cfg, s.net) && NetEnabled(cfg, s, Reject)
    ensures s.net.tokens == cfg.maxConns
  {
  }

  lemma GaugeBelowTokens(hs: seq<Handler>)
    ensures 0 <= Sum(hs, Gauge) <= Sum(hs, Token)
  {
    SumMonotone(hs, Gauge, Token);
    SumDominates(hs, Gauge);
  }

  /** With a limit of 0 every connection is turned away: 0 does not mean unlimited. */
  lemma ZeroMeansNone(cfg: Config, initial: Batch, acts: seq<Action>, s: State)
    requires Reaches(cfg, initial, acts, s) && cfg.maxConns == 0
    ensures s.net.handlers == [] && s.chan.enqueued == [] && !s.crashed
  {
    NoneJoin(cfg, Init(cfg, initial), acts);
  }

  lemma {:induction false} NoneJoin(cfg: Config, s: State, acts: seq<Action>)
    requires s.net.handlers == [] && s.chan.enqueued == [] && !s.crashed && cfg.maxConns == 0
    requires Run(cfg, s, acts).Some?
    ensures var z := Run(cfg, s, acts).value; z.net.handlers == [] && z.chan.enqueued == [] && !z.crashed
  {
    if acts != [] {
      var m, a := Run(cfg, s, acts[..|acts| - 1]).value, acts[|acts| - 1];
      NoneJoin(cfg, s, acts[..|acts| - 1]);
      if NetEnabled(cfg, m, a) {
        NetKind(cfg, m, a);
      } else if WorkEnabled(cfg, m, a) {
        WorkLeaves(cfg, m, a);
      }
    }
  }

  /**
   Per-connection order.  What connection c has put on the queue is an initial part of the
   frames encoded in its bytes, behind what its handler has read by at most one frame; the
   queue is first-in first-out and never exceeds its depth.
   */
  lemma PerConnectionOrder(cfg: Config, initial: Batch, acts: seq<Action>, s: State, c: nat)
    requires Reaches(cfg, initial, acts, s) && c < |s.net.handlers|
    ensures var h := s.net.handlers[c];
            && OfConn(s.chan.enqueued, c) <= h.read <= ParseAll(h.received, EOF).0
            && |h.read| <= |OfConn(s.chan.enqueued, c)| + 1
            && (!h.pc.Sending? ==> OfConn(s.chan.enqueued, c) == h.read)
    ensures s.chan.dequeued + s.chan.queue == s.chan.enqueued && |s.chan.queue| <= cfg.queueDepth
  {
    ReachedInv(cfg, initial, acts, s);
    var h := s.net.handlers[c];
    ParseStream(h.read, h.unread, EOF);
  }

  // --------------------------------------------- rows of reordered jobs

  lemma {:induction false} RowsAppend(decode: Bytes -> Option<Event>, a: seq<Job>, b: seq<Job>)
    ensures RowsOfJobs(decode, a + b) == RowsOfJobs(decode, a).Plus(RowsOfJobs(decode, b))
  {
    if b == [] {
      assert a + b == a;
    } else {
      assert (a + b)[..|a + b| - 1] == a + b[..|b| - 1];
      RowsAppend(decode, a, b[..|b| - 1]);
      SinkSafety.PlusAssociative(RowsOfJobs(decode, a), RowsOfJobs(decode, b[..|b| - 1]), JobRows(decode, b[|b| - 1]));
    }
  }

  ghost function RowBag(decode: Bytes -> Option<Event>, jobs: seq<Job>): Bag
  {
    RowsOfJobs(decode, jobs).ToBag()
  }

  lemma RowBagAppend(decode: Bytes -> Option<Event>, a: seq<Job>, b: seq<Job>)
    ensures RowBag(decode, a + b) == RowBag(decode, a).Plus(RowBag(decode, b))
  {
    RowsAppend(decode, a, b);
    SinkSafety.BagPlus(RowsOfJobs(decode, a), RowsOfJobs(decode, b));
  }

  lemma DropSame(rest: seq<Job>, front: seq<Job>, back: seq<Job>, j: Job)
    requires multiset(rest + [j]) == multiset(front + [j] + back)
    ensures multiset(rest) == multiset(front + back)
  {
    assert multiset(rest + [j]) == multiset(rest) + multiset{j};
    assert multiset(front + [j] + back) == multiset(front) + multiset{j} + multiset(back);
    assert multiset(front + back) == multiset(front) + multiset(back);
    assert multiset(rest) + multiset{j} - multiset{j} == multiset(rest);
    assert multiset(front) + multiset{j} + multiset(back) - multiset{j} == multiset(front) + multiset(back);
  }

  /** The rows of the same jobs in another order are the same rows in another order. */
  lemma {:induction false} RowsPermute(decode: Bytes -> Option<Event>, a: seq<Job>, b: seq<Job>)
    requires multiset(a) == multiset(b)
    ensures RowBag(decode, a) == RowBag(decode, b)
  {
    if a == [] {
      assert |multiset(b)| == 0;
    } else {
      var rest, j := a[..|a| - 1], a[|a| - 1];
      assert a == rest + [j] && j in multiset(b);
      var i :| 0 <= i < |b| && b[i] == j;
      var front, back := b[..i], b[i + 1..];
      assert b == front + [j] + back;
      DropSame(rest, front, back, j);
      RowsPermute(decode, rest, front + back);
      RowBagAppend(decode, rest, [j]);
      RowBagAppend(decode, front + [j], back);
      RowBagAppend(decode, front, [j]);
      RowBagAppend(decode, front, back);
      SinkTheorems.BagSwap(RowBag(decode, front), RowBag(decode, [j]), RowBag(decode, back));
    }
  }

  lemma {:induction false} FailuresAppend(decode: Bytes -> Option<Event>, a: seq<Job>, b: seq<Job>)
    ensures Failures(decode, a + b) == Failures(decode, a) + Failures(decode, b)
  {
    if b == [] {
      assert a + b == a;
    } else {
      assert (a + b)[..|a + b| - 1] == a + b[..|b| - 1];
      FailuresAppend(decode, a, b[..|b| - 1]);
    }
  }

  lemma {:induction false} FailuresPermute(decode: Bytes -> Option<Event>, a: seq<Job>, b: seq<Job>)
    requires multiset(a) == multiset(b)
    ensures Failures(decode, a) == Failures(decode, b)
  {
    if a == [] {
      assert |multiset(b)| == 0;
    } else {
      var rest, j := a[..|a| - 1], a[|a| - 1];
      assert a == rest + [j] && j in multiset(b);
      var i :| 0 <= i < |b| && b[i] == j;
      var front, back := b[..i], b[i + 1..];
      assert b == front + [j] + back;
      DropSame(rest, front, back, j);
      FailuresPermute(decode, rest, front + back);
      FailuresAppend(decode, rest, [j]);
      FailuresAppend(decode, front + [j], back);
      FailuresAppend(decode, front, [j]);
      FailuresAppend(decode, front, back);
    }
  }

  lemma {:induction false} FailedHaveNoRows(decode: Bytes -> Option<Event>, jobs: seq<Job>)
    requires forall j <- jobs :: decode(j.data) == None
    ensures RowsOfJobs(decode, jobs) == NO_ROWS
  {
    if jobs != [] {
      FailedHaveNoRows(decode, jobs[..|jobs| - 1]);
    }
  }

  /** With no worker on its way, the rows of the jobs taken are accepted, or lost with their job. */
  lemma TakenBag(cfg: Config, s: State)
    requires WorkInv(cfg, s)
    requires forall pc <- s.work.pcs :: !IsUnwritten(pc)
    ensures RowBag(cfg.decode, s.chan.dequeued) ==
            s.sink.accepted.ToBag().Plus(RowBag(cfg.decode, s.work.tally.lostUnwritten))
  {
    var t := s.work.tally;
    UnwrittenNone(s.work.pcs);
    RowsPermute(cfg.decode, s.chan.dequeued, t.written + t.failed + t.lostUnwritten);
    RowBagAppend(cfg.decode, t.written + t.failed, t.lostUnwritten);
    RowBagAppend(cfg.decode, t.written, t.failed);
    FailedHaveNoRows(cfg.decode, t.failed);
    SinkTheorems.BagUnit(s.sink.accepted.ToBag());
  }

  lemma TakenRows(cfg: Config, s: State)
    requires WorkInv(cfg, s) && s.work.tally.lostUnwritten == []
    requires forall pc <- s.work.pcs :: !IsUnwritten(pc)
    ensures RowBag(cfg.decode, s.chan.dequeued) == s.sink.accepted.ToBag()
  {
    TakenBag(cfg, s);
    SinkTheorems.BagUnit(s.sink.accepted.ToBag());
  }

  // --------------------------------------------------------------- accounting

  /** Every job is undecodable, a trade, a log, or an event without a payload. */
  lemma {:induction false} KindsPartition(decode: Bytes -> Option<Event>, jobs: seq<Job>)
    ensures |jobs| == Failures(decode, jobs) + |RowsOfJobs(decode, jobs).trades| + |RowsOfJobs(decode, jobs).logs|
                      + Plain(decode, jobs)
  {
    if jobs != [] {
      KindsPartition(decode, jobs[..|jobs| - 1]);
    }
  }

  lemma {:induction false} AllDecode(decode: Bytes -> Option<Event>, jobs: seq<Job>)
    requires forall j <- jobs :: decode(j.data).Some?
    ensures Failures(decode, jobs) == 0
  {
    if jobs != [] {
      AllDecode(decode, jobs[..|jobs| - 1]);
    }
  }

  lemma {:induction false} NoneDecodes(decode: Bytes -> Option<Event>, jobs: seq<Job>)
    requires forall j <- jobs :: decode(j.data).None?
    ensures Failures(decode, jobs) == |jobs|
  {
    if jobs != [] {
      NoneDecodes(decode, jobs[..|jobs| - 1]);
    }
  }

  /**
   Accounting.  Every frame read is in a handler's hands, queued, in a worker's hands, finished, or lost to a
   panic, one per panic; every trade (log) counted is a row the sink accepted, one still on its way there, or
   one lost on the way; errors are the undecodable frames and the failed writes; every other finished job was
   observed.
   */
  lemma Accounting(cfg: Config, initial: Batch, acts: seq<Action>, s: State)
    requires Reaches(cfg, initial, acts, s)
    ensures var t := s.work.tally;
            && s.net.framesRead == Sum(s.net.handlers, HeldFrames) + |s.chan.queue| + Sum(s.work.pcs, Busy)
                                   + t.finished + |t.lostUnwritten| + |t.lostWritten|
            && |t.lostUnwritten| + |t.lostWritten| == Sum(s.work.pcs, Lost)
    ensures s.work.metrics.trade == |s.sink.accepted.trades| + Sum(s.work.pcs, PendingTrade)
                                    + |RowsOfJobs(cfg.decode, s.work.tally.lostCounted).trades|
    ensures s.work.metrics.log == |s.sink.accepted.logs| + Sum(s.work.pcs, PendingLog)
                                  + |RowsOfJobs(cfg.decode, s.work.tally.lostCounted).logs|
    ensures s.work.metrics.errors == |s.work.tally.failed| + s.work.tally.sinkErrors
    ensures s.work.metrics.observed == s.work.tally.finished - |s.work.tally.failed|
  {
    ReachedInv(cfg, initial, acts, s);
  }

  /**
   Finished jobs.  In every state, the jobs finished, those past the sink's buffers and not yet finished, and those
   lost to a panic there are the undecodable ones, one per row accepted, and the events without a payload.
   */
  lemma FinishedJobs(cfg: Config, initial: Batch, acts: seq<Action>, s: State)
    requires Reaches(cfg, initial, acts, s)
    ensures var t := s.work.tally;
            t.finished + Sum(s.work.pcs, WrittenInHand) + |t.lostWritten| ==
            |t.failed| + |s.sink.accepted.trades| + |s.sink.accepted.logs| + Plain(cfg.decode, t.written)
    ensures forall j <- s.work.tally.failed :: cfg.decode(j.data).None?
    ensures s.sink.accepted == RowsOfJobs(cfg.decode, s.work.tally.written)
  {
    ReachedInv(cfg, initial, acts, s);
    KindsPartition(cfg.decode, s.work.tally.written);
    AllDecode(cfg.decode, s.work.tally.written);
  }

  /** A worker counts an error for a write exactly when the batch that write flushed was dropped. */
  lemma SinkErrorsCounted(cfg: Config, initial: Batch, acts: seq<Action>, s: State, w: nat)
    requires Reaches(cfg, initial, acts, s) && WorkEnabled(cfg, s, Return(w))
    ensures var h := s.sink.pcs[Sink.Writer(w)].flushed;
            NextWork(cfg, s, Return(w)).work.metrics.errors ==
            s.work.metrics.errors
            + if h.Hand? && h.id < |s.sink.log| && s.sink.log[h.id].status == Sink.Dropped then 1 else 0
  {
    ReachedInv(cfg, initial, acts, s);
    ReturnCounts(cfg, s, w);
  }

  lemma ReturnCounts(cfg: Config, s: State, w: nat)
    requires SinkSafety.ShapeInv(s.sink) && SinkSafety.ReturnInv(s.sink) && WorkEnabled(cfg, s, Return(w))
    ensures var h := s.sink.pcs[Sink.Writer(w)].flushed;
            NextWork(cfg, s, Return(w)).work.metrics.errors ==
            s.work.metrics.errors
            + if h.Hand? && h.id < |s.sink.log| && s.sink.log[h.id].status == Sink.Dropped then 1 else 0
  {
    assert SinkSafety.PcFits(Sink.Writer(w), s.sink.pcs[Sink.Writer(w)]);
  }

  /**
   With every worker between jobs and none lost, the counters are exact: trades, logs, undecodable jobs and events
   without a payload among the jobs taken from the queue.
   */
  lemma AccountingAtRest(cfg: Config, initial: Batch, acts: seq<Action>, s: State)
    requires Reaches(cfg, initial, acts, s)
    requires forall pc <- s.work.pcs :: pc.Ranging? || pc.Done?
    ensures var m, t, jobs := s.work.metrics, s.work.tally, s.chan.dequeued;
            && m.trade == |RowsOfJobs(cfg.decode, jobs).trades| && m.log == |RowsOfJobs(cfg.decode, jobs).logs|
            && t.finished == |jobs| && |t.failed| == Failures(cfg.decode, jobs)
            && t.finished == Failures(cfg.decode, jobs) + m.trade + m.log + Plain(cfg.decode, jobs)
            && m.observed == m.trade + m.log + Plain(cfg.decode, jobs)
            && m.errors == Failures(cfg.decode, jobs) + t.sinkErrors
  {
    ReachedInv(cfg, initial, acts, s);
    RestSums(s.work.pcs);
    TakenRows(cfg, s);
    SameSizes(RowsOfJobs(cfg.decode, s.chan.dequeued), s.sink.accepted);
    TakenFailures(cfg, s);
    KindsPartition(cfg.decode, s.chan.dequeued);
  }

  lemma TakenFailures(cfg: Config, s: State)
    requires WorkInv(cfg, s) && s.work.tally.lostUnwritten == []
    requires forall pc <- s.work.pcs :: !IsUnwritten(pc)
    ensures Failures(cfg.decode, s.chan.dequeued) == |s.work.tally.failed|
  {
    var t := s.work.tally;
    UnwrittenNone(s.work.pcs);
    assert multiset(t.written + t.failed) == multiset(t.written) + multiset(t.failed);
    FailuresPermute(cfg.decode, s.chan.dequeued, t.written + t.failed);
    FailuresAppend(cfg.decode, t.written, t.failed);
    AllDecode(cfg.decode, t.written);
    NoneDecodes(cfg.decode, t.failed);
  }

  lemma RestSums(pcs: seq<WorkerPc>)
    requires forall pc <- pcs :: pc.Ranging? || pc.Done?
    ensures Sum(pcs, Busy) == 0 && Sum(pcs, Lost) == 0
    ensures Sum(pcs, PendingTrade) == 0 && Sum(pcs, PendingLog) == 0 && Sum(pcs, WrittenInHand) == 0
    ensures forall pc <- pcs :: !IsUnwritten(pc)
  {
    SumZero(pcs, Busy);
    SumZero(pcs, Lost);
    SumZero(pcs, PendingTrade);
    SumZero(pcs, PendingLog);
    SumZero(pcs, WrittenInHand);
  }

  lemma SameSizes(a: Batch, b: Batch)
    requires a.ToBag() == b.ToBag()
    ensures |a.trades| == |b.trades| && |a.logs| == |b.logs|
  {
    assert |multiset(a.trades)| == |multiset(b.trades)| && |multiset(a.logs)| == |multiset(b.logs)|;
  }

  // ---------------------------------------------------------------- shutdown

  /** The WaitGroup counts the live workers, through panics too. */
  lemma WaitGroupCountsLive(cfg: Config, initial: Batch, acts: seq<Action>, s: State)
    requires Reaches(cfg, initial, acts, s)
    ensures |s.work.pcs| == cfg.workers && s.work.wg == Sum(s.work.pcs, Live) >= 0
  {
    ReachedInv(cfg, initial, acts, s);
    SumDominates(s.work.pcs, Live);
  }

  /** When wg.Wait returns, the queue is empty or every worker has panicked. */
  lemma WaitMeansDrained(cfg: Config, initial: Batch, acts: seq<Action>, s: State)
    requires Reaches(cfg, initial, acts, s) && PastWait(s.main)
    ensures s.chan.queue == [] || forall pc <- s.work.pcs :: pc.Panicked?
    ensures forall pc <- s.work.pcs :: pc.Done? || pc.Panicked?
  {
    ReachedInv(cfg, initial, acts, s);
    NoneLive(cfg, s);
  }

  // ------------------------------------------------------------------ the drain

  /** With no worker on its way, the jobs ever enqueued are written, undecodable, lost or still queued. */
  lemma EnqueuedRows(cfg: Config, s: State)
    requires WorkInv(cfg, s) && ChanInv(cfg, s.chan)
    requires forall pc <- s.work.pcs :: !IsUnwritten(pc)
    ensures RowBag(cfg.decode, s.chan.enqueued) ==
            s.sink.accepted.ToBag().Plus(RowBag(cfg.decode, s.work.tally.lostUnwritten))
            .Plus(RowBag(cfg.decode, s.chan.queue))
  {
    TakenBag(cfg, s);
    RowBagAppend(cfg.decode, s.chan.dequeued, s.chan.queue);
  }

  /**
   Drain with failures.  When main has returned, the rows of the frames ever enqueued are, each
   once: committed, in a batch whose flush failed, in a job lost to a panic before it reached the
   sink, or in a job left on the queue because every worker panicked; and the tables hold what
   they held at the start and the committed rows.
   */
  lemma DrainAccounts(cfg: Config, initial: Batch, acts: seq<Action>, s: State)
    requires Reaches(cfg, initial, acts, s) && s.main.Returned?
    ensures RowBag(cfg.decode, s.chan.enqueued) ==
            Sink.WithStatus(s.sink.log, Sink.Committed).ToBag()
            .Plus(Sink.WithStatus(s.sink.log, Sink.Dropped).ToBag())
            .Plus(RowBag(cfg.decode, s.work.tally.lostUnwritten)).Plus(RowBag(cfg.decode, s.chan.queue))
    ensures s.sink.tables.ToBag() == initial.ToBag().Plus(Sink.WithStatus(s.sink.log, Sink.Committed).ToBag())
    ensures s.sink.buffer == NO_ROWS
  {
    ReachedInv(cfg, initial, acts, s);
    NoneLive(cfg, s);
    EnqueuedRows(cfg, s);
    SinkTheorems.ClosedMeansEmpty(s.sink, initial);
  }

  /**
   End-to-end drain.  A run in which main returns, no worker panics and no flush fails leaves in the
   tables, besides what was there, exactly the rows of the frames ever enqueued, each once.
   */
  lemma EndToEndDrain(cfg: Config, initial: Batch, acts: seq<Action>, s: State)
    requires Reaches(cfg, initial, acts, s) && s.main.Returned? && cfg.workers > 0
    requires forall pc <- s.work.pcs :: !pc.Panicked?
    requires forall e <- s.sink.log :: e.status != Sink.Dropped
    ensures s.sink.tables.ToBag() == initial.ToBag().Plus(RowsOfJobs(cfg.decode, s.chan.enqueued).ToBag())
  {
    DrainAccounts(cfg, initial, acts, s);
    WaitMeansDrained(cfg, initial, acts, s);
    WaitGroupCountsLive(cfg, initial, acts, s);
    ReachedInv(cfg, initial, acts, s);
    SumZero(s.work.pcs, Lost);
    assert s.work.pcs[0] in s.work.pcs;
    assert forall i | 0 <= i < |s.sink.log| :: s.sink.log[i] in s.sink.log;
    SinkTheorems.NoneWithStatus(s.sink.log, Sink.Dropped);
    SinkTheorems.BagUnit(Sink.WithStatus(s.sink.log, Sink.Committed).ToBag());
  }

  // ---------------------------------------------------------- a sudden end

  lemma {:induction false} RunKeepsBatchSize(cfg: Config, s: State, acts: seq<Action>)
    requires Run(cfg, s, acts).Some?
    ensures Run(cfg, s, acts).value.sink.batchSize == s.sink.batchSize
  {
    if acts != [] {
      var m, a := Run(cfg, s, acts[..|acts| - 1]).value, acts[|acts| - 1];
      RunKeepsBatchSize(cfg, s, acts[..|acts| - 1]);
      if NetEnabled(cfg, m, a) {
        NetLeaves(cfg, m, a);
      } else if WorkEnabled(cfg, m, a) {
        SinkMoves(cfg, m, a);
        if b :| SinkActionOf(m, a) == Some(b) {
          SinkTheorems.StepKeepsBatchSize(m.sink, b);
        }
      }
    }
  }

  /** Only a handler that has not released its slot has a frame in hand. */
  lemma HeldBelowTokens(hs: seq<Handler>)
    ensures 0 <= Sum(hs, HeldFrames) <= Sum(hs, Token)
  {
    SumMonotone(hs, HeldFrames, Token);
    SumDominates(hs, HeldFrames);
  }

  lemma {:induction false} SumAtMost<T>(s: seq<T>, f: T -> int)
    requires forall x <- s :: f(x) <= 1
    ensures Sum(s, f) <= |s|
  {
    if s != [] {
      SumAtMost(s[..|s| - 1], f);
    }
  }

  /**
   What a crash can lose.  At any moment the frames read and not yet taken by a worker are at most one per connection
   slot and a full queue, the jobs in workers' hands at most one per worker, and the rows accepted and neither
   committed nor given up at most a full buffer and a full batch for each worker, the ticker and Close.
   */
  lemma CrashLosesAtMost(cfg: Config, initial: Batch, acts: seq<Action>, s: State)
    requires Reaches(cfg, initial, acts, s) && cfg.batchSize > 0
    ensures s.net.framesRead - |s.chan.dequeued| <= cfg.maxConns + cfg.queueDepth
    ensures Sum(s.work.pcs, Busy) <= cfg.workers
    ensures s.sink.accepted.Size() <= Sink.WithStatus(s.sink.log, Sink.Committed).Size()
                                      + Sink.WithStatus(s.sink.log, Sink.Dropped).Size()
                                      + cfg.batchSize * (cfg.workers + 3)
  {
    FramesUnderWay(cfg, initial, acts, s);
    SinkUnderWay(cfg, initial, acts, s);
  }

  lemma FramesUnderWay(cfg: Config, initial: Batch, acts: seq<Action>, s: State)
    requires Reaches(cfg, initial, acts, s)
    ensures s.net.framesRead - |s.chan.dequeued| <= cfg.maxConns + cfg.queueDepth
    ensures Sum(s.work.pcs, Busy) <= cfg.workers
  {
    ReachedInv(cfg, initial, acts, s);
    HeldBelowTokens(s.net.handlers);
    SumAtMost(s.work.pcs, Busy);
  }

  lemma SinkUnderWay(cfg: Config, initial: Batch, acts: seq<Action>, s: State)
    requires Reaches(cfg, initial, acts, s) && cfg.batchSize > 0
    ensures s.sink.accepted.Size() <= Sink.WithStatus(s.sink.log, Sink.Committed).Size()
                                      + Sink.WithStatus(s.sink.log, Sink.Dropped).Size()
                                      + cfg.batchSize * (cfg.workers + 3)
  {
    ReachedInv(cfg, initial, acts, s);
    RunKeepsBatchSize(cfg, Init(cfg, initial), acts);
    SinkThreads(cfg, s);
    SinkTheorems.UnsettledRows(s.sink, initial, cfg.workers);
  }

  lemma SinkThreads(cfg: Config, s: State)
    requires CoupleInv(s.work, s.sink) && |s.work.pcs| == cfg.workers
    ensures s.sink.pcs.Keys <= Sink.Threads(cfg.workers)
  {
    forall t <- s.sink.pcs ensures t in Sink.Threads(cfg.workers) {
      assert t.Writer? ==> t == Sink.Writer(t.id);
    }
  }
}
