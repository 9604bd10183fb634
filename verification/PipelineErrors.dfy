/** What the error counter counts, told from the sink's own record of its flushes. */
module PipelineErrors {
  import opened Wrappers
  import opened Events
  import opened Sequences
  import opened Pipeline
  import opened PipelineSafety
  import opened PipelineJobs
  import opened PipelineRuns
  import opened PipelineTheorems
  import Sink = SinkProtocol
  import SinkSafety

  // ----------------------------------------------------------------- counting

  /** 1 for a batch that a Write detached and whose flush failed. */
  function FailedWrite(e: Sink.Entry): nat
  {
    if e.owner.Writer? && e.status.Dropped? then 1 else 0
  }

  function FailedWrites(log: seq<Sink.Entry>): nat
  {
    if log == [] then 0 else FailedWrites(log[..|log| - 1]) + FailedWrite(log[|log| - 1])
  }

  lemma FailedSnoc(log: seq<Sink.Entry>, e: Sink.Entry)
    ensures FailedWrites(log + [e]) == FailedWrites(log) + FailedWrite(e)
  {
    assert (log + [e])[..|log|] == log;
  }

  lemma {:induction false} FailedUpdate(log: seq<Sink.Entry>, i: nat, e: Sink.Entry)
    requires i < |log|
    ensures FailedWrites(log[i := e]) + FailedWrite(log[i]) == FailedWrites(log) + FailedWrite(e)
  {
    var n := |log| - 1;
    if i == n {
      assert log[i := e][..n] == log[..n];
    } else {
      assert log[i := e][..n] == log[..n][i := e];
      FailedUpdate(log[..n], i, e);
    }
  }

  /** 1 for a thread that is about to return an error. */
  function Reporting(pc: Sink.Pc): nat
  {
    if pc.Returned? && !pc.ok then 1 else 0
  }

  /** Writers about to return an error to their workers. */
  function Reports(pcs: map<Sink.Thread, Sink.Pc>, n: nat): nat
  {
    if n == 0 then 0
    else Reports(pcs, n - 1) + if Sink.Writer(n - 1) in pcs then Reporting(pcs[Sink.Writer(n - 1)]) else 0
  }

  lemma {:induction false} ReportsUpdate(pcs: map<Sink.Thread, Sink.Pc>, t: Sink.Thread, pc: Sink.Pc, n: nat)
    requires t in pcs
    ensures if t.Writer? && t.id < n
            then Reports(pcs[t := pc], n) + Reporting(pcs[t]) == Reports(pcs, n) + Reporting(pc)
            else Reports(pcs[t := pc], n) == Reports(pcs, n)
  {
    if n > 0 {
      ReportsUpdate(pcs, t, pc, n - 1);
    }
  }

  // --------------------------------------------------------------- one step

  /** A failed flush of a writer is about to be reported, unless a panic prevents it; nobody else's is counted. */
  lemma FailureMoves(s: Sink.State, b: Sink.Action)
    requires SinkSafety.ShapeInv(s) && SinkSafety.HandInv(s) && Sink.Enabled(s, b)
    ensures var s', t := Sink.Next(s, b), Sink.Actor(b);
            && t in s'.pcs
            && (!t.Writer? ==> FailedWrites(s'.log) == FailedWrites(s.log))
            && (t.Writer? && !b.Panic? && !b.Finish? ==>
                  FailedWrites(s'.log) + Reporting(s.pcs[t]) == FailedWrites(s.log) + Reporting(s'.pcs[t]))
            && (b.Finish? ==> FailedWrites(s'.log) == FailedWrites(s.log) && Reporting(s'.pcs[t]) == 0)
            && (b.Panic? ==>
                  && FailedWrites(s.log) <= FailedWrites(s'.log) && Reporting(s'.pcs[t]) == 0
                  && FailedWrites(s'.log) + Reporting(s.pcs[t]) <= FailedWrites(s.log) + 1)
  {
    var s', t := Sink.Next(s, b), Sink.Actor(b);
    SinkSafety.StepKind(s, b);
    ReportMoves(s, b);
    if SinkSafety.Detaches(s, s', t) {
      FailedSnoc(s.log, Sink.Entry(t, s.buffer, Sink.InFlight));
    } else if SinkSafety.Settles(s, s', t) {
      var i := s.pcs[t].InHand().id;
      FailedUpdate(s.log, i, s'.log[i]);
    }
  }

  /** A turn ends with an error exactly when it drops its batch. */
  lemma ReportMoves(s: Sink.State, b: Sink.Action)
    requires SinkSafety.ShapeInv(s) && SinkSafety.HandInv(s) && Sink.Enabled(s, b)
    ensures var s', t := Sink.Next(s, b), Sink.Actor(b);
            && t in s'.pcs
            && (b.Finish? || b.Panic? ==> Reporting(s'.pcs[t]) == 0)
            && (b.Finish? ==> s'.log == s.log)
            && (!b.Finish? && Reporting(s.pcs[t]) == 1 ==> b.Panic? && s'.log == s.log)
            && (!b.Panic? && Reporting(s'.pcs[t]) == 1 ==>
                  SinkSafety.Settles(s, s', t) && s'.log[s.pcs[t].InHand().id].status.Dropped?)
            && (!b.Panic? && SinkSafety.Settles(s, s', t) && s'.log[s.pcs[t].InHand().id].status.Dropped? ==>
                  Reporting(s'.pcs[t]) == 1)
  {
    assert SinkSafety.PcFits(Sink.Actor(b), s.pcs[Sink.Actor(b)]);
  }

  // ------------------------------------------------------------- every step

  /**
   Write errors counted and about to be counted are the failed flushes of writers, short by at most one per
   worker lost to a panic.
   */
  ghost predicate ErrorInv(work: Work, sink: Sink.State)
  {
    var reported := work.tally.sinkErrors + Reports(sink.pcs, |work.pcs|);
    reported <= FailedWrites(sink.log) <= reported + Sum(work.pcs, Lost)
  }

  /** What a step does to the counted write errors and the number of lost workers. */
  lemma CountMoves(cfg: Config, s: State, a: Action)
    requires WorkEnabled(cfg, s, a)
    ensures var work' := NextWork(cfg, s, a).work;
            && |work'.pcs| == |s.work.pcs|
            && work'.tally.sinkErrors ==
               s.work.tally.sinkErrors + (if a.Return? then Reporting(s.sink.pcs[Sink.Writer(a.w)]) else 0)
            && Sum(work'.pcs, Lost) == Sum(s.work.pcs, Lost) + if a.Panic? then 1 else 0
  {
    var work' := NextWork(cfg, s, a).work;
    OneWorkerMoves(cfg, s, a);
    if w :| WorkerOf(a) == Some(w) {
      SumUpdate(s.work.pcs, w, work'.pcs[w], Lost);
    }
  }

  lemma ErrorMoves(s: Sink.State, b: Sink.Action, work: Work, work': Work)
    requires SinkSafety.ShapeInv(s) && SinkSafety.HandInv(s) && Sink.Enabled(s, b) && ErrorInv(work, s)
    requires Sink.Actor(b).Writer? ==> Sink.Actor(b).id < |work.pcs|
    requires |work'.pcs| == |work.pcs|
    requires work'.tally.sinkErrors ==
             work.tally.sinkErrors + if b.Finish? && b.t.Writer? then Reporting(s.pcs[b.t]) else 0
    requires Sum(work'.pcs, Lost) == Sum(work.pcs, Lost) + if b.Panic? then 1 else 0
    ensures ErrorInv(work', Sink.Next(s, b))
  {
    var s', t := Sink.Next(s, b), Sink.Actor(b);
    SinkSafety.ActorMoves(s, b);
    FailureMoves(s, b);
    ReportsUpdate(s.pcs, t, s'.pcs[t], |work.pcs|);
  }

  lemma ErrorStep(cfg: Config, s: State, a: Action)
    requires CoupleInv(s.work, s.sink) && SinkSafety.ShapeInv(s.sink) && SinkSafety.HandInv(s.sink)
    requires ErrorInv(s.work, s.sink) && WorkEnabled(cfg, s, a)
    ensures ErrorInv(NextWork(cfg, s, a).work, NextWork(cfg, s, a).sink)
  {
    CountMoves(cfg, s, a);
    SinkMoves(cfg, s, a);
    var b := SinkActionOf(s, a);
    if b.Some? {
      assert a.SinkStep? && b.value.Finish? ==> b.value.t.Flusher?;
      ErrorMoves(s.sink, b.value, s.work, NextWork(cfg, s, a).work);
    }
  }

  lemma ErrorMain(s: State, a: Action)
    requires CoupleInv(s.work, s.sink) && SinkSafety.ShapeInv(s.sink) && SinkSafety.HandInv(s.sink)
    requires ErrorInv(s.work, s.sink) && MainEnabled(s, a)
    ensures ErrorInv(NextMain(s, a).work, NextMain(s, a).sink)
  {
    if a.CallClose? {
      ErrorMoves(s.sink, Sink.BeginClose, s.work, s.work);
    } else if a.CloseDone? {
      ErrorMoves(s.sink, Sink.Finish(Sink.Closer), s.work, s.work);
    }
  }

  lemma {:induction false} NoReports(pcs: map<Sink.Thread, Sink.Pc>, n: nat)
    requires forall t <- pcs | t.Writer? :: Reporting(pcs[t]) == 0
    ensures Reports(pcs, n) == 0
  {
    if n > 0 {
      NoReports(pcs, n - 1);
    }
  }

  lemma {:induction false} ErrorRun(cfg: Config, initial: Batch, acts: seq<Action>)
    requires Run(cfg, Init(cfg, initial), acts).Some?
    ensures var z := Run(cfg, Init(cfg, initial), acts).value; ErrorInv(z.work, z.sink)
  {
    var s := Init(cfg, initial);
    if acts == [] {
      NoReports(s.sink.pcs, |s.work.pcs|);
      SumAllEqual(cfg.workers, Ranging, Lost);
    } else {
      var m, a := Run(cfg, s, acts[..|acts| - 1]).value, acts[|acts| - 1];
      ErrorRun(cfg, initial, acts[..|acts| - 1]);
      ReachedInv(cfg, initial, acts[..|acts| - 1], m);
      ErrorNext(cfg, m, a);
    }
  }

  lemma ErrorNext(cfg: Config, s: State, a: Action)
    requires CoupleInv(s.work, s.sink) && SinkSafety.ShapeInv(s.sink) && SinkSafety.HandInv(s.sink)
    requires ErrorInv(s.work, s.sink) && Enabled(cfg, s, a)
    ensures ErrorInv(Next(cfg, s, a).work, Next(cfg, s, a).sink)
  {
    if NetEnabled(cfg, s, a) {
      NetLeaves(cfg, s, a);
    } else if WorkEnabled(cfg, s, a) {
      ErrorStep(cfg, s, a);
    } else {
      ErrorMain(s, a);
    }
  }

  // -------------------------------------------------------------- the theorem

  /**
   What the error counter counts.  Over every run it is the undecodable jobs and the batches detached by Write whose
   flush failed, except those whose worker is about to count them, and at most one per worker that panicked.
   Failed flushes of the ticker and of Close are never counted.
   */
  lemma ErrorsCountFailedWrites(cfg: Config, initial: Batch, acts: seq<Action>, s: State)
    requires Reaches(cfg, initial, acts, s)
    ensures var counted := s.work.metrics.errors + Reports(s.sink.pcs, cfg.workers);
            counted <= |s.work.tally.failed| + FailedWrites(s.sink.log) <= counted + Sum(s.work.pcs, Lost)
    ensures (forall pc <- s.work.pcs :: !pc.Panicked?) ==>
              s.work.metrics.errors + Reports(s.sink.pcs, cfg.workers) ==
              |s.work.tally.failed| + FailedWrites(s.sink.log)
  {
    ErrorRun(cfg, initial, acts);
    Accounting(cfg, initial, acts, s);
    WaitGroupCountsLive(cfg, initial, acts, s);
    if forall pc <- s.work.pcs :: !pc.Panicked? {
      SumZero(s.work.pcs, Lost);
    }
  }

  /** With every worker between jobs and none lost: exactly the undecodable jobs taken and the failed writes. */
  lemma ErrorsAtRest(cfg: Config, initial: Batch, acts: seq<Action>, s: State)
    requires Reaches(cfg, initial, acts, s)
    requires forall pc <- s.work.pcs :: pc.Ranging? || pc.Done?
    ensures s.work.metrics.errors == Failures(cfg.decode, s.chan.dequeued) + FailedWrites(s.sink.log)
  {
    ErrorsCountFailedWrites(cfg, initial, acts, s);
    AccountingAtRest(cfg, initial, acts, s);
    RestingWriters(cfg, initial, acts, s);
    NoReports(s.sink.pcs, cfg.workers);
  }

  lemma RestingWriters(cfg: Config, initial: Batch, acts: seq<Action>, s: State)
    requires Reaches(cfg, initial, acts, s)
    requires forall pc <- s.work.pcs :: pc.Ranging? || pc.Done?
    ensures forall t <- s.sink.pcs | t.Writer? :: Reporting(s.sink.pcs[t]) == 0
  {
    ReachedInv(cfg, initial, acts, s);
    forall t <- s.sink.pcs | t.Writer? ensures Reporting(s.sink.pcs[t]) == 0 {
      assert Coupled(s.work.pcs[t.id], s.sink.pcs[Sink.Writer(t.id)]) && s.work.pcs[t.id] in s.work.pcs;
    }
  }
}
