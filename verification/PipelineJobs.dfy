/** Where every job is, and how the workers' calls into the sink fit the sink's own threads. */
module PipelineJobs {
  import opened Wrappers
  import opened Events
  import opened Frame
  import opened Sequences
  import opened Pipeline
  import opened PipelineSafety
  import Sink = SinkProtocol
  import SinkSafety

  // ------------------------------------------------------ workers in the sink

  /** A worker is inside s.Write exactly while its thread of the sink is, and they agree how far it got. */
  predicate Coupled(pc: WorkerPc, spc: Sink.Pc)
  {
    match pc
    case Writing(_, e, false) => spc == Sink.AtLock(Some(e)) || spc == Sink.Locked(Some(e))
    case Writing(_, _, true) => spc.Appended? || spc.AtUnlock? || spc.AtBegin? || spc.InTx? || spc.Returned?
    case Panicked => spc.Idle? || spc.Crashed?
    case _ => spc.Idle?
  }

  ghost predicate CoupleInv(work: Work, sink: Sink.State)
  {
    && (forall w | 0 <= w < |work.pcs| ::
          Sink.Writer(w) in sink.pcs && Coupled(work.pcs[w], sink.pcs[Sink.Writer(w)]))
    && (forall t <- sink.pcs | t.Writer? :: t.id < |work.pcs|)
  }

  /** A worker that moves outside the sink leaves its sink thread idle. */
  lemma OutsideCoupled(cfg: Config, s: State, a: Action)
    requires CoupleInv(s.work, s.sink) && WorkEnabled(cfg, s, a)
    requires a.Receive? || a.Finish? || a.Unmarshal? || a.Count? || a.Observe?
    ensures var s' := NextWork(cfg, s, a);
            && a.w < |s'.work.pcs| && Sink.Writer(a.w) in s'.sink.pcs
            && Coupled(s'.work.pcs[a.w], s'.sink.pcs[Sink.Writer(a.w)])
  {
    assert Coupled(s.work.pcs[a.w], s.sink.pcs[Sink.Writer(a.w)]);
  }

  /** A worker that enters, leaves or moves inside the sink takes its sink thread along. */
  lemma InsideCoupled(cfg: Config, s: State, a: Action, w: nat)
    requires CoupleInv(s.work, s.sink) && WorkEnabled(cfg, s, a) && WorkerOf(a) == Some(w)
    requires a.Call? || a.Return? || a.Panic? || a.SinkStep?
    ensures var s' := NextWork(cfg, s, a);
            && w < |s'.work.pcs| && Sink.Writer(w) in s'.sink.pcs
            && Coupled(s'.work.pcs[w], s'.sink.pcs[Sink.Writer(w)])
  {
    assert Coupled(s.work.pcs[w], s.sink.pcs[Sink.Writer(w)]);
  }

  /** So does a worker whose sink thread takes a step without it. */
  lemma SinkCoupled(cfg: Config, s: State, a: Action, w: nat)
    requires CoupleInv(s.work, s.sink) && WorkEnabled(cfg, s, a)
    requires a.SinkStep? && !a.a.Append? && Sink.Actor(a.a) == Sink.Writer(w)
    ensures var s' := NextWork(cfg, s, a);
            && w < |s'.work.pcs| && Sink.Writer(w) in s'.sink.pcs
            && Coupled(s'.work.pcs[w], s'.sink.pcs[Sink.Writer(w)])
  {
    assert w < |s.work.pcs| && Coupled(s.work.pcs[w], s.sink.pcs[Sink.Writer(w)]);
  }

  lemma OthersStay(cfg: Config, s: State, a: Action, w: nat)
    requires WorkEnabled(cfg, s, a) && w < |s.work.pcs|
    requires WorkerOf(a) != Some(w) && !(a.SinkStep? && Sink.Actor(a.a) == Sink.Writer(w))
    requires Sink.Writer(w) in s.sink.pcs
    ensures var s' := NextWork(cfg, s, a);
            && w < |s'.work.pcs| && s'.work.pcs[w] == s.work.pcs[w]
            && Sink.Writer(w) in s'.sink.pcs && s'.sink.pcs[Sink.Writer(w)] == s.sink.pcs[Sink.Writer(w)]
  {
    OneWorkerMoves(cfg, s, a);
    SinkMoves(cfg, s, a);
  }

  /** The step a worker's or sink thread's action takes inside the sink, if any. */
  function SinkActionOf(s: State, a: Action): Option<Sink.Action>
  {
    match a
    case Call(w) =>
      if w < |s.work.pcs| && s.work.pcs[w].Calling? then Some(Sink.Invoke(Sink.Writer(w), s.work.pcs[w].event))
      else None
    case Return(w) => Some(Sink.Finish(Sink.Writer(w)))
    case Panic(w) =>
      if w < |s.work.pcs| && s.work.pcs[w].Writing? then Some(Sink.Panic(Sink.Writer(w))) else None
    case SinkStep(b) => Some(b)
    case _ => None
  }

  lemma SinkMoves(cfg: Config, s: State, a: Action)
    requires WorkEnabled(cfg, s, a)
    ensures var s', b := NextWork(cfg, s, a), SinkActionOf(s, a);
            if b.None? then s'.sink == s.sink
            else Sink.Enabled(s.sink, b.value) && s'.sink == Sink.Next(s.sink, b.value)
                 && SinkSafety.OnlyMoves(s.sink, s'.sink, Sink.Actor(b.value))
                 && (Sink.Actor(b.value).Writer? ==>
                      WorkerOf(a) == Some(Sink.Actor(b.value).id) || a.SinkStep?)
  {
    if b :| SinkActionOf(s, a) == Some(b) && Sink.Enabled(s.sink, b) {
      SinkSafety.ActorMoves(s.sink, b);
    }
  }

  lemma CoupleStep(cfg: Config, s: State, a: Action)
    requires CoupleInv(s.work, s.sink) && WorkEnabled(cfg, s, a)
    ensures CoupleInv(NextWork(cfg, s, a).work, NextWork(cfg, s, a).sink)
  {
    var s' := NextWork(cfg, s, a);
    OneWorkerMoves(cfg, s, a);
    SinkMoves(cfg, s, a);
    forall w | 0 <= w < |s'.work.pcs|
      ensures Sink.Writer(w) in s'.sink.pcs && Coupled(s'.work.pcs[w], s'.sink.pcs[Sink.Writer(w)])
    {
      if WorkerOf(a) == Some(w) || (a.SinkStep? && Sink.Actor(a.a) == Sink.Writer(w)) {
        if a.Call? || a.Return? || a.Panic? || (a.SinkStep? && a.a.Append?) {
          InsideCoupled(cfg, s, a, w);
        } else if a.SinkStep? {
          SinkCoupled(cfg, s, a, w);
        } else {
          OutsideCoupled(cfg, s, a);
        }
      } else {
        OthersStay(cfg, s, a, w);
      }
    }
  }

  // ------------------------------------------------------------ jobs and rows

  /** Events in workers' hands are what their jobs decode to, and failed jobs do not decode. */
  ghost predicate DecodeInv(cfg: Config, work: Work)
  {
    && (forall pc <- work.pcs | HasJob(pc) && !pc.Unmarshaling? :: cfg.decode(pc.job.data) == Some(pc.event))
    && (forall j <- work.tally.failed :: cfg.decode(j.data) == None)
    && (forall j <- work.tally.written :: cfg.decode(j.data).Some?)
  }

  lemma DecodeStep(cfg: Config, s: State, a: Action)
    requires DecodeInv(cfg, s.work) && WorkEnabled(cfg, s, a)
    ensures DecodeInv(cfg, NextWork(cfg, s, a).work)
  {
    OneWorkerMoves(cfg, s, a);
  }

  /** The rows a job's frame stands for. */
  function JobRows(decode: Bytes -> Option<Event>, j: Job): Batch
  {
    match decode(j.data)
    case Some(e) => RowsOf(e)
    case None => NO_ROWS
  }

  function RowsOfJobs(decode: Bytes -> Option<Event>, jobs: seq<Job>): Batch
  {
    if jobs == [] then NO_ROWS
    else RowsOfJobs(decode, jobs[..|jobs| - 1]).Plus(JobRows(decode, jobs[|jobs| - 1]))
  }

  lemma RowsSnoc(decode: Bytes -> Option<Event>, jobs: seq<Job>, j: Job)
    ensures RowsOfJobs(decode, jobs + [j]) == RowsOfJobs(decode, jobs).Plus(JobRows(decode, j))
  {
    assert (jobs + [j])[..|jobs|] == jobs;
  }

  predicate Undecodable(decode: Bytes -> Option<Event>, j: Job)
  {
    decode(j.data).None?
  }

  function Failures(decode: Bytes -> Option<Event>, jobs: seq<Job>): nat
  {
    if jobs == [] then 0
    else Failures(decode, jobs[..|jobs| - 1]) + if Undecodable(decode, jobs[|jobs| - 1]) then 1 else 0
  }

  /** Jobs that decode to an event without a payload. */
  function Plain(decode: Bytes -> Option<Event>, jobs: seq<Job>): nat
  {
    if jobs == [] then 0
    else
      var e := decode(jobs[|jobs| - 1].data);
      Plain(decode, jobs[..|jobs| - 1]) + if e.Some? && e.value.payload.NoPayload? then 1 else 0
  }

  /** The sink has accepted the rows of the written jobs, in the order they were written. */
  ghost predicate WrittenInv(cfg: Config, work: Work, sink: Sink.State)
  {
    sink.accepted == RowsOfJobs(cfg.decode, work.tally.written)
  }

  lemma WrittenStep(cfg: Config, s: State, a: Action)
    requires CoupleInv(s.work, s.sink) && DecodeInv(cfg, s.work) && WrittenInv(cfg, s.work, s.sink)
    requires WorkEnabled(cfg, s, a)
    ensures WrittenInv(cfg, NextWork(cfg, s, a).work, NextWork(cfg, s, a).sink)
  {
    if a.SinkStep? && a.a.Append? {
      WrittenAppend(cfg, s, a);
    } else {
      AcceptedStays(cfg, s, a);
    }
  }

  lemma WrittenAppend(cfg: Config, s: State, a: Action)
    requires CoupleInv(s.work, s.sink) && DecodeInv(cfg, s.work) && WrittenInv(cfg, s.work, s.sink)
    requires WorkEnabled(cfg, s, a) && a.SinkStep? && a.a.Append?
    ensures WrittenInv(cfg, NextWork(cfg, s, a).work, NextWork(cfg, s, a).sink)
  {
    AppendMoves(cfg, s, a);
    RowsSnoc(cfg.decode, s.work.tally.written, s.work.pcs[a.a.t.id].job);
  }

  /** The thread that appends has the event of its worker's job. */
  lemma AppendMoves(cfg: Config, s: State, a: Action)
    requires CoupleInv(s.work, s.sink) && DecodeInv(cfg, s.work)
    requires WorkEnabled(cfg, s, a) && a.SinkStep? && a.a.Append?
    ensures var job := s.work.pcs[a.a.t.id].job;
            && NextWork(cfg, s, a).sink.accepted == s.sink.accepted.Plus(JobRows(cfg.decode, job))
            && NextWork(cfg, s, a).work.tally.written == s.work.tally.written + [job]
  {
    var pc := s.work.pcs[a.a.t.id];
    SinkSafety.ActorMoves(s.sink, a.a);
    assert Coupled(pc, s.sink.pcs[a.a.t]);
    assert pc in s.work.pcs && cfg.decode(pc.job.data) == Some(pc.event);
  }

  lemma AcceptedStays(cfg: Config, s: State, a: Action)
    requires WorkEnabled(cfg, s, a) && !(a.SinkStep? && a.a.Append?)
    ensures NextWork(cfg, s, a).sink.accepted == s.sink.accepted
    ensures NextWork(cfg, s, a).work.tally.written == s.work.tally.written
  {
    SinkMoves(cfg, s, a);
    if b :| SinkActionOf(s, a) == Some(b) {
      SinkSafety.ActorMoves(s.sink, b);
    }
  }

  // --------------------------------------------------------------- metrics

  /** A worker whose event has been counted but whose row is not yet in the sink's buffers. */
  predicate Pending(pc: WorkerPc)
  {
    pc.Calling? || (pc.Writing? && !pc.appended)
  }

  function PendingTrade(pc: WorkerPc): int
  {
    if Pending(pc) && pc.event.payload.TradePayload? then 1 else 0
  }

  function PendingLog(pc: WorkerPc): int
  {
    if Pending(pc) && pc.event.payload.LogPayload? then 1 else 0
  }

  function WrittenInHand(pc: WorkerPc): int
  {
    if pc.Observing? || (pc.Writing? && pc.appended) then 1 else 0
  }

  /** Each counted event is one accepted row, one on its way, or one lost to a panic on the way. */
  ghost predicate KindsInv(cfg: Config, work: Work)
  {
    var m, t := work.metrics, work.tally;
    var written, lost := RowsOfJobs(cfg.decode, t.written), RowsOfJobs(cfg.decode, t.lostCounted);
    && m.trade == |written.trades| + Sum(work.pcs, PendingTrade) + |lost.trades|
    && m.log == |written.logs| + Sum(work.pcs, PendingLog) + |lost.logs|
  }

  /** Errors and observations, and the written jobs by what became of them. */
  ghost predicate FinishedInv(work: Work)
  {
    var m, t := work.metrics, work.tally;
    && m.errors == |t.failed| + t.sinkErrors
    && m.observed == t.finished - |t.failed|
    && |t.written| == m.observed + Sum(work.pcs, WrittenInHand) + |t.lostWritten|
  }

  /** What one worker's step does to the counts of one kind. */
  ghost predicate KindMoves(cfg: Config, work: Work, work': Work, w: nat)
  {
    && w < |work.pcs| == |work'.pcs| && work'.pcs == work.pcs[w := work'.pcs[w]]
    && var d, t, t' := cfg.decode, work.tally, work'.tally;
       var old', now := work.pcs[w], work'.pcs[w];
       && (t'.written == t.written || (HasJob(old') && t'.written == t.written + [old'.job]))
       && (t'.lostCounted == t.lostCounted || (HasJob(old') && t'.lostCounted == t.lostCounted + [old'.job]))
       && work'.metrics.trade - work.metrics.trade ==
          (if t'.written == t.written then 0 else |JobRows(d, old'.job).trades|)
          + PendingTrade(now) - PendingTrade(old')
          + (if t'.lostCounted == t.lostCounted then 0 else |JobRows(d, old'.job).trades|)
       && work'.metrics.log - work.metrics.log ==
          (if t'.written == t.written then 0 else |JobRows(d, old'.job).logs|)
          + PendingLog(now) - PendingLog(old')
          + (if t'.lostCounted == t.lostCounted then 0 else |JobRows(d, old'.job).logs|)
  }

  lemma KindKind(cfg: Config, s: State, a: Action, w: nat)
    requires CoupleInv(s.work, s.sink) && DecodeInv(cfg, s.work) && WorkEnabled(cfg, s, a) && WorkerOf(a) == Some(w)
    ensures KindMoves(cfg, s.work, NextWork(cfg, s, a).work, w)
  {
    OneWorkerMoves(cfg, s, a);
    assert s.work.pcs[w] in s.work.pcs && Coupled(s.work.pcs[w], s.sink.pcs[Sink.Writer(w)]);
  }

  lemma KindsMove(cfg: Config, work: Work, work': Work, w: nat)
    requires KindsInv(cfg, work) && KindMoves(cfg, work, work', w)
    ensures KindsInv(cfg, work')
  {
    SumUpdate(work.pcs, w, work'.pcs[w], PendingTrade);
    SumUpdate(work.pcs, w, work'.pcs[w], PendingLog);
    if HasJob(work.pcs[w]) {
      RowsSnoc(cfg.decode, work.tally.written, work.pcs[w].job);
      RowsSnoc(cfg.decode, work.tally.lostCounted, work.pcs[w].job);
    }
  }

  lemma KindsStep(cfg: Config, s: State, a: Action)
    requires CoupleInv(s.work, s.sink) && DecodeInv(cfg, s.work) && KindsInv(cfg, s.work) && WorkEnabled(cfg, s, a)
    ensures KindsInv(cfg, NextWork(cfg, s, a).work)
  {
    OneWorkerMoves(cfg, s, a);
    if w :| WorkerOf(a) == Some(w) {
      KindKind(cfg, s, a, w);
      KindsMove(cfg, s.work, NextWork(cfg, s, a).work, w);
    }
  }

  /** What one worker's step does to the counts of errors, observations and written jobs. */
  ghost predicate FinishMoves(work: Work, work': Work, w: nat)
  {
    && w < |work.pcs| == |work'.pcs| && work'.pcs == work.pcs[w := work'.pcs[w]]
    && var m, m', t, t' := work.metrics, work'.metrics, work.tally, work'.tally;
       && m'.errors - m.errors == |t'.failed| + t'.sinkErrors - |t.failed| - t.sinkErrors
       && m'.observed - m.observed == t'.finished - |t'.failed| - t.finished + |t.failed|
       && |t'.written| - |t.written| ==
          m'.observed - m.observed + WrittenInHand(work'.pcs[w]) - WrittenInHand(work.pcs[w])
          + |t'.lostWritten| - |t.lostWritten|
  }

  lemma FinishKind(cfg: Config, s: State, a: Action, w: nat)
    requires CoupleInv(s.work, s.sink) && WorkEnabled(cfg, s, a) && WorkerOf(a) == Some(w)
    ensures FinishMoves(s.work, NextWork(cfg, s, a).work, w)
  {
    OneWorkerMoves(cfg, s, a);
    assert Coupled(s.work.pcs[w], s.sink.pcs[Sink.Writer(w)]);
  }

  lemma FinishedStep(cfg: Config, s: State, a: Action)
    requires CoupleInv(s.work, s.sink) && FinishedInv(s.work) && WorkEnabled(cfg, s, a)
    ensures FinishedInv(NextWork(cfg, s, a).work)
  {
    OneWorkerMoves(cfg, s, a);
    if w :| WorkerOf(a) == Some(w) {
      FinishKind(cfg, s, a, w);
      FinishedMoves(s.work, NextWork(cfg, s, a).work, w);
    }
  }

  lemma FinishedMoves(work: Work, work': Work, w: nat)
    requires FinishedInv(work) && FinishMoves(work, work', w)
    ensures FinishedInv(work')
  {
    SumUpdate(work.pcs, w, work'.pcs[w], WrittenInHand);
  }

  // ------------------------------------------------------ where every job is

  predicate IsUnwritten(pc: WorkerPc)
  {
    HasJob(pc) && !pc.Observing? && !(pc.Writing? && pc.appended)
  }

  /** The job a worker holds that has not reached the sink's buffers. */
  function UnwrittenBy(pc: WorkerPc): multiset<Job>
  {
    if IsUnwritten(pc) then multiset{pc.job} else multiset{}
  }

  function Unwritten(pcs: seq<WorkerPc>): multiset<Job>
  {
    if pcs == [] then multiset{} else Unwritten(pcs[..|pcs| - 1]) + UnwrittenBy(pcs[|pcs| - 1])
  }

  lemma LastChanges<T>(u: multiset<T>, u': multiset<T>, r: multiset<T>, x: multiset<T>, y: multiset<T>)
    requires u == r + x && u' == r + y
    ensures u' + x == u + y
  {
  }

  lemma FrontChanges<T>(u: multiset<T>, u': multiset<T>, r: multiset<T>, r': multiset<T>, last: multiset<T>,
                        x: multiset<T>, y: multiset<T>)
    requires u == r + last && u' == r' + last && r' + x == r + y
    ensures u' + x == u + y
  {
    assert u' + x == (r' + x) + last && u + y == (r + y) + last;
  }

  lemma UnwrittenLast(pcs: seq<WorkerPc>, front: seq<WorkerPc>, pc: WorkerPc)
    requires pcs == front + [pc]
    ensures Unwritten(pcs) == Unwritten(front) + UnwrittenBy(pc)
  {
    assert pcs[..|pcs| - 1] == front && pcs[|pcs| - 1] == pc;
  }

  lemma UpdateBeforeLast(pcs: seq<WorkerPc>, w: nat, pc: WorkerPc)
    requires w < |pcs| - 1
    ensures pcs[w := pc] == pcs[..|pcs| - 1][w := pc] + [pcs[|pcs| - 1]]
  {
  }

  lemma {:induction false} UnwrittenUpdate(pcs: seq<WorkerPc>, w: nat, pc: WorkerPc)
    requires w < |pcs|
    ensures Unwritten(pcs[w := pc]) + UnwrittenBy(pcs[w]) == Unwritten(pcs) + UnwrittenBy(pc)
  {
    var n, pcs' := |pcs| - 1, pcs[w := pc];
    var front := pcs[..n];
    UnwrittenLast(pcs, front, pcs[n]);
    if w == n {
      UnwrittenLast(pcs', front, pc);
      LastChanges(Unwritten(pcs), Unwritten(pcs'), Unwritten(front), UnwrittenBy(pcs[w]), UnwrittenBy(pc));
    } else {
      var front' := front[w := pc];
      UpdateBeforeLast(pcs, w, pc);
      UnwrittenLast(pcs', front', pcs[n]);
      UnwrittenUpdate(front, w, pc);
      FrontChanges(Unwritten(pcs), Unwritten(pcs'), Unwritten(front), Unwritten(front'), UnwrittenBy(pcs[n]),
                   UnwrittenBy(front[w]), UnwrittenBy(pc));
    }
  }

  /** The jobs whose way through the worker pool has come to the sink's buffers or to an end. */
  ghost function Settled(t: Tally): multiset<Job>
  {
    multiset(t.written) + multiset(t.failed) + multiset(t.lostUnwritten)
  }

  /** Every job taken from the channel was written, did not decode, was lost, or is still on its way. */
  ghost predicate WhereInv(work: Work, chan: Chan)
  {
    multiset(chan.dequeued) == Settled(work.tally) + Unwritten(work.pcs)
  }

  /** Jobs taken and jobs settled change by the same jobs, up to what the moving worker holds. */
  ghost predicate Balanced(work: Work, chan: Chan, work': Work, chan': Chan, old': multiset<Job>, now: multiset<Job>)
  {
    multiset(chan'.dequeued) + Settled(work.tally) + old' == multiset(chan.dequeued) + Settled(work'.tally) + now
  }

  lemma MultisetCancel<T>(d: multiset<T>, d': multiset<T>, p: multiset<T>, p': multiset<T>,
                          u: multiset<T>, u': multiset<T>, x: multiset<T>, y: multiset<T>)
    requires d == p + u && u' + x == u + y && d' + p + x == d + p' + y
    ensures d' == p' + u'
  {
    forall e ensures d'[e] == (p' + u')[e] {
      assert (d' + p + x)[e] == (d + p' + y)[e] && (u' + x)[e] == (u + y)[e] && d[e] == (p + u)[e];
    }
  }

  /** From t to t' the given jobs were written, failed, and lost unwritten. */
  predicate Tallies(t: Tally, t': Tally, written: seq<Job>, failed: seq<Job>, lost: seq<Job>)
  {
    && t'.written == t.written + written
    && t'.failed == t.failed + failed
    && t'.lostUnwritten == t.lostUnwritten + lost
  }

  /** The one job that moves, if any, and the places it moves between. */
  ghost predicate JobMoves(s: State, s': State, w: nat)
  {
    w < |s.work.pcs| == |s'.work.pcs| &&
    var old', now := s.work.pcs[w], s'.work.pcs[w];
    var t, t', d, d' := s.work.tally, s'.work.tally, s.chan.dequeued, s'.chan.dequeued;
    if IsUnwritten(old') && IsUnwritten(now) then now.job == old'.job && d' == d && Tallies(t, t', [], [], [])
    else if IsUnwritten(now) then d' == d + [now.job] && Tallies(t, t', [], [], [])
    else if IsUnwritten(old') then
      && d' == d
      && (Tallies(t, t', [old'.job], [], []) || Tallies(t, t', [], [old'.job], [])
          || Tallies(t, t', [], [], [old'.job]))
    else d' == d && Tallies(t, t', [], [], [])
  }

  lemma JobMovesBalance(s: State, s': State, w: nat)
    requires JobMoves(s, s', w)
    ensures Balanced(s.work, s.chan, s'.work, s'.chan, UnwrittenBy(s.work.pcs[w]), UnwrittenBy(s'.work.pcs[w]))
  {
  }

  /** Steps at which a job enters the pool, or leaves for its end. */
  lemma JobEnters(cfg: Config, s: State, a: Action)
    requires WorkEnabled(cfg, s, a) && (a.Receive? || a.Unmarshal?)
    ensures JobMoves(s, NextWork(cfg, s, a), a.w)
  {
  }

  lemma JobLeaves(cfg: Config, s: State, a: Action, w: nat)
    requires CoupleInv(s.work, s.sink) && WorkEnabled(cfg, s, a) && WorkerOf(a) == Some(w) && (a.Panic? || a.SinkStep?)
    ensures JobMoves(s, NextWork(cfg, s, a), w)
  {
    assert Coupled(s.work.pcs[w], s.sink.pcs[Sink.Writer(w)]);
  }

  lemma JobStays(cfg: Config, s: State, a: Action)
    requires CoupleInv(s.work, s.sink) && WorkEnabled(cfg, s, a)
    requires a.Finish? || a.Count? || a.Call? || a.Return? || a.Observe?
    ensures JobMoves(s, NextWork(cfg, s, a), a.w)
  {
    assert Coupled(s.work.pcs[a.w], s.sink.pcs[Sink.Writer(a.w)]);
  }

  lemma JobStep(cfg: Config, s: State, a: Action, w: nat)
    requires CoupleInv(s.work, s.sink) && WorkEnabled(cfg, s, a) && WorkerOf(a) == Some(w)
    ensures JobMoves(s, NextWork(cfg, s, a), w)
  {
    match a
    case Receive(_) => JobEnters(cfg, s, a);
    case Unmarshal(_) => JobEnters(cfg, s, a);
    case Panic(_) => JobLeaves(cfg, s, a, w);
    case SinkStep(_) => JobLeaves(cfg, s, a, w);
    case _ => JobStays(cfg, s, a);
  }

  lemma WhereMoves(work: Work, chan: Chan, work': Work, chan': Chan, w: nat)
    requires WhereInv(work, chan) && w < |work.pcs| == |work'.pcs| && work'.pcs == work.pcs[w := work'.pcs[w]]
    requires Balanced(work, chan, work', chan', UnwrittenBy(work.pcs[w]), UnwrittenBy(work'.pcs[w]))
    ensures WhereInv(work', chan')
  {
    UnwrittenUpdate(work.pcs, w, work'.pcs[w]);
    MultisetCancel(multiset(chan.dequeued), multiset(chan'.dequeued), Settled(work.tally), Settled(work'.tally),
                   Unwritten(work.pcs), Unwritten(work'.pcs), UnwrittenBy(work.pcs[w]), UnwrittenBy(work'.pcs[w]));
  }

  lemma WhereStep(cfg: Config, s: State, a: Action)
    requires CoupleInv(s.work, s.sink) && WhereInv(s.work, s.chan) && WorkEnabled(cfg, s, a)
    ensures WhereInv(NextWork(cfg, s, a).work, NextWork(cfg, s, a).chan)
  {
    OneWorkerMoves(cfg, s, a);
    if w :| WorkerOf(a) == Some(w) {
      JobStep(cfg, s, a, w);
      JobMovesBalance(s, NextWork(cfg, s, a), w);
      WhereMoves(s.work, s.chan, NextWork(cfg, s, a).work, NextWork(cfg, s, a).chan, w);
    }
  }
}
