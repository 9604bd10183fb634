/** The invariant of the whole server, over every run. */
module PipelineRuns {
  import opened Wrappers
  import opened Events
  import opened Frame
  import opened Sequences
  import opened Pipeline
  import opened PipelineSafety
  import opened PipelineJobs
  import Sink = SinkProtocol
  import SinkSafety
  import SinkTheorems

  predicate PastWait(main: MainPc)
  {
    main.Deferred? || main.Closing? || main.Returned?
  }

  /** What each stage of main has done, and what it may rely on. */
  ghost predicate ShutdownInv(s: State)
  {
    && Sink.Closer in s.sink.pcs
    && (s.chan.closed <==> s.main.Waiting? || PastWait(s.main))
    && (s.cancelled <==> s.main.Cancelled? || s.main.Waiting? || PastWait(s.main))
    && (s.sink.pcs[Sink.Closer].Idle? <==> !s.main.Closing? && !s.main.Returned?)
    && (s.main.Returned? <==> s.sink.pcs[Sink.Closer].Exited?)
    && (PastWait(s.main) ==> s.work.wg == 0 && SinkTheorems.Quiet(s.sink))
  }

  ghost predicate Inv(cfg: Config, initial: Batch, s: State)
  {
    && SemaphoreInv(cfg, s.net) && StreamInv(s.net, s.chan.enqueued)
    && ChanInv(cfg, s.chan) && ReadInv(s.net, s.chan)
    && WorkInv(cfg, s) && SinkSafety.Inv(s.sink, initial) && ShutdownInv(s)
  }

  ghost predicate WorkInv(cfg: Config, s: State)
  {
    && JobsInv(s.work, s.chan) && FinishedInv(s.work) && PanicInv(s.work) && LiveInv(cfg, s.work, s.chan)
    && CoupleInv(s.work, s.sink) && DecodeInv(cfg, s.work) && WrittenInv(cfg, s.work, s.sink)
    && KindsInv(cfg, s.work)
    && WhereInv(s.work, s.chan)
  }

  // --------------------------------------------------------------- beginnings

  lemma {:induction false} SumAllEqual<T>(n: nat, x: T, f: T -> int)
    ensures Sum(seq(n, _ => x), f) == n * f(x)
  {
    if n > 0 {
      assert seq(n, _ => x)[..n - 1] == seq(n - 1, _ => x);
      SumAllEqual(n - 1, x, f);
    }
  }

  lemma {:induction false} UnwrittenNone(pcs: seq<WorkerPc>)
    requires forall pc <- pcs :: !IsUnwritten(pc)
    ensures Unwritten(pcs) == multiset{}
  {
    if pcs != [] {
      UnwrittenNone(pcs[..|pcs| - 1]);
    }
  }

  lemma InitInv(cfg: Config, initial: Batch)
    ensures Inv(cfg, initial, Init(cfg, initial))
  {
    var s := Init(cfg, initial);
    SinkSafety.InitInv(cfg.batchSize, initial, cfg.workers);
    SumAllEqual(cfg.workers, Ranging, Busy);
    SumAllEqual(cfg.workers, Ranging, PendingTrade);
    SumAllEqual(cfg.workers, Ranging, PendingLog);
    SumAllEqual(cfg.workers, Ranging, WrittenInHand);
    SumAllEqual(cfg.workers, Ranging, Live);
    SumAllEqual(cfg.workers, Ranging, Lost);
    UnwrittenNone(s.work.pcs);
    assert s.sink.pcs[Sink.Closer] == Sink.Idle;
  }

  // -------------------------------------------------------------------- steps

  lemma NetKeeps(cfg: Config, initial: Batch, s: State, a: Action)
    requires Inv(cfg, initial, s) && NetEnabled(cfg, s, a)
    ensures Inv(cfg, initial, NextNet(cfg, s, a))
  {
    var s' := NextNet(cfg, s, a);
    NetKind(cfg, s, a);
    SemaphoreStep(cfg, s.net, s'.net, HandlerOf(a).GetOr(0));
    StreamStep(cfg, s, a);
    ChanNet(cfg, s, a);
    ReadStep(cfg, s, a);
    NetLeaves(cfg, s, a);
    WorkUntouched(cfg, s, s');
  }

  lemma WorkUntouched(cfg: Config, s: State, s': State)
    requires WorkInv(cfg, s) && ShutdownInv(s)
    requires s'.work == s.work && s'.sink == s.sink && s'.main == s.main && s'.cancelled == s.cancelled
    requires s'.chan.closed == s.chan.closed && s'.chan.dequeued == s.chan.dequeued
    requires s.chan.closed ==> s'.chan == s.chan
    ensures WorkInv(cfg, s') && ShutdownInv(s')
  {
  }

  /** The network side touches neither the workers nor the sink, and never sends after the close. */
  lemma NetLeaves(cfg: Config, s: State, a: Action)
    requires NetEnabled(cfg, s, a)
    ensures var s' := NextNet(cfg, s, a);
            && s'.work == s.work && s'.sink == s.sink && s'.main == s.main && s'.cancelled == s.cancelled
            && s'.chan.closed == s.chan.closed && s'.chan.dequeued == s.chan.dequeued
            && (s.chan.closed ==> s'.chan == s.chan)
  {
  }

  /** The workers and the sink touch neither the network nor main. */
  lemma WorkLeaves(cfg: Config, s: State, a: Action)
    requires WorkEnabled(cfg, s, a)
    ensures var s' := NextWork(cfg, s, a);
            && s'.net == s.net && s'.main == s.main && s'.cancelled == s.cancelled && s'.crashed == s.crashed
            && s'.chan.closed == s.chan.closed && s'.chan.enqueued == s.chan.enqueued
  {
  }

  lemma NoneLive(cfg: Config, s: State)
    requires LiveInv(cfg, s.work, s.chan) && s.work.wg == 0
    ensures forall pc <- s.work.pcs :: pc.Done? || pc.Panicked?
  {
    SumDominates(s.work.pcs, Live);
  }

  /** Once no worker is live, the only steps left are the sink's own. */
  lemma OnlySinkSteps(cfg: Config, s: State, a: Action)
    requires LiveInv(cfg, s.work, s.chan) && WorkEnabled(cfg, s, a) && s.work.wg == 0
    ensures a.SinkStep? && !a.a.Append?
  {
    NoneLive(cfg, s);
    assert forall w | 0 <= w < |s.work.pcs| :: s.work.pcs[w].Done? || s.work.pcs[w].Panicked?;
  }

  lemma SinkShutdown(s: State, s': State, b: Sink.Action)
    requires ShutdownInv(s) && SinkSafety.ShapeInv(s.sink) && SinkSafety.HandInv(s.sink)
    requires Sink.Enabled(s.sink, b) && SinkOnly(b) && s' == s.(sink := Sink.Next(s.sink, b))
    ensures ShutdownInv(s')
  {
    SinkSafety.ActorMoves(s.sink, b);
    assert SinkSafety.PcFits(Sink.Closer, s.sink.pcs[Sink.Closer]);
    if PastWait(s.main) {
      SinkTheorems.QuietStep(s.sink, b);
    }
  }

  lemma WorkShutdown(cfg: Config, initial: Batch, s: State, a: Action)
    requires Inv(cfg, initial, s) && WorkEnabled(cfg, s, a)
    ensures ShutdownInv(NextWork(cfg, s, a))
  {
    WorkLeaves(cfg, s, a);
    if s.work.wg == 0 {
      OnlySinkSteps(cfg, s, a);
    }
    if a.SinkStep? && !a.a.Append? {
      SinkShutdown(s, NextWork(cfg, s, a), a.a);
    } else {
      SinkMoves(cfg, s, a);
      assert SinkActionOf(s, a).Some? ==> Sink.Actor(SinkActionOf(s, a).value).Writer?;
    }
  }

  lemma WorkKeeps(cfg: Config, initial: Batch, s: State, a: Action)
    requires Inv(cfg, initial, s) && WorkEnabled(cfg, s, a)
    ensures Inv(cfg, initial, NextWork(cfg, s, a))
  {
    WorkLeaves(cfg, s, a);
    ChanWork(cfg, s, a);
    WorkInvStep(cfg, s, a);
    SinkMoves(cfg, s, a);
    if b :| SinkActionOf(s, a) == Some(b) {
      SinkSafety.StepKeepsInv(s.sink, b, initial);
    }
    WorkShutdown(cfg, initial, s, a);
  }

  lemma WorkInvStep(cfg: Config, s: State, a: Action)
    requires WorkInv(cfg, s) && WorkEnabled(cfg, s, a)
    ensures WorkInv(cfg, NextWork(cfg, s, a))
  {
    JobsStep(cfg, s, a);
    FinishedStep(cfg, s, a);
    KindsStep(cfg, s, a);
    PanicStep(cfg, s, a);
    LiveStep(cfg, s, a);
    CoupleStep(cfg, s, a);
    DecodeStep(cfg, s, a);
    WrittenStep(cfg, s, a);
    WhereStep(cfg, s, a);
  }

  /** When wg.Wait returns, no worker is inside Write. */
  lemma WaitMeansQuiet(cfg: Config, initial: Batch, s: State)
    requires Inv(cfg, initial, s) && s.main.Waiting? && s.work.wg == 0
    ensures SinkTheorems.Quiet(s.sink)
  {
    NoneLive(cfg, s);
    forall t <- s.sink.pcs | t.Writer? ensures s.sink.pcs[t].Idle? || s.sink.pcs[t].Crashed? {
      assert Coupled(s.work.pcs[t.id], s.sink.pcs[Sink.Writer(t.id)]) && s.work.pcs[t.id] in s.work.pcs;
    }
  }

  lemma MainKeeps(cfg: Config, initial: Batch, s: State, a: Action)
    requires Inv(cfg, initial, s) && MainEnabled(s, a)
    ensures Inv(cfg, initial, NextMain(s, a))
  {
    match a
    case WaitDone => WaitMeansQuiet(cfg, initial, s);
    case CallClose => CloserKeeps(cfg, initial, s, a, Sink.BeginClose);
    case CloseDone => CloserKeeps(cfg, initial, s, a, Sink.Finish(Sink.Closer));
    case _ =>
  }

  lemma CloserCouples(work: Work, sink: Sink.State, sink': Sink.State)
    requires CoupleInv(work, sink) && SinkSafety.OnlyMoves(sink, sink', Sink.Closer)
    ensures CoupleInv(work, sink')
  {
  }

  lemma CloserKeeps(cfg: Config, initial: Batch, s: State, a: Action, b: Sink.Action)
    requires Inv(cfg, initial, s) && MainEnabled(s, a)
    requires (a.CallClose? && b.BeginClose?) || (a.CloseDone? && b == Sink.Finish(Sink.Closer))
    ensures Inv(cfg, initial, NextMain(s, a))
  {
    var s' := NextMain(s, a);
    SinkSafety.ActorMoves(s.sink, b);
    CloserCouples(s.work, s.sink, s'.sink);
    SinkSafety.StepKeepsInv(s.sink, b, initial);
    SinkTheorems.QuietStep(s.sink, b);
    assert WorkInv(cfg, s');
  }

  lemma StepKeepsInv(cfg: Config, initial: Batch, s: State, a: Action)
    requires Inv(cfg, initial, s) && Enabled(cfg, s, a)
    ensures Inv(cfg, initial, Next(cfg, s, a))
  {
    if NetEnabled(cfg, s, a) {
      NetKeeps(cfg, initial, s, a);
    } else if WorkEnabled(cfg, s, a) {
      WorkKeeps(cfg, initial, s, a);
    } else {
      MainKeeps(cfg, initial, s, a);
    }
  }

  lemma {:induction false} RunKeepsInv(cfg: Config, initial: Batch, s: State, acts: seq<Action>)
    requires Inv(cfg, initial, s) && Run(cfg, s, acts).Some?
    ensures Inv(cfg, initial, Run(cfg, s, acts).value)
  {
    if acts != [] {
      var m := Run(cfg, s, acts[..|acts| - 1]).value;
      RunKeepsInv(cfg, initial, s, acts[..|acts| - 1]);
      StepKeepsInv(cfg, initial, m, acts[|acts| - 1]);
    }
  }

  lemma ReachedInv(cfg: Config, initial: Batch, acts: seq<Action>, s: State)
    requires Reaches(cfg, initial, acts, s)
    ensures Inv(cfg, initial, s)
  {
    InitInv(cfg, initial);
    RunKeepsInv(cfg, initial, Init(cfg, initial), acts);
  }
}
