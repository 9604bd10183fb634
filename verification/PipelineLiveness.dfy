/** After close(jobs): how long the workers can go on, what can hold them up, and what can crash the process. */
module PipelineLiveness {
  import opened Wrappers
  import opened Events
  import opened Frame
  import opened Sequences
  import opened Pipeline
  import opened PipelineSafety
  import opened PipelineJobs
  import opened PipelineRuns
  import Sink = SinkProtocol
  import SinkSafety

  // ------------------------------------------------------------ the measure

  function HandSize(hand: Sink.Hand): nat
  {
    if hand.Hand? then hand.batch.Size() else 0
  }

  /** INSERTs a transaction still has to make. */
  function Left(batch: Batch, tx: Batch): nat
  {
    (if |tx.trades| < |batch.trades| then |batch.trades| - |tx.trades| else 0)
    + if |tx.logs| < |batch.logs| then |batch.logs| - |tx.logs| else 0
  }

  /** A bound on the steps a thread inside Write has before it, apart from rows still to be buffered. */
  function SinkRank(spc: Sink.Pc): nat
  {
    match spc
    case AtLock(_) => 10
    case Locked(_) => 9
    case Appended => 7
    case AtUnlock(hand) => 6 + HandSize(hand)
    case AtBegin(hand) => 5 + HandSize(hand)
    case InTx(hand, tx) => 4 + if hand.Hand? then Left(hand.batch, tx) else 0
    case Returned(_, _) => 3
    case _ => 0
  }

  function Rank(pc: WorkerPc, spc: Sink.Pc): nat
  {
    match pc
    case Unmarshaling(_) => 13
    case Counting(_, _) => 12
    case Calling(_, _) => 11
    case Writing(_, _, _) => SinkRank(spc)
    case Observing(_, _) => 2
    case Ranging => 1
    case Done => 0
    case Panicked => 0
  }

  function RankOf(work: Work, sink: Sink.State, w: nat): nat
    requires w < |work.pcs|
  {
    Rank(work.pcs[w], if Sink.Writer(w) in sink.pcs then sink.pcs[Sink.Writer(w)] else Sink.Idle)
  }

  function RankTotal(work: Work, sink: Sink.State, n: nat): nat
    requires n <= |work.pcs|
  {
    if n == 0 then 0 else RankTotal(work, sink, n - 1) + RankOf(work, sink, n - 1)
  }

  /** Jobs still queued, workers' positions, and rows whose INSERT may yet fall to a worker. */
  function Measure(s: State): nat
  {
    14 * |s.chan.queue| + RankTotal(s.work, s.sink, |s.work.pcs|) + s.sink.buffer.Size()
  }

  /** The worker that takes the step, in its own code or inside the sink. */
  function Mover(a: Action): Option<nat>
  {
    if a.SinkStep? then
      (if Sink.Actor(a.a).Writer? then Some(Sink.Actor(a.a).id) else None)
    else WorkerOf(a)
  }

  ghost predicate SameFor(work: Work, sink: Sink.State, work': Work, sink': Sink.State, w: nat)
  {
    && w < |work.pcs| == |work'.pcs|
    && RankOf(work', sink', w) == RankOf(work, sink, w)
  }

  lemma {:induction false} RankTotalSame(work: Work, sink: Sink.State, work': Work, sink': Sink.State, n: nat)
    requires n <= |work.pcs| == |work'.pcs|
    requires forall w | 0 <= w < n :: SameFor(work, sink, work', sink', w)
    ensures RankTotal(work', sink', n) == RankTotal(work, sink, n)
  {
    if n > 0 {
      RankTotalSame(work, sink, work', sink', n - 1);
      assert SameFor(work, sink, work', sink', n - 1);
    }
  }

  lemma {:induction false} RankTotalMoves(work: Work, sink: Sink.State, work': Work, sink': Sink.State, n: nat, w: nat)
    requires w < n <= |work.pcs| == |work'.pcs|
    requires forall v | 0 <= v < n && v != w :: SameFor(work, sink, work', sink', v)
    ensures RankTotal(work', sink', n) - RankTotal(work, sink, n) == RankOf(work', sink', w) - RankOf(work, sink, w)
  {
    if w == n - 1 {
      RankTotalSame(work, sink, work', sink', n - 1);
    } else {
      RankTotalMoves(work, sink, work', sink', n - 1, w);
      assert SameFor(work, sink, work', sink', n - 1);
    }
  }

  /** The mover's share of the measure. */
  function Local(s: State, w: nat): nat
    requires w < |s.work.pcs|
  {
    14 * |s.chan.queue| + RankOf(s.work, s.sink, w) + s.sink.buffer.Size()
  }

  lemma OutsideDrops(cfg: Config, s: State, a: Action)
    requires CoupleInv(s.work, s.sink) && WorkEnabled(cfg, s, a)
    requires a.Receive? || a.Finish? || a.Unmarshal? || a.Count? || a.Observe?
    ensures a.w < |NextWork(cfg, s, a).work.pcs| && Local(NextWork(cfg, s, a), a.w) < Local(s, a.w)
  {
    assert Coupled(s.work.pcs[a.w], s.sink.pcs[Sink.Writer(a.w)]);
  }

  lemma PanicDrops(cfg: Config, s: State, a: Action)
    requires CoupleInv(s.work, s.sink) && WorkEnabled(cfg, s, a) && a.Panic?
    ensures a.w < |NextWork(cfg, s, a).work.pcs| && Local(NextWork(cfg, s, a), a.w) < Local(s, a.w)
  {
    assert Coupled(s.work.pcs[a.w], s.sink.pcs[Sink.Writer(a.w)]);
  }

  lemma BoundaryDrops(cfg: Config, s: State, a: Action)
    requires CoupleInv(s.work, s.sink) && WorkEnabled(cfg, s, a) && (a.Call? || a.Return? || a.Panic?)
    ensures a.w < |NextWork(cfg, s, a).work.pcs| && Local(NextWork(cfg, s, a), a.w) < Local(s, a.w)
  {
    if a.Panic? {
      PanicDrops(cfg, s, a);
    } else {
      assert Coupled(s.work.pcs[a.w], s.sink.pcs[Sink.Writer(a.w)]);
    }
  }

  lemma InsertedLeft(batch: Batch, tx: Batch)
    requires !Sink.AllInserted(batch, tx)
    ensures Left(batch, Sink.Inserted(batch, tx)) < Left(batch, tx)
  {
  }

  /** A step inside a turn of the sink brings the thread nearer its end, counting a buffered row as one step. */
  lemma SinkDrops(s: Sink.State, b: Sink.Action)
    requires Sink.Enabled(s, b) && SinkOnly(b) && !b.Tick? && !b.Stop? && !b.Join? && SinkSafety.ShapeInv(s)
    ensures var s', t := Sink.Next(s, b), Sink.Actor(b);
            t in s'.pcs && SinkRank(s'.pcs[t]) + s'.buffer.Size() < SinkRank(s.pcs[t]) + s.buffer.Size()
  {
    var pc := s.pcs[Sink.Actor(b)];
    assert SinkSafety.PcFits(Sink.Actor(b), pc);
    if b.Exec? {
      InsertedLeft(pc.hand.batch, pc.tx);
    }
    if b.Append? {
      RowIsSmall(pc.event.value);
    }
  }

  lemma RowIsSmall(e: Event)
    ensures RowsOf(e).Size() <= 1
  {
  }

  lemma InsideDrops(cfg: Config, s: State, a: Action, w: nat)
    requires CoupleInv(s.work, s.sink) && SinkSafety.ShapeInv(s.sink)
    requires WorkEnabled(cfg, s, a) && a.SinkStep? && Mover(a) == Some(w)
    ensures w < |s.work.pcs| == |NextWork(cfg, s, a).work.pcs|
    ensures Local(NextWork(cfg, s, a), w) < Local(s, w)
  {
    assert w < |s.work.pcs| && Coupled(s.work.pcs[w], s.sink.pcs[Sink.Writer(w)]);
    SinkDrops(s.sink, a.a);
    OneWorkerMoves(cfg, s, a);
  }

  lemma MoverDrops(cfg: Config, s: State, a: Action, w: nat)
    requires CoupleInv(s.work, s.sink) && SinkSafety.ShapeInv(s.sink)
    requires WorkEnabled(cfg, s, a) && Mover(a) == Some(w)
    ensures w < |s.work.pcs| == |NextWork(cfg, s, a).work.pcs|
    ensures Local(NextWork(cfg, s, a), w) < Local(s, w)
  {
    OneWorkerMoves(cfg, s, a);
    if a.SinkStep? {
      InsideDrops(cfg, s, a, w);
    } else if a.Call? || a.Return? || a.Panic? {
      BoundaryDrops(cfg, s, a);
    } else {
      OutsideDrops(cfg, s, a);
    }
  }

  lemma OthersSame(cfg: Config, s: State, a: Action, v: nat)
    requires CoupleInv(s.work, s.sink) && WorkEnabled(cfg, s, a) && v < |s.work.pcs| && Mover(a) != Some(v)
    ensures SameFor(s.work, s.sink, NextWork(cfg, s, a).work, NextWork(cfg, s, a).sink, v)
  {
    OneWorkerMoves(cfg, s, a);
    assert WorkerOf(a) != Some(v);
    OthersStay(cfg, s, a, v);
  }

  lemma FlusherEmpties(cfg: Config, s: State, a: Action)
    requires SinkSafety.ShapeInv(s.sink) && WorkEnabled(cfg, s, a) && Mover(a) == None
    ensures var s' := NextWork(cfg, s, a);
            s'.chan == s.chan && s'.work == s.work && s'.sink.buffer.Size() <= s.sink.buffer.Size()
  {
    assert a.SinkStep? && SinkSafety.PcFits(Sink.Actor(a.a), s.sink.pcs[Sink.Actor(a.a)]);
  }

  /** A worker's step strictly decreases the measure; the sink's other threads never increase it. */
  lemma WorkDrops(cfg: Config, s: State, a: Action)
    requires CoupleInv(s.work, s.sink) && SinkSafety.ShapeInv(s.sink) && WorkEnabled(cfg, s, a)
    ensures Measure(NextWork(cfg, s, a)) <= Measure(s)
    ensures Mover(a).Some? ==> Measure(NextWork(cfg, s, a)) < Measure(s)
  {
    var s' := NextWork(cfg, s, a);
    OneWorkerMoves(cfg, s, a);
    forall v | 0 <= v < |s.work.pcs| && Mover(a) != Some(v)
      ensures SameFor(s.work, s.sink, s'.work, s'.sink, v)
    {
      OthersSame(cfg, s, a, v);
    }
    if w :| Mover(a) == Some(w) {
      MoverDrops(cfg, s, a, w);
      RankTotalMoves(s.work, s.sink, s'.work, s'.sink, |s.work.pcs|, w);
    } else {
      FlusherEmpties(cfg, s, a);
      RankTotalSame(s.work, s.sink, s'.work, s'.sink, |s.work.pcs|);
    }
  }

  lemma MainSame(cfg: Config, s: State, a: Action)
    requires CoupleInv(s.work, s.sink) && MainEnabled(s, a)
    ensures Measure(NextMain(s, a)) == Measure(s)
  {
    var s' := NextMain(s, a);
    if a.CallClose? {
      SinkSafety.ActorMoves(s.sink, Sink.BeginClose);
    } else if a.CloseDone? {
      SinkSafety.ActorMoves(s.sink, Sink.Finish(Sink.Closer));
    }
    assert forall w | 0 <= w < |s.work.pcs| :: SameFor(s.work, s.sink, s'.work, s'.sink, w);
    RankTotalSame(s.work, s.sink, s'.work, s'.sink, |s.work.pcs|);
  }

  /** After close(jobs) every step of a worker decreases the measure, and no step increases it. */
  lemma StepDrops(cfg: Config, s: State, a: Action)
    requires CoupleInv(s.work, s.sink) && SinkSafety.ShapeInv(s.sink) && s.chan.closed && Enabled(cfg, s, a)
    ensures Measure(Next(cfg, s, a)) <= Measure(s) && Next(cfg, s, a).chan.closed
    ensures Mover(a).Some? ==> Measure(Next(cfg, s, a)) < Measure(s)
  {
    if NetEnabled(cfg, s, a) {
      NetLeaves(cfg, s, a);
    } else if WorkEnabled(cfg, s, a) {
      WorkLeaves(cfg, s, a);
      WorkDrops(cfg, s, a);
    } else {
      MainSame(cfg, s, a);
    }
  }

  function WorkerSteps(acts: seq<Action>): nat
  {
    if acts == [] then 0
    else WorkerSteps(acts[..|acts| - 1]) + if Mover(acts[|acts| - 1]).Some? then 1 else 0
  }

  /**
   Drain termination.  From any reachable state in which the channel is closed, however the
   goroutines interleave, the workers take at most Measure(s) further steps.
   */
  lemma {:induction false} DrainTerminates(cfg: Config, initial: Batch, before: seq<Action>, s: State,
                                           acts: seq<Action>)
    requires Reaches(cfg, initial, before, s) && s.chan.closed && Run(cfg, s, acts).Some?
    ensures WorkerSteps(acts) + Measure(Run(cfg, s, acts).value) <= Measure(s)
    ensures Run(cfg, s, acts).value.chan.closed && Inv(cfg, initial, Run(cfg, s, acts).value)
  {
    if acts == [] {
      ReachedInv(cfg, initial, before, s);
    } else {
      var m, a := Run(cfg, s, acts[..|acts| - 1]).value, acts[|acts| - 1];
      DrainTerminates(cfg, initial, before, s, acts[..|acts| - 1]);
      StepDrops(cfg, m, a);
      StepKeepsInv(cfg, initial, m, a);
    }
  }

  // ---------------------------------------------------------------- progress

  /** The step worker w would take next, apart from panicking. */
  function NextOf(s: State, w: nat): Action
    requires w < |s.work.pcs| && Sink.Writer(w) in s.sink.pcs
  {
    var t := Sink.Writer(w);
    match s.work.pcs[w]
    case Ranging => if s.chan.queue == [] then Finish(w) else Receive(w)
    case Unmarshaling(_) => Unmarshal(w)
    case Counting(_, _) => Count(w)
    case Calling(_, _) => Call(w)
    case Observing(_, _) => Observe(w)
    case _ =>
      match s.sink.pcs[t]
      case AtLock(_) => SinkStep(Sink.Lock(t))
      case Locked(_) => SinkStep(Sink.Append(t))
      case Appended => SinkStep(Sink.Test(t))
      case AtUnlock(_) => SinkStep(Sink.Unlock(t))
      case AtBegin(_) => SinkStep(Sink.Begin(t, false))
      case InTx(hand, tx) =>
        if hand.Hand? && Sink.AllInserted(hand.batch, tx) then SinkStep(Sink.Commit(t, false))
        else SinkStep(Sink.Exec(t, false))
      case _ => Return(w)
  }

  /** Worker w is live and neither waits for a job nor has to. */
  predicate ToDo(s: State, w: nat)
    requires w < |s.work.pcs|
  {
    Live(s.work.pcs[w]) == 1 && (HasJob(s.work.pcs[w]) || s.chan.queue != [] || s.chan.closed)
  }

  lemma OutsideEnabled(cfg: Config, s: State, w: nat)
    requires CoupleInv(s.work, s.sink) && w < |s.work.pcs| && ToDo(s, w) && !s.work.pcs[w].Writing?
    ensures WorkEnabled(cfg, s, NextOf(s, w)) && Mover(NextOf(s, w)) == Some(w) && !NextOf(s, w).Panic?
  {
    assert Coupled(s.work.pcs[w], s.sink.pcs[Sink.Writer(w)]);
  }

  lemma InsideEnabled(cfg: Config, s: State, w: nat)
    requires CoupleInv(s.work, s.sink) && SinkSafety.ShapeInv(s.sink)
    requires w < |s.work.pcs| && s.work.pcs[w].Writing?
    requires s.sink.pcs[Sink.Writer(w)].AtLock? ==> s.sink.mutex == None
    ensures WorkEnabled(cfg, s, NextOf(s, w)) && Mover(NextOf(s, w)) == Some(w) && !NextOf(s, w).Panic?
  {
    assert Coupled(s.work.pcs[w], s.sink.pcs[Sink.Writer(w)]);
    assert SinkSafety.PcFits(Sink.Writer(w), s.sink.pcs[Sink.Writer(w)]);
  }

  /** A worker that has something to do can step unless it waits for a mutex that is taken. */
  lemma WorkerEnabled(cfg: Config, s: State, w: nat)
    requires CoupleInv(s.work, s.sink) && SinkSafety.ShapeInv(s.sink) && w < |s.work.pcs| && ToDo(s, w)
    requires s.sink.pcs[Sink.Writer(w)].AtLock? ==> s.sink.mutex == None
    ensures WorkEnabled(cfg, s, NextOf(s, w)) && Mover(NextOf(s, w)) == Some(w) && !NextOf(s, w).Panic?
  {
    if s.work.pcs[w].Writing? {
      InsideEnabled(cfg, s, w);
    } else {
      OutsideEnabled(cfg, s, w);
    }
  }

  /** The flusher's way out of the critical section is always open. */
  lemma FlusherEnabled(cfg: Config, s: State)
    requires SinkSafety.ShapeInv(s.sink) && SinkSafety.MutexInv(s.sink) && s.sink.mutex == Some(Sink.Flusher)
    ensures exists b :: WorkEnabled(cfg, s, SinkStep(b)) && Sink.Actor(b) == Sink.Flusher
  {
    assert SinkSafety.PcFits(Sink.Flusher, s.sink.pcs[Sink.Flusher]);
    var b := if s.sink.pcs[Sink.Flusher].Locked? then Sink.Take(Sink.Flusher) else Sink.Unlock(Sink.Flusher);
    assert WorkEnabled(cfg, s, SinkStep(b));
  }

  lemma {:induction false} SomeLive(pcs: seq<WorkerPc>)
    requires Sum(pcs, Live) > 0
    ensures exists w | 0 <= w < |pcs| :: Live(pcs[w]) == 1
  {
    if Live(pcs[|pcs| - 1]) != 1 {
      SomeLive(pcs[..|pcs| - 1]);
      var w :| 0 <= w < |pcs| - 1 && Live(pcs[..|pcs| - 1][w]) == 1;
      assert Live(pcs[w]) == 1;
    }
  }

  /** The mutex is held by a goroutine that no longer exists: nothing will ever release it. */
  predicate Wedged(sink: Sink.State)
  {
    sink.mutex.Some? && sink.mutex.value in sink.pcs && sink.pcs[sink.mutex.value] == Sink.Crashed(true)
  }

  /** A step that takes the work forward: a worker's, or the flusher's inside the critical section. */
  predicate Helps(s: State, a: Action)
  {
    && !a.Panic?
    && (Mover(a).Some? || (a.SinkStep? && Sink.Actor(a.a) == Sink.Flusher && s.sink.mutex == Some(Sink.Flusher)))
  }

  /** Some live worker holds a job, can take one, or can exit. */
  ghost predicate WorkToDo(s: State)
  {
    exists w | 0 <= w < |s.work.pcs| :: ToDo(s, w)
  }

  /**
   Progress.  In every state in which a live worker holds a job, or a worker is live and the queue is not empty or
   is closed, some worker can take a step, or the flusher one out of the critical section, unless a panic inside
   the critical section left the mutex taken.
   */
  lemma WorkProgress(cfg: Config, initial: Batch, acts: seq<Action>, s: State)
    requires Reaches(cfg, initial, acts, s) && Alive(s) && WorkToDo(s) && !Wedged(s.sink)
    ensures exists a :: Enabled(cfg, s, a) && Helps(s, a)
  {
    ReachedInv(cfg, initial, acts, s);
    WorkHelped(cfg, initial, s);
  }

  lemma WorkHelped(cfg: Config, initial: Batch, s: State)
    requires Inv(cfg, initial, s) && Alive(s) && WorkToDo(s) && !Wedged(s.sink)
    ensures exists a :: Enabled(cfg, s, a) && Helps(s, a)
  {
    var w :| 0 <= w < |s.work.pcs| && ToDo(s, w);
    if s.sink.pcs[Sink.Writer(w)].AtLock? && s.sink.mutex.Some? {
      LiveMeansWaiting(cfg, initial, s, w);
      HolderHelps(cfg, initial, s, s.sink.mutex.value);
    } else {
      WorkerEnabled(cfg, s, w);
      assert Enabled(cfg, s, NextOf(s, w)) && Helps(s, NextOf(s, w));
    }
  }

  /** While main waits for a live worker, there is work to do. */
  lemma WaitingHasWork(cfg: Config, initial: Batch, s: State)
    requires Inv(cfg, initial, s) && s.main.Waiting? && s.work.wg > 0
    ensures WorkToDo(s)
  {
    SomeLive(s.work.pcs);
    var w :| 0 <= w < |s.work.pcs| && Live(s.work.pcs[w]) == 1;
    assert ToDo(s, w);
  }

  lemma HolderHelps(cfg: Config, initial: Batch, s: State, t: Sink.Thread)
    requires Inv(cfg, initial, s) && !PastWait(s.main) && Alive(s) && s.sink.mutex == Some(t) && !Wedged(s.sink)
    ensures exists a :: Enabled(cfg, s, a) && Helps(s, a)
  {
    if t.Writer? {
      assert Coupled(s.work.pcs[t.id], s.sink.pcs[t]);
      WorkerEnabled(cfg, s, t.id);
      assert Enabled(cfg, s, NextOf(s, t.id)) && Helps(s, NextOf(s, t.id));
    } else {
      assert s.sink.pcs[Sink.Closer].Idle?;
      FlusherEnabled(cfg, s);
      var b :| WorkEnabled(cfg, s, SinkStep(b)) && Sink.Actor(b) == Sink.Flusher;
      assert Enabled(cfg, s, SinkStep(b)) && Helps(s, SinkStep(b));
    }
  }

  /** Blocked at the lock behind a goroutine that is gone. */
  ghost predicate Stuck(s: State, w: nat)
  {
    && Wedged(s.sink) && w < |s.work.pcs| && Live(s.work.pcs[w]) == 1
    && Sink.Writer(w) in s.sink.pcs && s.sink.pcs[Sink.Writer(w)].AtLock?
  }

  lemma StuckWork(cfg: Config, s: State, a: Action, w: nat)
    requires Stuck(s, w) && CoupleInv(s.work, s.sink) && WorkEnabled(cfg, s, a) && a != Panic(w)
    requires SinkSafety.ShapeInv(s.sink) && SinkSafety.MutexInv(s.sink)
    ensures Stuck(NextWork(cfg, s, a), w)
  {
    assert Coupled(s.work.pcs[w], s.sink.pcs[Sink.Writer(w)]);
    OneWorkerMoves(cfg, s, a);
    SinkMoves(cfg, s, a);
    WedgeStays(cfg, s, a);
    OthersStay(cfg, s, a, w);
  }

  lemma WedgeStays(cfg: Config, s: State, a: Action)
    requires Wedged(s.sink) && WorkEnabled(cfg, s, a)
    requires SinkSafety.ShapeInv(s.sink) && SinkSafety.MutexInv(s.sink)
    ensures Wedged(NextWork(cfg, s, a).sink)
  {
    SinkMoves(cfg, s, a);
    if b :| SinkActionOf(s, a) == Some(b) {
      SinkSafety.MutexMoves(s.sink, b);
    }
  }

  /** A worker that panics between Lock and Unlock strands every other worker that waits for the mutex. */
  lemma PanicUnderLockWedges(cfg: Config, initial: Batch, acts: seq<Action>, s: State, w: nat, v: nat)
    requires Reaches(cfg, initial, acts, s) && Alive(s) && w < |s.work.pcs| && s.work.pcs[w].Writing?
    requires Sink.Writer(w) in s.sink.pcs && s.sink.pcs[Sink.Writer(w)].HoldsMutex()
    requires v < |s.work.pcs| && Sink.Writer(v) in s.sink.pcs && s.sink.pcs[Sink.Writer(v)].AtLock?
    ensures WorkEnabled(cfg, s, Panic(w)) && Stuck(NextWork(cfg, s, Panic(w)), v)
  {
    ReachedInv(cfg, initial, acts, s);
    PanicStrands(cfg, s, w, v);
  }

  lemma PanicStrands(cfg: Config, s: State, w: nat, v: nat)
    requires CoupleInv(s.work, s.sink) && SinkSafety.MutexInv(s.sink)
    requires w < |s.work.pcs| && s.work.pcs[w].Writing? && s.sink.pcs[Sink.Writer(w)].HoldsMutex()
    requires v < |s.work.pcs| && s.sink.pcs[Sink.Writer(v)].AtLock?
    ensures WorkEnabled(cfg, s, Panic(w)) && Stuck(NextWork(cfg, s, Panic(w)), v)
  {
    assert Coupled(s.work.pcs[w], s.sink.pcs[Sink.Writer(w)]);
    assert Coupled(s.work.pcs[v], s.sink.pcs[Sink.Writer(v)]);
    OthersStay(cfg, s, Panic(w), v);
    PanicKeepsMutex(s.sink, Sink.Writer(w));
  }

  lemma PanicKeepsMutex(sink: Sink.State, t: Sink.Thread)
    requires SinkSafety.MutexInv(sink) && Sink.Enabled(sink, Sink.Panic(t)) && sink.pcs[t].HoldsMutex()
    ensures Wedged(Sink.Next(sink, Sink.Panic(t)))
  {
  }

  /**
   A panic inside the critical section is not undone by recover: the mutex stays taken, and a worker
   blocked behind it keeps main in wg.Wait for ever.
   */
  lemma {:induction false} WedgedForever(cfg: Config, initial: Batch, before: seq<Action>, s: State, acts: seq<Action>,
                                         w: nat)
    requires Reaches(cfg, initial, before, s) && Stuck(s, w)
    requires Run(cfg, s, acts).Some? && Panic(w) !in acts
    ensures var z := Run(cfg, s, acts).value;
            Inv(cfg, initial, z) && Stuck(z, w) && !PastWait(z.main)
  {
    var z := Run(cfg, s, acts).value;
    if acts == [] {
      ReachedInv(cfg, initial, before, s);
    } else {
      var m, a := Run(cfg, s, acts[..|acts| - 1]).value, acts[|acts| - 1];
      WedgedForever(cfg, initial, before, s, acts[..|acts| - 1], w);
      StepKeepsInv(cfg, initial, m, a);
      if NetEnabled(cfg, m, a) {
        NetLeaves(cfg, m, a);
      } else if WorkEnabled(cfg, m, a) {
        StuckWork(cfg, m, a, w);
      }
    }
    LiveMeansWaiting(cfg, initial, z, w);
  }

  lemma LiveMeansWaiting(cfg: Config, initial: Batch, s: State, w: nat)
    requires Inv(cfg, initial, s) && w < |s.work.pcs| && Live(s.work.pcs[w]) == 1
    ensures !PastWait(s.main)
  {
    SumDominates(s.work.pcs, Live);
  }

  // ----------------------------------------------------------------- the crash

  /** A handler that holds a frame, or is reading one. */
  ghost predicate MidFrame(net: Net)
  {
    exists c | 0 <= c < |net.handlers| :: net.handlers[c].pc.Reading? || net.handlers[c].pc.Sending?
  }

  lemma QuietNet(cfg: Config, s: State, a: Action)
    requires s.chan.closed && s.cancelled && !s.crashed && !MidFrame(s.net) && NetEnabled(cfg, s, a)
    ensures var s' := NextNet(cfg, s, a);
            !MidFrame(s'.net) && !s'.crashed && s'.chan.closed && s'.cancelled
  {
    NetKind(cfg, s, a);
    NetLeaves(cfg, s, a);
  }

  lemma {:induction false} NoCrash(cfg: Config, s: State, acts: seq<Action>)
    requires s.chan.closed && s.cancelled && !s.crashed && !MidFrame(s.net) && Run(cfg, s, acts).Some?
    ensures var z := Run(cfg, s, acts).value; z.chan.closed && z.cancelled && !z.crashed && !MidFrame(z.net)
  {
    if acts != [] {
      var m, a := Run(cfg, s, acts[..|acts| - 1]).value, acts[|acts| - 1];
      NoCrash(cfg, s, acts[..|acts| - 1]);
      if NetEnabled(cfg, m, a) {
        QuietNet(cfg, m, a);
      } else if WorkEnabled(cfg, m, a) {
        WorkLeaves(cfg, m, a);
      }
    }
  }

  /** Bytes that complete the frame a reader is in the middle of. */
  function Completion(unread: Bytes): Bytes
  {
    var pad := if |unread| < 4 then seq(4 - |unread|, _ => 0 as byte) else [];
    var header := unread + pad;
    var size := Uint32(header[..4]);
    pad + if |header| < 4 + size then seq(4 + size - |header|, _ => 0 as byte) else []
  }

  lemma CompletionParses(unread: Bytes)
    ensures ParseFrame(unread + Completion(unread), EOF).0.Ok?
  {
    var pad := if |unread| < 4 then seq(4 - |unread|, _ => 0 as byte) else [];
    assert (unread + Completion(unread))[..4] == (unread + pad)[..4];
  }

  /** Deliver the rest of the frame, read it, send it. */
  lemma MidFrameCrashes(cfg: Config, s: State, c: nat)
    requires Alive(s) && s.chan.closed && c < |s.net.handlers|
    requires s.net.handlers[c].pc.Reading? || s.net.handlers[c].pc.Sending?
    ensures exists acts :: Run(cfg, s, acts).Some? && Run(cfg, s, acts).value.crashed
  {
    if s.net.handlers[c].pc.Sending? {
      SendCrashes(cfg, s, [], c);
    } else {
      var bytes := Completion(s.net.handlers[c].unread);
      CompletionParses(s.net.handlers[c].unread);
      OneStep(cfg, s, [], Deliver(c, bytes));
      OneStep(cfg, s, [] + [Deliver(c, bytes)], Read(c));
      SendCrashes(cfg, s, [] + [Deliver(c, bytes)] + [Read(c)], c);
    }
  }

  lemma SendCrashes(cfg: Config, s: State, acts: seq<Action>, c: nat)
    requires Run(cfg, s, acts).Some? && Alive(Run(cfg, s, acts).value) && Run(cfg, s, acts).value.chan.closed
    requires c < |Run(cfg, s, acts).value.net.handlers| && Run(cfg, s, acts).value.net.handlers[c].pc.Sending?
    ensures exists acts' :: Run(cfg, s, acts').Some? && Run(cfg, s, acts').value.crashed
  {
    OneStep(cfg, s, acts, SendClosed(c));
    assert Run(cfg, s, acts + [SendClosed(c)]).value.crashed;
  }

  lemma OneStep(cfg: Config, s: State, acts: seq<Action>, a: Action)
    requires Run(cfg, s, acts).Some? && Enabled(cfg, Run(cfg, s, acts).value, a)
    ensures Run(cfg, s, acts + [a]) == Some(Next(cfg, Run(cfg, s, acts).value, a))
  {
    assert (acts + [a])[..|acts|] == acts;
  }

  /**
   The shutdown may crash.  main closes jobs without waiting for the handlers, so a send on the
   closed channel remains possible exactly when some handler was reading a frame or holding one.
   */
  lemma CrashPossibleIff(cfg: Config, initial: Batch, before: seq<Action>, s: State)
    requires Reaches(cfg, initial, before, s) && Alive(s) && s.chan.closed
    ensures (exists acts :: Run(cfg, s, acts).Some? && Run(cfg, s, acts).value.crashed) <==> MidFrame(s.net)
  {
    ReachedInv(cfg, initial, before, s);
    if c :| 0 <= c < |s.net.handlers| && (s.net.handlers[c].pc.Reading? || s.net.handlers[c].pc.Sending?) {
      MidFrameCrashes(cfg, s, c);
    } else {
      forall acts | Run(cfg, s, acts).Some? ensures !Run(cfg, s, acts).value.crashed {
        NoCrash(cfg, s, acts);
      }
    }
  }
}
