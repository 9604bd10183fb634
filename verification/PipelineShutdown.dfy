/** The end of the server: what cancellation stops, and when main can still return. */
module PipelineShutdown {
  import opened Wrappers
  import opened Events
  import opened Frame
  import opened Pipeline
  import opened PipelineSafety
  import opened PipelineJobs
  import opened PipelineRuns
  import opened PipelineLiveness
  import Sequences
  import Sink = SinkProtocol
  import SinkSafety

  // ------------------------------------------------------------ cancellation

  /** The frames a handler has read, and one more if it is in the middle of reading. */
  function MayRead(h: Handler): nat
  {
    |h.read| + if h.pc.Reading? then 1 else 0
  }

  /** The connections taken on, and one more if one has been accepted and not yet taken on or rejected. */
  function MayJoin(net: Net): nat
  {
    |net.handlers| + if net.acceptor.Accepted? then 1 else 0
  }

  /** From net to net' nobody starts to read another frame and no connection is accepted. */
  ghost predicate WindsDown(net: Net, net': Net)
  {
    && |net.handlers| <= |net'.handlers| && MayJoin(net') <= MayJoin(net)
    && (forall c | 0 <= c < |net.handlers| :: MayRead(net'.handlers[c]) <= MayRead(net.handlers[c]))
    && (forall c | |net.handlers| <= c < |net'.handlers| :: MayRead(net'.handlers[c]) == 0)
  }

  lemma WindsDownStep(cfg: Config, s: State, a: Action)
    requires NetEnabled(cfg, s, a) && s.cancelled && !s.listening
    ensures WindsDown(s.net, NextNet(cfg, s, a).net) && !NextNet(cfg, s, a).listening
  {
  }

  lemma {:induction false} WindsDownRun(cfg: Config, s: State, acts: seq<Action>)
    requires s.cancelled && !s.listening && Run(cfg, s, acts).Some?
    ensures var z := Run(cfg, s, acts).value; z.cancelled && !z.listening && WindsDown(s.net, z.net)
  {
    if acts != [] {
      var m, a := Run(cfg, s, acts[..|acts| - 1]).value, acts[|acts| - 1];
      WindsDownRun(cfg, s, acts[..|acts| - 1]);
      if NetEnabled(cfg, m, a) {
        WindsDownStep(cfg, m, a);
        NetLeaves(cfg, m, a);
      } else if WorkEnabled(cfg, m, a) {
        WorkLeaves(cfg, m, a);
      }
    }
  }

  /** The listener is closed before the context is cancelled. */
  ghost predicate ListenInv(s: State)
  {
    s.listening <==> s.main.Serving? || s.main.Signalled? || s.main.Flagged?
  }

  lemma {:induction false} ListenRun(cfg: Config, s: State, acts: seq<Action>)
    requires ListenInv(s) && Run(cfg, s, acts).Some?
    ensures ListenInv(Run(cfg, s, acts).value)
  {
    if acts != [] {
      var m, a := Run(cfg, s, acts[..|acts| - 1]).value, acts[|acts| - 1];
      ListenRun(cfg, s, acts[..|acts| - 1]);
      if NetEnabled(cfg, m, a) {
        NetLeaves(cfg, m, a);
      } else if WorkEnabled(cfg, m, a) {
        WorkLeaves(cfg, m, a);
      }
    }
  }

  /**
   Cancellation.  Once the context is cancelled, a connection contributes to the queue at most the frames it
   had read and the one it was reading; at most one more connection is taken on, and it contributes nothing.
   */
  lemma CancelStopsReading(cfg: Config, initial: Batch, before: seq<Action>, s: State, acts: seq<Action>)
    requires Reaches(cfg, initial, before, s) && s.cancelled && Run(cfg, s, acts).Some?
    ensures var z := Run(cfg, s, acts).value;
            && |s.net.handlers| <= |z.net.handlers| <= MayJoin(s.net)
            && (forall c | 0 <= c < |z.net.handlers| ::
                  |OfConn(z.chan.enqueued, c)| <= if c < |s.net.handlers| then MayRead(s.net.handlers[c]) else 0)
  {
    var z := Run(cfg, s, acts).value;
    CancelledMeansUnlistened(cfg, initial, before, s);
    WindsDownRun(cfg, s, acts);
    StreamAfter(cfg, initial, before, s, acts);
    SentWasRead(z.net, z.chan.enqueued);
  }

  lemma CancelledMeansUnlistened(cfg: Config, initial: Batch, before: seq<Action>, s: State)
    requires Reaches(cfg, initial, before, s) && s.cancelled
    ensures !s.listening
  {
    ReachedInv(cfg, initial, before, s);
    ListenRun(cfg, Init(cfg, initial), before);
  }

  lemma StreamAfter(cfg: Config, initial: Batch, before: seq<Action>, s: State, acts: seq<Action>)
    requires Reaches(cfg, initial, before, s) && Run(cfg, s, acts).Some?
    ensures var z := Run(cfg, s, acts).value; StreamInv(z.net, z.chan.enqueued)
  {
    ReachedInv(cfg, initial, before, s);
    RunKeepsInv(cfg, initial, s, acts);
  }

  lemma SentWasRead(net: Net, enqueued: seq<Job>)
    requires StreamInv(net, enqueued)
    ensures forall c | 0 <= c < |net.handlers| :: |OfConn(enqueued, c)| <= MayRead(net.handlers[c])
  {
    forall c | 0 <= c < |net.handlers| ensures |OfConn(enqueued, c)| <= MayRead(net.handlers[c]) {
      assert HandlerOk(net.handlers[c], OfConn(enqueued, c));
    }
  }

  // ---------------------------------------------------- the way to the end

  function MainRank(m: MainPc): nat
  {
    match m
    case Serving => 8
    case Signalled => 7
    case Flagged => 6
    case Unlistened => 5
    case Cancelled => 4
    case Waiting => 3
    case Deferred => 2
    case Closing => 1
    case Returned => 0
  }

  function FlusherRank(pc: Sink.Pc): nat
  {
    if pc.Exited? then 0 else 1 + SinkRank(pc)
  }

  function CloserRank(pc: Sink.Pc): nat
  {
    if pc.Idle? then 12 else if pc.Joining? then 11 else SinkRank(pc)
  }

  function PcOf(sink: Sink.State, t: Sink.Thread): Sink.Pc
  {
    if t in sink.pcs then sink.pcs[t] else Sink.Idle
  }

  /** A bound on the steps the server needs to come to its end. */
  function ToGo(s: State): nat
  {
    MainRank(s.main) + Measure(s) + FlusherRank(PcOf(s.sink, Sink.Flusher)) + CloserRank(PcOf(s.sink, Sink.Closer))
  }

  /** A step that brings the server nearer its end and leaves the way open. */
  ghost predicate Nearer(cfg: Config, s: State, a: Action)
  {
    && Enabled(cfg, s, a)
    && ToGo(Next(cfg, s, a)) < ToGo(s) && !Next(cfg, s, a).crashed && !Wedged(Next(cfg, s, a).sink)
  }

  /** Only a panic leaves the mutex taken for good. */
  lemma StaysUnwedged(sink: Sink.State, b: Sink.Action)
    requires SinkSafety.MutexInv(sink) && Sink.Enabled(sink, b) && !b.Panic? && !Wedged(sink)
    ensures !Wedged(Sink.Next(sink, b))
  {
  }

  lemma MainDrops(s: State, a: Action)
    requires MainEnabled(s, a)
    ensures var s' := NextMain(s, a);
            && MainRank(s'.main) < MainRank(s.main) && s'.crashed == s.crashed
            && FlusherRank(PcOf(s'.sink, Sink.Flusher)) == FlusherRank(PcOf(s.sink, Sink.Flusher))
            && CloserRank(PcOf(s'.sink, Sink.Closer)) <= CloserRank(PcOf(s.sink, Sink.Closer))
  {
  }

  lemma MainUnwedged(s: State, a: Action)
    requires SinkSafety.MutexInv(s.sink) && MainEnabled(s, a) && !Wedged(s.sink)
    ensures !Wedged(NextMain(s, a).sink)
  {
    if a.CallClose? {
      StaysUnwedged(s.sink, Sink.BeginClose);
    } else if a.CloseDone? {
      StaysUnwedged(s.sink, Sink.Finish(Sink.Closer));
    }
  }

  lemma MainNearer(cfg: Config, s: State, a: Action)
    requires CoupleInv(s.work, s.sink) && SinkSafety.MutexInv(s.sink)
    requires Alive(s) && MainEnabled(s, a) && !Wedged(s.sink)
    ensures Nearer(cfg, s, a)
  {
    MainSame(cfg, s, a);
    MainDrops(s, a);
    MainUnwedged(s, a);
  }

  lemma WorkerNearer(cfg: Config, s: State, a: Action)
    requires CoupleInv(s.work, s.sink) && SinkSafety.ShapeInv(s.sink) && SinkSafety.MutexInv(s.sink)
    requires WorkEnabled(cfg, s, a) && Alive(s) && Mover(a).Some? && !a.Panic? && !Wedged(s.sink)
    ensures Nearer(cfg, s, a)
  {
    WorkDrops(cfg, s, a);
    WorkLeaves(cfg, s, a);
    SinkMoves(cfg, s, a);
    if b :| SinkActionOf(s, a) == Some(b) {
      StaysUnwedged(s.sink, b);
    }
  }

  /** A step of the flusher or of Close that is not the start of another turn. */
  lemma ThreadNearer(cfg: Config, s: State, b: Sink.Action)
    requires CoupleInv(s.work, s.sink) && SinkSafety.ShapeInv(s.sink) && SinkSafety.MutexInv(s.sink)
    requires WorkEnabled(cfg, s, SinkStep(b)) && Alive(s) && !Sink.Actor(b).Writer? && !b.Tick? && !Wedged(s.sink)
    ensures Nearer(cfg, s, SinkStep(b))
  {
    var a := SinkStep(b);
    WorkLeaves(cfg, s, a);
    SinkMoves(cfg, s, a);
    StaysUnwedged(s.sink, b);
    ThreadDrops(s.sink, b);
    RanksStay(s, NextWork(cfg, s, a), Sink.Actor(b));
  }

  lemma RanksStay(s: State, s': State, t: Sink.Thread)
    requires !t.Writer? && SinkSafety.OnlyMoves(s.sink, s'.sink, t) && s'.work == s.work && s'.chan == s.chan
    ensures Measure(s') - Measure(s) == s'.sink.buffer.Size() - s.sink.buffer.Size()
  {
    assert forall w | 0 <= w < |s.work.pcs| :: SameFor(s.work, s.sink, s'.work, s'.sink, w);
    RankTotalSame(s.work, s.sink, s'.work, s'.sink, |s.work.pcs|);
  }

  lemma ThreadDrops(sink: Sink.State, b: Sink.Action)
    requires SinkSafety.ShapeInv(sink) && Sink.Enabled(sink, b) && SinkOnly(b) && !Sink.Actor(b).Writer? && !b.Tick?
    ensures var sink' := Sink.Next(sink, b);
            sink'.buffer.Size() + FlusherRank(PcOf(sink', Sink.Flusher)) + CloserRank(PcOf(sink', Sink.Closer)) <
            sink.buffer.Size() + FlusherRank(PcOf(sink, Sink.Flusher)) + CloserRank(PcOf(sink, Sink.Closer))
  {
    SinkSafety.ActorMoves(sink, b);
    if !b.Stop? && !b.Join? {
      SinkDrops(sink, b);
      TurnGoesOn(sink, b);
    }
  }

  /** Inside a turn the two ranks follow the rank of the turn. */
  lemma TurnGoesOn(sink: Sink.State, b: Sink.Action)
    requires SinkSafety.ShapeInv(sink) && Sink.Enabled(sink, b) && SinkOnly(b) && !Sink.Actor(b).Writer?
    requires !b.Tick? && !b.Stop? && !b.Join?
    ensures var pc, pc' := sink.pcs[Sink.Actor(b)], PcOf(Sink.Next(sink, b), Sink.Actor(b));
            && FlusherRank(pc) == 1 + SinkRank(pc) && FlusherRank(pc') == 1 + SinkRank(pc')
            && (Sink.Actor(b).Closer? ==> CloserRank(pc) == SinkRank(pc) && CloserRank(pc') == SinkRank(pc'))
  {
    assert SinkSafety.PcFits(Sink.Actor(b), sink.pcs[Sink.Actor(b)]);
  }

  /** After wg.Wait a writer that has the mutex has it for good. */
  lemma MutexPastWait(cfg: Config, initial: Batch, s: State)
    requires Inv(cfg, initial, s) && PastWait(s.main)
    ensures s.sink.mutex.Some? && s.sink.mutex.value.Writer? ==> Wedged(s.sink)
  {
    if s.sink.mutex.Some? && s.sink.mutex.value.Writer? {
      assert s.sink.pcs[s.sink.mutex.value].HoldsMutex();
    }
  }

  /** The step of the flusher or of Close, inside a turn. */
  function TurnStep(pc: Sink.Pc, t: Sink.Thread): Sink.Action
  {
    match pc
    case AtLock(_) => Sink.Lock(t)
    case Locked(_) => Sink.Take(t)
    case AtUnlock(_) => Sink.Unlock(t)
    case AtBegin(_) => Sink.Begin(t, false)
    case InTx(hand, tx) =>
      if hand.Hand? && Sink.AllInserted(hand.batch, tx) then Sink.Commit(t, false) else Sink.Exec(t, false)
    case _ => Sink.Finish(t)
  }

  lemma TurnEnabled(sink: Sink.State, t: Sink.Thread)
    requires SinkSafety.ShapeInv(sink) && t in sink.pcs && !t.Writer?
    requires !sink.pcs[t].Idle? && !sink.pcs[t].Joining? && !sink.pcs[t].Exited?
    requires sink.pcs[t].AtLock? ==> sink.mutex == None
    requires sink.pcs[t].Returned? ==> t.Flusher?
    ensures var b := TurnStep(sink.pcs[t], t);
            Sink.Enabled(sink, b) && SinkOnly(b) && Sink.Actor(b) == t && !b.Tick? && !b.Append?
  {
    assert SinkSafety.PcFits(t, sink.pcs[t]);
  }

  lemma TurnNearer(cfg: Config, s: State, t: Sink.Thread)
    requires CoupleInv(s.work, s.sink) && SinkSafety.ShapeInv(s.sink) && SinkSafety.MutexInv(s.sink)
    requires Alive(s) && !Wedged(s.sink) && t in s.sink.pcs && !t.Writer?
    requires !s.sink.pcs[t].Idle? && !s.sink.pcs[t].Joining? && !s.sink.pcs[t].Exited?
    requires s.sink.pcs[t].AtLock? ==> s.sink.mutex == None
    requires s.sink.pcs[t].Returned? ==> t.Flusher?
    ensures exists a :: Nearer(cfg, s, a)
  {
    TurnEnabled(s.sink, t);
    ThreadNearer(cfg, s, TurnStep(s.sink.pcs[t], t));
  }

  /** The flusher and Close are never both in the critical section, and past wg.Wait nobody else is. */
  lemma LockFree(cfg: Config, initial: Batch, s: State, t: Sink.Thread, u: Sink.Thread)
    requires Inv(cfg, initial, s) && PastWait(s.main) && !Wedged(s.sink)
    requires (t == Sink.Flusher && u == Sink.Closer) || (t == Sink.Closer && u == Sink.Flusher)
    requires s.sink.pcs[t].AtLock? && !s.sink.pcs[u].HoldsMutex()
    ensures s.sink.mutex == None
  {
    MutexPastWait(cfg, initial, s);
  }

  lemma JoiningNearer(cfg: Config, initial: Batch, s: State)
    requires Inv(cfg, initial, s) && s.main.Closing? && Alive(s) && !Wedged(s.sink)
    requires s.sink.pcs[Sink.Closer].Joining?
    ensures exists a :: Nearer(cfg, s, a)
  {
    var flusher := s.sink.pcs[Sink.Flusher];
    assert SinkSafety.PcFits(Sink.Flusher, flusher);
    if flusher.Exited? {
      ThreadNearer(cfg, s, Sink.Join);
    } else if flusher.Idle? {
      ThreadNearer(cfg, s, Sink.Stop);
    } else {
      if flusher.AtLock? {
        LockFree(cfg, initial, s, Sink.Flusher, Sink.Closer);
      }
      TurnNearer(cfg, s, Sink.Flusher);
    }
  }

  lemma ClosingNearer(cfg: Config, initial: Batch, s: State)
    requires Inv(cfg, initial, s) && s.main.Closing? && Alive(s) && !Wedged(s.sink)
    ensures exists a :: Nearer(cfg, s, a)
  {
    var closer := s.sink.pcs[Sink.Closer];
    if closer.Joining? {
      JoiningNearer(cfg, initial, s);
    } else if closer.Returned? {
      MainNearer(cfg, s, CloseDone);
    } else {
      if closer.AtLock? {
        LockFree(cfg, initial, s, Sink.Closer, Sink.Flusher);
      }
      TurnNearer(cfg, s, Sink.Closer);
    }
  }

  lemma WaitingNearer(cfg: Config, initial: Batch, s: State)
    requires Inv(cfg, initial, s) && s.main.Waiting? && Alive(s) && !Wedged(s.sink)
    ensures exists a :: Nearer(cfg, s, a)
  {
    if s.work.wg <= 0 {
      WaitDoneNearer(cfg, initial, s);
    } else {
      WaitingHasWork(cfg, initial, s);
      WorkHelped(cfg, initial, s);
      var a :| Enabled(cfg, s, a) && Helps(s, a);
      if Mover(a).Some? {
        WorkerNearer(cfg, s, a);
      } else {
        assert s.sink.pcs[Sink.Flusher].HoldsMutex();
        ThreadNearer(cfg, s, a.a);
      }
    }
  }

  lemma WaitDoneNearer(cfg: Config, initial: Batch, s: State)
    requires Inv(cfg, initial, s) && s.main.Waiting? && Alive(s) && !Wedged(s.sink) && s.work.wg <= 0
    ensures exists a :: Nearer(cfg, s, a)
  {
    Sequences.SumDominates(s.work.pcs, Live);
    MainNearer(cfg, s, WaitDone);
  }

  lemma StepNearer(cfg: Config, initial: Batch, s: State)
    requires Inv(cfg, initial, s) && Alive(s) && !Wedged(s.sink)
    ensures exists a :: Nearer(cfg, s, a)
  {
    match s.main
    case Serving => MainNearer(cfg, s, Signal);
    case Signalled => MainNearer(cfg, s, SetFlag);
    case Flagged => MainNearer(cfg, s, CloseListener);
    case Unlistened => MainNearer(cfg, s, Cancel);
    case Cancelled => MainNearer(cfg, s, CloseJobs);
    case Waiting => WaitingNearer(cfg, initial, s);
    case Deferred => MainNearer(cfg, s, CallClose);
    case Closing => ClosingNearer(cfg, initial, s);
  }

  function Then(cfg: Config, r: Option<State>, a: Action): Option<State>
  {
    if r.Some? && Enabled(cfg, r.value, a) then Some(Next(cfg, r.value, a)) else None
  }

  lemma RunThen(cfg: Config, s: State, acts: seq<Action>, a: Action)
    ensures Run(cfg, s, acts + [a]) == Then(cfg, Run(cfg, s, acts), a)
  {
    assert (acts + [a])[..|acts|] == acts;
  }

  lemma {:induction false} RunFirst(cfg: Config, s: State, a: Action, acts: seq<Action>)
    requires Enabled(cfg, s, a)
    ensures Run(cfg, s, [a] + acts) == Run(cfg, Next(cfg, s, a), acts)
  {
    if acts == [] {
      RunThen(cfg, s, [], a);
      assert [a] + acts == [] + [a];
    } else {
      var front, last := acts[..|acts| - 1], acts[|acts| - 1];
      RunFirst(cfg, s, a, front);
      RunThen(cfg, s, [a] + front, last);
      RunThen(cfg, Next(cfg, s, a), front, last);
      assert [a] + acts == ([a] + front) + [last] && acts == front + [last];
    }
  }

  ghost predicate CanReturn(cfg: Config, s: State)
  {
    exists acts :: Run(cfg, s, acts).Some? && Run(cfg, s, acts).value.main.Returned?
  }

  lemma ReturnAfter(cfg: Config, s: State, a: Action)
    requires Enabled(cfg, s, a) && (Next(cfg, s, a).main.Returned? || CanReturn(cfg, Next(cfg, s, a)))
    ensures CanReturn(cfg, s)
  {
    var s' := Next(cfg, s, a);
    if s'.main.Returned? {
      RunFirst(cfg, s, a, []);
      assert Run(cfg, s, [a] + []) == Run(cfg, s', []) == Some(s');
    } else {
      var acts :| Run(cfg, s', acts).Some? && Run(cfg, s', acts).value.main.Returned?;
      RunFirst(cfg, s, a, acts);
      assert Run(cfg, s, [a] + acts).Some?;
    }
  }

  lemma {:induction false} UnwedgedReturns(cfg: Config, initial: Batch, s: State)
    requires Inv(cfg, initial, s) && Alive(s) && !Wedged(s.sink)
    ensures CanReturn(cfg, s)
    decreases ToGo(s)
  {
    StepNearer(cfg, initial, s);
    var a :| Nearer(cfg, s, a);
    StepKeepsInv(cfg, initial, s, a);
    if !Next(cfg, s, a).main.Returned? {
      UnwedgedReturns(cfg, initial, Next(cfg, s, a));
    }
    ReturnAfter(cfg, s, a);
  }

  // ------------------------------------------------------------ no way out

  /** If the mutex is taken for good, Close has not got past it. */
  ghost predicate BlockedInv(sink: Sink.State)
    requires Sink.Closer in sink.pcs
  {
    Wedged(sink) ==> sink.pcs[Sink.Closer].Idle? || sink.pcs[Sink.Closer].Joining? || sink.pcs[Sink.Closer].AtLock?
  }

  lemma BlockedSink(sink: Sink.State, b: Sink.Action)
    requires SinkSafety.ShapeInv(sink) && SinkSafety.MutexInv(sink) && Sink.Enabled(sink, b)
    requires BlockedInv(sink) && (b.Panic? ==> sink.pcs[Sink.Closer].Idle?)
    ensures Sink.Closer in Sink.Next(sink, b).pcs && BlockedInv(Sink.Next(sink, b))
    ensures Wedged(sink) ==> Wedged(Sink.Next(sink, b))
  {
    SinkSafety.MutexMoves(sink, b);
    SinkSafety.ActorMoves(sink, b);
    if !b.Panic? && !Wedged(sink) {
      StaysUnwedged(sink, b);
    }
  }

  lemma BlockedStep(cfg: Config, initial: Batch, s: State, a: Action)
    requires Inv(cfg, initial, s) && Enabled(cfg, s, a) && BlockedInv(s.sink)
    ensures Sink.Closer in Next(cfg, s, a).sink.pcs && BlockedInv(Next(cfg, s, a).sink)
    ensures Wedged(s.sink) ==> Wedged(Next(cfg, s, a).sink)
  {
    if NetEnabled(cfg, s, a) {
      NetLeaves(cfg, s, a);
    } else if WorkEnabled(cfg, s, a) {
      SinkMoves(cfg, s, a);
      if b :| SinkActionOf(s, a) == Some(b) {
        if a.Panic? {
          LiveMeansWaiting(cfg, initial, s, a.w);
        }
        BlockedSink(s.sink, b);
      }
    } else if a.CallClose? {
      BlockedSink(s.sink, Sink.BeginClose);
    } else if a.CloseDone? {
      BlockedSink(s.sink, Sink.Finish(Sink.Closer));
    }
  }

  lemma {:induction false} BlockedRun(cfg: Config, initial: Batch, s: State, acts: seq<Action>)
    requires Inv(cfg, initial, s) && BlockedInv(s.sink) && Run(cfg, s, acts).Some?
    ensures var z := Run(cfg, s, acts).value;
            Inv(cfg, initial, z) && BlockedInv(z.sink) && (Wedged(s.sink) ==> Wedged(z.sink))
  {
    if acts != [] {
      var m, a := Run(cfg, s, acts[..|acts| - 1]).value, acts[|acts| - 1];
      BlockedRun(cfg, initial, s, acts[..|acts| - 1]);
      BlockedStep(cfg, initial, m, a);
      StepKeepsInv(cfg, initial, m, a);
    }
  }

  lemma WedgedNeverReturns(cfg: Config, initial: Batch, before: seq<Action>, s: State)
    requires Reaches(cfg, initial, before, s) && Wedged(s.sink)
    ensures !CanReturn(cfg, s)
  {
    InitInv(cfg, initial);
    BlockedRun(cfg, initial, Init(cfg, initial), before);
    forall acts | Run(cfg, s, acts).Some? ensures !Run(cfg, s, acts).value.main.Returned? {
      BlockedRun(cfg, initial, s, acts);
    }
  }

  /**
   The shutdown can always be completed, from every state of every run and whatever has failed or panicked so
   far, unless a panic left the sink's mutex taken: then main never returns.
   */
  lemma ReturnPossibleIff(cfg: Config, initial: Batch, before: seq<Action>, s: State)
    requires Reaches(cfg, initial, before, s) && Alive(s)
    ensures CanReturn(cfg, s) <==> !Wedged(s.sink)
  {
    ReachedInv(cfg, initial, before, s);
    if Wedged(s.sink) {
      WedgedNeverReturns(cfg, initial, before, s);
    } else {
      UnwedgedReturns(cfg, initial, s);
    }
  }
}
