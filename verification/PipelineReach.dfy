/** Which configurations can crash or hang: runs from the start that do, and why others cannot. */
module PipelineReach {
  import opened Wrappers
  import opened Events
  import opened Frame
  import opened Pipeline
  import opened PipelineSafety
  import opened PipelineJobs
  import opened PipelineRuns
  import opened PipelineTheorems
  import opened PipelineLiveness
  import opened PipelineShutdown
  import Sink = SinkProtocol
  import SinkSafety

  // ------------------------------------------------------------ building runs

  /** Some run leads from s to z. */
  ghost predicate Leads(cfg: Config, s: State, z: State)
  {
    exists acts :: Run(cfg, s, acts) == Some(z)
  }

  lemma LeadsNowhere(cfg: Config, s: State)
    ensures Leads(cfg, s, s)
  {
    assert Run(cfg, s, []) == Some(s);
  }

  lemma LeadsOn(cfg: Config, s: State, m: State, a: Action)
    requires Leads(cfg, s, m) && Enabled(cfg, m, a)
    ensures Leads(cfg, s, Next(cfg, m, a))
  {
    var acts :| Run(cfg, s, acts) == Some(m);
    OneStep(cfg, s, acts, a);
  }

  lemma {:induction false} RunJoin(cfg: Config, s: State, a: seq<Action>, b: seq<Action>)
    requires Run(cfg, s, a).Some?
    ensures Run(cfg, s, a + b) == Run(cfg, Run(cfg, s, a).value, b)
  {
    if b == [] {
      assert a + b == a;
    } else {
      var front, last := b[..|b| - 1], b[|b| - 1];
      RunJoin(cfg, s, a, front);
      RunThen(cfg, s, a + front, last);
      RunThen(cfg, Run(cfg, s, a).value, front, last);
      assert a + b == (a + front) + [last] && b == front + [last];
    }
  }

  lemma LeadsFurther(cfg: Config, s: State, m: State, z: State)
    requires Leads(cfg, s, m) && Leads(cfg, m, z)
    ensures Leads(cfg, s, z)
  {
    var a :| Run(cfg, s, a) == Some(m);
    var b :| Run(cfg, m, b) == Some(z);
    RunJoin(cfg, s, a, b);
  }

  // ------------------------------------------------------------------ a crash

  const NO_NET := Net([], Accepting, 0, 0, 0)

  const ONE_READER := Net([Handler(Reading, [], [], [])], Accepting, 1, 1, 0)

  /** Action a is enabled in s and leads to z. */
  ghost predicate Goes(cfg: Config, s: State, a: Action, z: State)
  {
    Enabled(cfg, s, a) && Next(cfg, s, a) == z
  }

  lemma LeadsTo(cfg: Config, s: State, m: State, a: Action, z: State)
    requires Leads(cfg, s, m) && Goes(cfg, m, a, z)
    ensures Leads(cfg, s, z)
  {
    LeadsOn(cfg, s, m, a);
  }

  lemma Accepts(cfg: Config, s: State)
    requires s.net.acceptor.Accepting? && s.listening && Alive(s)
    ensures Goes(cfg, s, Accept, s.(net := s.net.(acceptor := Accepted)))
  {
  }

  lemma Acquires(cfg: Config, s: State)
    requires s.net.handlers == [] && s.net.acceptor.Accepted? && s.net.tokens < cfg.maxConns && Alive(s)
    ensures var net := Net([Handler(Spawned, [], [], [])], Accepting, s.net.tokens + 1, s.net.active, s.net.framesRead);
            Goes(cfg, s, Acquire, s.(net := net))
  {
  }

  lemma Starts(cfg: Config, s: State, h: Handler)
    requires s.net.handlers == [h] && h.pc.Spawned? && Alive(s)
    ensures Goes(cfg, s, Start(0), s.(net := s.net.(handlers := [h.(pc := Looping)], active := s.net.active + 1)))
  {
    assert [h][0 := h.(pc := Looping)] == [h.(pc := Looping)];
  }

  lemma Checks(cfg: Config, s: State, h: Handler)
    requires s.net.handlers == [h] && h.pc.Looping? && Alive(s) && !s.cancelled
    ensures Goes(cfg, s, Check(0), s.(net := s.net.(handlers := [h.(pc := Reading)])))
  {
    assert [h][0 := h.(pc := Reading)] == [h.(pc := Reading)];
  }

  /** A first connection is accepted, and its handler begins to read. */
  lemma OneConnects(cfg: Config, s: State)
    requires s.net == NO_NET && s.listening && Alive(s) && !s.cancelled && cfg.maxConns > 0
    ensures Leads(cfg, s, s.(net := ONE_READER))
  {
    var s1 := s.(net := Net([], Accepted, 0, 0, 0));
    var s2 := s.(net := Net([Handler(Spawned, [], [], [])], Accepting, 1, 0, 0));
    var s3 := s.(net := Net([Handler(Looping, [], [], [])], Accepting, 1, 1, 0));
    LeadsNowhere(cfg, s);
    Accepts(cfg, s);
    LeadsTo(cfg, s, s, Accept, s1);
    Acquires(cfg, s1);
    LeadsTo(cfg, s, s1, Acquire, s2);
    Starts(cfg, s2, s2.net.handlers[0]);
    LeadsTo(cfg, s, s2, Start(0), s3);
    Checks(cfg, s3, s3.net.handlers[0]);
    LeadsTo(cfg, s, s3, Check(0), s.(net := ONE_READER));
  }

  /** main's own step, where it is in the shutdown before wg.Wait. */
  lemma MainGoes(cfg: Config, s: State, a: Action)
    requires MainEnabled(s, a) && Alive(s)
    ensures Goes(cfg, s, a, NextMain(s, a))
  {
  }

  /** main goes through the shutdown up to wg.Wait. */
  lemma ShutsDown(cfg: Config, s: State)
    requires s.main.Serving? && Alive(s)
    ensures Leads(cfg, s, s.(main := Waiting, listening := false, cancelled := true, chan := s.chan.(closed := true)))
  {
    var s1 := NextMain(s, Signal);
    var s2 := NextMain(s1, SetFlag);
    var s3 := NextMain(s2, CloseListener);
    var s4 := NextMain(s3, Cancel);
    LeadsNowhere(cfg, s);
    MainGoes(cfg, s, Signal);
    LeadsTo(cfg, s, s, Signal, s1);
    MainGoes(cfg, s1, SetFlag);
    LeadsTo(cfg, s, s1, SetFlag, s2);
    MainGoes(cfg, s2, CloseListener);
    LeadsTo(cfg, s, s2, CloseListener, s3);
    MainGoes(cfg, s3, Cancel);
    LeadsTo(cfg, s, s3, Cancel, s4);
    MainGoes(cfg, s4, CloseJobs);
    LeadsTo(cfg, s, s4, CloseJobs, NextMain(s4, CloseJobs));
  }

  /**
   Some run crashes on a send to the closed channel if and only if the connection limit is positive: one client
   that is sending a frame when the server is told to stop is enough.
   */
  lemma CrashReachableIff(cfg: Config, initial: Batch)
    ensures (exists z :: Leads(cfg, Init(cfg, initial), z) && z.crashed) <==> cfg.maxConns > 0
  {
    var s := Init(cfg, initial);
    if cfg.maxConns > 0 {
      OneConnects(cfg, s);
      var m := s.(net := ONE_READER);
      ShutsDown(cfg, m);
      var d := m.(main := Waiting, listening := false, cancelled := true, chan := m.chan.(closed := true));
      LeadsFurther(cfg, s, m, d);
      MidFrameCrashes(cfg, d, 0);
      var acts :| Run(cfg, d, acts).Some? && Run(cfg, d, acts).value.crashed;
      LeadsFurther(cfg, s, d, Run(cfg, d, acts).value);
    } else {
      forall z | Leads(cfg, s, z) ensures !z.crashed {
        var acts :| Run(cfg, s, acts) == Some(z);
        ZeroMeansNone(cfg, initial, acts, z);
      }
    }
  }

  // -------------------------------------------------------------------- a hang

  /** The configurations in which some frame can become an event in a worker's hands. */
  ghost predicate CanProcess(cfg: Config)
  {
    && cfg.maxConns > 0 && cfg.queueDepth > 0 && cfg.workers > 0
    && exists p: Bytes :: |p| < LIMIT && cfg.decode(p).Some?
  }

  function OneSent(p: Bytes): Net
  {
    Net([Handler(Looping, [], Framed(p), [p])], Accepting, 1, 1, 1)
  }

  lemma Delivers(cfg: Config, s: State, h: Handler, bytes: Bytes)
    requires s.net.handlers == [h] && Alive(s)
    ensures var h' := h.(unread := h.unread + bytes, received := h.received + bytes);
            Goes(cfg, s, Deliver(0, bytes), s.(net := s.net.(handlers := [h'])))
  {
    var h' := h.(unread := h.unread + bytes, received := h.received + bytes);
    assert [h][0 := h'] == [h'];
  }

  lemma Reads(cfg: Config, s: State, h: Handler, p: Bytes)
    requires s.net.handlers == [h] && h.pc.Reading? && h.unread == Framed(p) && |p| < LIMIT && Alive(s)
    ensures var h' := h.(pc := Sending(p), unread := [], read := h.read + [p]);
            Goes(cfg, s, Read(0), s.(net := s.net.(handlers := [h'], framesRead := s.net.framesRead + 1)))
  {
    var h' := h.(pc := Sending(p), unread := [], read := h.read + [p]);
    ParseFramed(p, [], EOF);
    assert Framed(p) + [] == Framed(p);
    assert [h][0 := h'] == [h'];
  }

  lemma Sends(cfg: Config, s: State, h: Handler, p: Bytes)
    requires s.net.handlers == [h] && h.pc == Sending(p) && Alive(s)
    requires !s.chan.closed && |s.chan.queue| < cfg.queueDepth
    ensures var net := s.net.(handlers := [h.(pc := Looping)]);
            Goes(cfg, s, Send(0), s.(net := net, chan := Enqueue(s.chan, Job(0, p))))
  {
    assert [h][0 := h.(pc := Looping)] == [h.(pc := Looping)];
  }

  /** The connection delivers one frame, which is read and queued. */
  lemma OneQueues(cfg: Config, s: State, p: Bytes)
    requires s.net == ONE_READER && s.chan == Chan([], false, [], []) && Alive(s) && cfg.queueDepth > 0
    requires |p| < LIMIT
    ensures Leads(cfg, s, s.(net := OneSent(p), chan := Chan([Job(0, p)], false, [Job(0, p)], [])))
  {
    var s1 := s.(net := ONE_READER.(handlers := [Handler(Reading, Framed(p), Framed(p), [])]));
    var s2 := s.(net := Net([Handler(Sending(p), [], Framed(p), [p])], Accepting, 1, 1, 1));
    LeadsNowhere(cfg, s);
    Delivers(cfg, s, s.net.handlers[0], Framed(p));
    assert [] + Framed(p) == Framed(p) && [] + [p] == [p] && [] + [Job(0, p)] == [Job(0, p)];
    LeadsTo(cfg, s, s, Deliver(0, Framed(p)), s1);
    Reads(cfg, s1, s1.net.handlers[0], p);
    LeadsTo(cfg, s, s1, Read(0), s2);
    Sends(cfg, s2, s2.net.handlers[0], p);
    LeadsTo(cfg, s, s2, Send(0), s.(net := OneSent(p), chan := Enqueue(s.chan, Job(0, p))));
  }

  /** A worker takes the job and decodes it. */
  lemma OneDecodes(cfg: Config, s: State, j: Job, e: Event)
    requires s.chan.queue == [j] && |s.work.pcs| > 0 && s.work.pcs[0].Ranging? && Alive(s)
    requires cfg.decode(j.data) == Some(e)
    ensures exists z :: Leads(cfg, s, z) && Alive(z) && z.sink == s.sink
                        && |z.work.pcs| > 0 && z.work.pcs[0] == Counting(j, e)
  {
    LeadsNowhere(cfg, s);
    LeadsOn(cfg, s, s, Receive(0));
    var m := Next(cfg, s, Receive(0));
    LeadsOn(cfg, s, m, Unmarshal(0));
    assert Next(cfg, m, Unmarshal(0)).work.pcs[0] == Counting(j, e);
  }

  /** It counts the event and calls the sink, which is idle. */
  lemma OneCalls(cfg: Config, s: State, j: Job, e: Event)
    requires |s.work.pcs| > 0 && s.work.pcs[0] == Counting(j, e) && Alive(s)
    requires Sink.Writer(0) in s.sink.pcs && s.sink.pcs[Sink.Writer(0)].Idle?
    ensures exists z :: Leads(cfg, s, z) && Alive(z) && z.sink == Sink.Next(s.sink, Sink.Invoke(Sink.Writer(0), e))
                        && |z.work.pcs| > 0 && z.work.pcs[0] == Writing(j, e, false)
  {
    LeadsNowhere(cfg, s);
    LeadsOn(cfg, s, s, Count(0));
    var m := Next(cfg, s, Count(0));
    assert m.work.pcs[0] == Calling(j, e);
    LeadsOn(cfg, s, m, Call(0));
    assert Next(cfg, m, Call(0)).work.pcs[0] == Writing(j, e, false);
  }

  lemma Locks(cfg: Config, s: State, t: Sink.Thread, e: Option<Event>)
    requires t in s.sink.pcs && s.sink.pcs[t] == Sink.AtLock(e) && s.sink.mutex == None && Alive(s)
    ensures var sink' := s.sink.(pcs := s.sink.pcs[t := Sink.Locked(e)], mutex := Some(t));
            Goes(cfg, s, SinkStep(Sink.Lock(t)), s.(sink := sink'))
  {
  }

  lemma PanicWedges(cfg: Config, s: State, w: nat)
    requires w < |s.work.pcs| && s.work.pcs[w].Writing? && Alive(s) && Sink.Writer(w) in s.sink.pcs
    requires s.sink.pcs[Sink.Writer(w)].Locked? && s.sink.mutex == Some(Sink.Writer(w))
    ensures Enabled(cfg, s, Panic(w)) && Alive(Next(cfg, s, Panic(w))) && Wedged(Next(cfg, s, Panic(w)).sink)
  {
  }

  /** It takes the mutex and panics. */
  lemma OneWedges(cfg: Config, s: State, j: Job, e: Event)
    requires |s.work.pcs| > 0 && s.work.pcs[0] == Writing(j, e, false) && Alive(s)
    requires Sink.Writer(0) in s.sink.pcs && s.sink.pcs[Sink.Writer(0)] == Sink.AtLock(Some(e)) && s.sink.mutex == None
    ensures exists z :: Leads(cfg, s, z) && Alive(z) && Wedged(z.sink)
  {
    var t := Sink.Writer(0);
    var m := s.(sink := s.sink.(pcs := s.sink.pcs[t := Sink.Locked(Some(e))], mutex := Some(t)));
    LeadsNowhere(cfg, s);
    Locks(cfg, s, t, Some(e));
    LeadsTo(cfg, s, s, SinkStep(Sink.Lock(t)), m);
    PanicWedges(cfg, m, 0);
    LeadsOn(cfg, s, m, Panic(0));
  }

  lemma WedgeReached(cfg: Config, initial: Batch, p: Bytes)
    requires CanProcess(cfg) && |p| < LIMIT && cfg.decode(p).Some?
    ensures exists z :: Leads(cfg, Init(cfg, initial), z) && Alive(z) && Wedged(z.sink)
  {
    var s, j, e := Init(cfg, initial), Job(0, p), cfg.decode(p).value;
    OneConnects(cfg, s);
    var s1 := s.(net := ONE_READER);
    OneQueues(cfg, s1, p);
    var s2 := s1.(net := OneSent(p), chan := Chan([j], false, [j], []));
    LeadsFurther(cfg, s, s1, s2);
    OneDecodes(cfg, s2, j, e);
    var s3 :| Leads(cfg, s2, s3) && Alive(s3) && s3.sink == s.sink
              && |s3.work.pcs| > 0 && s3.work.pcs[0] == Counting(j, e);
    LeadsFurther(cfg, s, s2, s3);
    OneCalls(cfg, s3, j, e);
    var s4 :| Leads(cfg, s3, s4) && Alive(s4) && s4.sink == Sink.Next(s.sink, Sink.Invoke(Sink.Writer(0), e))
              && |s4.work.pcs| > 0 && s4.work.pcs[0] == Writing(j, e, false);
    LeadsFurther(cfg, s, s3, s4);
    OneWedges(cfg, s4, j, e);
    var s5 :| Leads(cfg, s4, s5) && Alive(s5) && Wedged(s5.sink);
    LeadsFurther(cfg, s, s4, s5);
  }

  // ------------------------------------------------------------- the converse

  lemma {:induction false} NoRoom(cfg: Config, s: State, acts: seq<Action>)
    requires s.chan.enqueued == [] && s.chan.queue == [] && cfg.queueDepth == 0 && Run(cfg, s, acts).Some?
    ensures Run(cfg, s, acts).value.chan.enqueued == []
  {
    if acts != [] {
      var m, a := Run(cfg, s, acts[..|acts| - 1]).value, acts[|acts| - 1];
      NoRoom(cfg, s, acts[..|acts| - 1]);
      if WorkEnabled(cfg, m, a) {
        WorkLeaves(cfg, m, a);
      }
    }
  }

  lemma {:induction false} OfConnHas(jobs: seq<Job>, j: Job)
    requires j in jobs
    ensures j.data in OfConn(jobs, j.conn)
  {
    var front, last := jobs[..|jobs| - 1], jobs[|jobs| - 1];
    if last != j {
      OfConnHas(front, j);
    }
  }

  /** A queued job is a frame that some handler read, so its length fits the header. */
  lemma QueuedFits(net: Net, enqueued: seq<Job>, j: Job)
    requires StreamInv(net, enqueued) && j in enqueued
    ensures |j.data| < LIMIT
  {
    OfConnHas(enqueued, j);
    assert HandlerOk(net.handlers[j.conn], OfConn(enqueued, j.conn));
  }

  lemma {:induction false} UnwrittenHas(pcs: seq<WorkerPc>, w: nat)
    requires w < |pcs| && IsUnwritten(pcs[w])
    ensures pcs[w].job in Unwritten(pcs)
  {
    if w < |pcs| - 1 {
      UnwrittenHas(pcs[..|pcs| - 1], w);
    }
  }

  lemma TakenWasQueued(cfg: Config, s: State, w: nat)
    requires WhereInv(s.work, s.chan) && ChanInv(cfg, s.chan) && w < |s.work.pcs| && IsUnwritten(s.work.pcs[w])
    ensures s.work.pcs[w].job in s.chan.enqueued
  {
    UnwrittenHas(s.work.pcs, w);
    assert s.work.pcs[w].job in multiset(s.chan.dequeued);
  }

  /** Where no frame can become an event, a job in a worker's hands does not decode. */
  lemma JobsFail(cfg: Config, initial: Batch, acts: seq<Action>, s: State, w: nat)
    requires Reaches(cfg, initial, acts, s) && !CanProcess(cfg) && w < |s.work.pcs| && s.work.pcs[w].Unmarshaling?
    ensures cfg.decode(s.work.pcs[w].job.data).None?
  {
    var j := s.work.pcs[w].job;
    JobsAreFrames(cfg, initial, acts, s, w);
    if cfg.maxConns == 0 {
      ZeroMeansNone(cfg, initial, acts, s);
    } else if cfg.queueDepth == 0 {
      NoRoom(cfg, Init(cfg, initial), acts);
    } else {
      WaitGroupCountsLive(cfg, initial, acts, s);
      assert cfg.decode(j.data).Some? ==> CanProcess(cfg);
    }
  }

  lemma JobsAreFrames(cfg: Config, initial: Batch, acts: seq<Action>, s: State, w: nat)
    requires Reaches(cfg, initial, acts, s) && w < |s.work.pcs| && IsUnwritten(s.work.pcs[w])
    ensures s.work.pcs[w].job in s.chan.enqueued && |s.work.pcs[w].job.data| < LIMIT
  {
    ReachedInv(cfg, initial, acts, s);
    TakenWasQueued(cfg, s, w);
    QueuedFits(s.net, s.chan.enqueued, s.work.pcs[w].job);
  }

  /** No worker has an event, and none is inside the sink. */
  ghost predicate NoEvents(s: State)
  {
    && (forall pc <- s.work.pcs :: WithoutEvent(pc))
    && (forall t <- s.sink.pcs | t.Writer? :: s.sink.pcs[t].Idle?)
  }

  predicate WithoutEvent(pc: WorkerPc)
  {
    pc.Ranging? || pc.Unmarshaling? || pc.Done? || pc.Panicked?
  }

  /** The worker that steps gets no event, and only the flusher or Close can step inside the sink. */
  lemma NoEventMoves(cfg: Config, s: State, a: Action)
    requires NoEvents(s) && WorkEnabled(cfg, s, a)
    requires a.Unmarshal? ==> cfg.decode(s.work.pcs[a.w].job.data).None?
    ensures WorkerOf(a).Some? ==> WorkerOf(a).value < |NextWork(cfg, s, a).work.pcs|
                                  && WithoutEvent(NextWork(cfg, s, a).work.pcs[WorkerOf(a).value])
    ensures SinkActionOf(s, a).Some? ==> !Sink.Actor(SinkActionOf(s, a).value).Writer?
  {
    if w :| WorkerOf(a) == Some(w) {
      assert w < |s.work.pcs| && WithoutEvent(s.work.pcs[w]) by {
        assert w < |s.work.pcs| && s.work.pcs[w] in s.work.pcs;
      }
    }
  }

  lemma NoEventsWork(cfg: Config, s: State, a: Action)
    requires NoEvents(s) && WorkEnabled(cfg, s, a)
    requires a.Unmarshal? ==> cfg.decode(s.work.pcs[a.w].job.data).None?
    ensures NoEvents(NextWork(cfg, s, a))
  {
    NoEventMoves(cfg, s, a);
    OneWorkerMoves(cfg, s, a);
    SinkMoves(cfg, s, a);
    var s' := NextWork(cfg, s, a);
    forall pc <- s'.work.pcs ensures WithoutEvent(pc) {
      var v :| 0 <= v < |s'.work.pcs| && s'.work.pcs[v] == pc;
      assert WorkerOf(a) != Some(v) ==> s.work.pcs[v] == pc && pc in s.work.pcs;
    }
    forall t <- s'.sink.pcs | t.Writer? ensures s'.sink.pcs[t].Idle? {
      assert t in s.sink.pcs && s'.sink.pcs[t] == s.sink.pcs[t];
    }
  }

  lemma NoEventsMain(s: State, a: Action)
    requires NoEvents(s) && MainEnabled(s, a)
    ensures NoEvents(NextMain(s, a))
  {
    if a.CallClose? {
      SinkSafety.ActorMoves(s.sink, Sink.BeginClose);
    } else if a.CloseDone? {
      SinkSafety.ActorMoves(s.sink, Sink.Finish(Sink.Closer));
    }
  }

  lemma {:induction false} NoEventsRun(cfg: Config, initial: Batch, acts: seq<Action>)
    requires !CanProcess(cfg) && Run(cfg, Init(cfg, initial), acts).Some?
    ensures NoEvents(Run(cfg, Init(cfg, initial), acts).value)
  {
    var s := Init(cfg, initial);
    if acts != [] {
      var m, a := Run(cfg, s, acts[..|acts| - 1]).value, acts[|acts| - 1];
      NoEventsRun(cfg, initial, acts[..|acts| - 1]);
      if NetEnabled(cfg, m, a) {
        NetLeaves(cfg, m, a);
      } else if WorkEnabled(cfg, m, a) {
        if a.Unmarshal? {
          JobsFail(cfg, initial, acts[..|acts| - 1], m, a.w);
        }
        NoEventsWork(cfg, m, a);
      } else {
        NoEventsMain(m, a);
      }
    }
  }

  lemma NoEventsUnwedged(cfg: Config, initial: Batch, acts: seq<Action>, s: State)
    requires Reaches(cfg, initial, acts, s) && !CanProcess(cfg)
    ensures !Wedged(s.sink)
  {
    NoEventsRun(cfg, initial, acts);
    ReachedInv(cfg, initial, acts, s);
  }

  /**
   Some run reaches a state of the live process from which main can never return if and only if some frame can
   become an event in a worker's hands: a panic of that worker inside the sink's critical section is enough.
   */
  lemma HangReachableIff(cfg: Config, initial: Batch)
    ensures (exists z :: Leads(cfg, Init(cfg, initial), z) && Alive(z) && !CanReturn(cfg, z)) <==> CanProcess(cfg)
  {
    var s := Init(cfg, initial);
    if CanProcess(cfg) {
      var p: Bytes :| |p| < LIMIT && cfg.decode(p).Some?;
      WedgeReached(cfg, initial, p);
      var z :| Leads(cfg, s, z) && Alive(z) && Wedged(z.sink);
      var acts :| Run(cfg, s, acts) == Some(z);
      ReturnPossibleIff(cfg, initial, acts, z);
    } else {
      forall z | Leads(cfg, s, z) && Alive(z) ensures CanReturn(cfg, z) {
        var acts :| Run(cfg, s, acts) == Some(z);
        NoEventsUnwedged(cfg, initial, acts, z);
        ReturnPossibleIff(cfg, initial, acts, z);
      }
    }
  }

  /** The same for the mutex itself. */
  lemma WedgeReachableIff(cfg: Config, initial: Batch)
    ensures (exists z :: Leads(cfg, Init(cfg, initial), z) && Wedged(z.sink)) <==> CanProcess(cfg)
  {
    var s := Init(cfg, initial);
    if CanProcess(cfg) {
      var p: Bytes :| |p| < LIMIT && cfg.decode(p).Some?;
      WedgeReached(cfg, initial, p);
    } else {
      forall z | Leads(cfg, s, z) ensures !Wedged(z.sink) {
        var acts :| Run(cfg, s, acts) == Some(z);
        NoEventsUnwedged(cfg, initial, acts, z);
      }
    }
  }
}
