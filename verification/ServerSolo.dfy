/** A goroutine of the server left alone does what the methods HandleConnection and Worker promise. */
module ServerSolo {
  import opened Wrappers
  import opened Events
  import opened Frame
  import opened Pipeline
  import opened PipelineSafety
  import opened PipelineJobs
  import opened PipelineLiveness
  import opened PipelineReach
  import opened ServerLoops
  import PG = PostgresSink
  import Sink = SinkProtocol
  import SinkSafety

  datatype Goroutine = HandlerOfConn(c: nat) | WorkerNo(w: nat)

  predicate Does(g: Goroutine, a: Action)
  {
    match g
    case HandlerOfConn(c) => a == SendClosed(c) || (HandlerOf(a) == Some(c) && !a.Deliver?)
    case WorkerNo(w) => Mover(a) == Some(w) && !a.Panic?
  }

  /** Goroutine g, taking every step and not panicking on its own, leads from s to z. */
  ghost predicate Solo(cfg: Config, s: State, z: State, g: Goroutine)
  {
    exists acts: seq<Action> :: (forall a <- acts :: Does(g, a)) && Run(cfg, s, acts) == Some(z)
  }

  lemma SoloNowhere(cfg: Config, s: State, g: Goroutine)
    ensures Solo(cfg, s, s, g)
  {
    assert Run(cfg, s, []) == Some(s);
  }

  lemma SoloJoin(cfg: Config, s: State, m: State, z: State, g: Goroutine)
    requires Solo(cfg, s, m, g) && Solo(cfg, m, z, g)
    ensures Solo(cfg, s, z, g)
  {
    var a :| (forall x <- a :: Does(g, x)) && Run(cfg, s, a) == Some(m);
    var b :| (forall x <- b :: Does(g, x)) && Run(cfg, m, b) == Some(z);
    RunJoin(cfg, s, a, b);
    assert forall x <- a + b :: Does(g, x);
  }

  lemma SoloStep(cfg: Config, s: State, a: Action, z: State, g: Goroutine)
    requires Goes(cfg, s, a, z) && Does(g, a)
    ensures Solo(cfg, s, z, g)
  {
    OneStep(cfg, s, [], a);
    assert [] + [a] == [a];
    assert forall x <- [a] :: Does(g, x);
  }

  // ------------------------------------------------------------------ handlers

  /** Handler c has sent n of the payloads and stopped as `end` says; the other goroutines are where they were. */
  ghost predicate Stopped(cfg: Config, s: State, z: State, c: nat, payloads: seq<Bytes>, n: nat, end: HandlerEnd)
  {
    && n <= |payloads| && c < |z.net.handlers|
    && z.chan.queue == s.chan.queue + JobsFrom(c, payloads[..n]) && z.chan.closed == s.chan.closed
    && z.work == s.work && z.sink == s.sink && z.main == s.main
    && EndsAs(payloads, n, Found(s.cancelled, z.chan.queue, s.chan.closed), cfg.queueDepth, end)
    && match end
       case Left => z.net.handlers[c].pc == Leaving && !z.crashed
       case SentOnClosed(data) => z.net.handlers[c].pc == Sending(data) && z.crashed
       case Blocked(data) => z.net.handlers[c].pc == Sending(data) && !z.crashed
  }

  ghost predicate StopsAlone(cfg: Config, s: State, c: nat, payloads: seq<Bytes>)
  {
    exists z, n, end :: Solo(cfg, s, z, HandlerOfConn(c)) && Stopped(cfg, s, z, c, payloads, n, end)
  }

  function Moved(s: State, c: nat, h: Handler): State
    requires c < |s.net.handlers|
  {
    s.(net := SetHandler(s.net, c, h))
  }

  lemma ChecksAlone(cfg: Config, s: State, c: nat)
    requires Alive(s) && c < |s.net.handlers| && s.net.handlers[c].pc.Looping?
    ensures Goes(cfg, s, Check(c), Moved(s, c, s.net.handlers[c].(pc := if s.cancelled then Leaving else Reading)))
  {
  }

  lemma ReadsAlone(cfg: Config, s: State, c: nat)
    requires Alive(s) && c < |s.net.handlers| && s.net.handlers[c].pc.Reading?
    ensures var h := s.net.handlers[c];
            match ParseFrame(h.unread, EOF)
            case (Ok(p), rest) =>
              var m := Moved(s, c, h.(pc := Sending(p), unread := rest, read := h.read + [p]));
              Goes(cfg, s, Read(c), m.(net := m.net.(framesRead := s.net.framesRead + 1)))
            case (Err(_), _) => Goes(cfg, s, ReadFail(c), Moved(s, c, h.(pc := Leaving)))
  {
  }

  lemma SendsAlone(cfg: Config, s: State, c: nat, p: Bytes)
    requires Alive(s) && c < |s.net.handlers| && s.net.handlers[c].pc == Sending(p)
    ensures s.chan.closed ==> Goes(cfg, s, SendClosed(c), s.(crashed := true))
    ensures !s.chan.closed && |s.chan.queue| < cfg.queueDepth ==>
              Goes(cfg, s, Send(c),
                   Moved(s, c, s.net.handlers[c].(pc := Looping)).(chan := Enqueue(s.chan, Job(c, p))))
  {
  }

  /** One round of the handler's loop up to the send. */
  lemma RoundAlone(cfg: Config, s: State, c: nat)
    requires Alive(s) && c < |s.net.handlers| && s.net.handlers[c].pc.Looping? && !s.cancelled
    ensures var h := s.net.handlers[c];
            match ParseFrame(h.unread, EOF)
            case (Ok(p), rest) =>
              var m := Moved(s, c, h.(pc := Sending(p), unread := rest, read := h.read + [p]));
              Solo(cfg, s, m.(net := m.net.(framesRead := s.net.framesRead + 1)), HandlerOfConn(c))
            case (Err(_), _) => Solo(cfg, s, Moved(s, c, h.(pc := Leaving)), HandlerOfConn(c))
  {
    var h, g := s.net.handlers[c], HandlerOfConn(c);
    var m := Moved(s, c, h.(pc := Reading));
    ChecksAlone(cfg, s, c);
    SoloStep(cfg, s, Check(c), m, g);
    ReadsAlone(cfg, m, c);
    match ParseFrame(h.unread, EOF)
    case (Ok(p), rest) =>
      var z := Moved(s, c, h.(pc := Sending(p), unread := rest, read := h.read + [p]));
      var z' := z.(net := z.net.(framesRead := s.net.framesRead + 1));
      assert m.net.handlers[c := z'.net.handlers[c]] == z'.net.handlers;
      SoloStep(cfg, m, Read(c), z', g);
      SoloJoin(cfg, s, m, z', g);
    case (Err(_), _) =>
      var z := Moved(s, c, h.(pc := Leaving));
      assert m.net.handlers[c := z.net.handlers[c]] == z.net.handlers;
      SoloStep(cfg, m, ReadFail(c), z, g);
      SoloJoin(cfg, s, m, z, g);
  }

  /**
   A handler left alone sends its connection's payloads in order and stops as HandleConnection does, with the
   channel holding what was there and its own jobs in every round.
   */
  lemma {:induction false} HandlerAlone(cfg: Config, s: State, c: nat)
    requires Alive(s) && c < |s.net.handlers| && s.net.handlers[c].pc.Looping? && |s.chan.queue| <= cfg.queueDepth
    ensures StopsAlone(cfg, s, c, ParseAll(s.net.handlers[c].unread, EOF).0)
    decreases |s.net.handlers[c].unread|
  {
    var h, g := s.net.handlers[c], HandlerOfConn(c);
    var payloads := ParseAll(h.unread, EOF).0;
    if s.cancelled {
      var z := Moved(s, c, h.(pc := Leaving));
      ChecksAlone(cfg, s, c);
      SoloStep(cfg, s, Check(c), z, g);
      StopsHere(cfg, s, z, c, payloads, Left);
    } else {
      RoundAlone(cfg, s, c);
      match ParseFrame(h.unread, EOF) {
        case (Err(_), _) =>
          StopsHere(cfg, s, Moved(s, c, h.(pc := Leaving)), c, payloads, Left);
        case (Ok(p), rest) =>
          var m := Moved(s, c, h.(pc := Sending(p), unread := rest, read := h.read + [p]));
          var m' := m.(net := m.net.(framesRead := s.net.framesRead + 1));
          SendsAlone(cfg, m', c, p);
          if s.chan.closed {
            SoloStep(cfg, m', SendClosed(c), m'.(crashed := true), g);
            SoloJoin(cfg, s, m', m'.(crashed := true), g);
            StopsHere(cfg, s, m'.(crashed := true), c, payloads, SentOnClosed(p));
          } else if |s.chan.queue| == cfg.queueDepth {
            StopsHere(cfg, s, m', c, payloads, Blocked(p));
          } else {
            var t := Moved(m', c, m'.net.handlers[c].(pc := Looping)).(chan := Enqueue(s.chan, Job(c, p)));
            SoloStep(cfg, m', Send(c), t, g);
            SoloJoin(cfg, s, m', t, g);
            HandlerAlone(cfg, t, c);
            StopsLater(cfg, s, t, c, p, ParseAll(rest, EOF).0);
          }
      }
    }
  }

  lemma StopsHere(cfg: Config, s: State, z: State, c: nat, payloads: seq<Bytes>, end: HandlerEnd)
    requires Solo(cfg, s, z, HandlerOfConn(c)) && c < |z.net.handlers|
    requires z.chan == s.chan && z.work == s.work && z.sink == s.sink && z.main == s.main
    requires EndsAs(payloads, 0, Found(s.cancelled, s.chan.queue, s.chan.closed), cfg.queueDepth, end)
    requires match end
             case Left => z.net.handlers[c].pc == Leaving && !z.crashed
             case SentOnClosed(data) => z.net.handlers[c].pc == Sending(data) && z.crashed
             case Blocked(data) => z.net.handlers[c].pc == Sending(data) && !z.crashed
    ensures StopsAlone(cfg, s, c, payloads)
  {
    assert s.chan.queue + JobsFrom(c, payloads[..0]) == s.chan.queue;
    assert Stopped(cfg, s, z, c, payloads, 0, end);
  }

  /** One more payload in front: the jobs it makes, and where the handler stops. */
  lemma OneMorePayload(c: nat, p: Bytes, rest: seq<Bytes>, n: nat, f: Found, depth: nat, end: HandlerEnd)
    requires n <= |rest| && EndsAs(rest, n, f, depth, end)
    ensures n + 1 <= |[p] + rest| && EndsAs([p] + rest, n + 1, f, depth, end)
    ensures JobsFrom(c, ([p] + rest)[..n + 1]) == [Job(c, p)] + JobsFrom(c, rest[..n])
  {
    assert ([p] + rest)[..n + 1] == [p] + rest[..n];
    assert n < |rest| ==> ([p] + rest)[n + 1] == rest[n];
  }

  lemma StopsLater(cfg: Config, s: State, t: State, c: nat, p: Bytes, rest: seq<Bytes>)
    requires Solo(cfg, s, t, HandlerOfConn(c)) && StopsAlone(cfg, t, c, rest)
    requires t.chan == Enqueue(s.chan, Job(c, p)) && t.cancelled == s.cancelled
    requires t.work == s.work && t.sink == s.sink && t.main == s.main
    ensures StopsAlone(cfg, s, c, [p] + rest)
  {
    var z, n, end :| Solo(cfg, t, z, HandlerOfConn(c)) && Stopped(cfg, t, z, c, rest, n, end);
    SoloJoin(cfg, s, t, z, HandlerOfConn(c));
    StoppedLater(cfg, s, t, z, c, p, rest, n, end);
  }

  lemma StoppedLater(cfg: Config, s: State, t: State, z: State, c: nat, p: Bytes, rest: seq<Bytes>, n: nat,
                     end: HandlerEnd)
    requires Stopped(cfg, t, z, c, rest, n, end)
    requires t.chan == Enqueue(s.chan, Job(c, p)) && t.cancelled == s.cancelled
    requires t.work == s.work && t.sink == s.sink && t.main == s.main
    ensures Stopped(cfg, s, z, c, [p] + rest, n + 1, end)
  {
    OneMorePayload(c, p, rest, n, Found(t.cancelled, z.chan.queue, t.chan.closed), cfg.queueDepth, end);
    assert s.chan.queue + [Job(c, p)] + JobsFrom(c, rest[..n]) == s.chan.queue + ([Job(c, p)] + JobsFrom(c, rest[..n]));
  }

  // ------------------------------------------------------------------- workers

  function EffectsIn(s: State): Effects
  {
    Effects(s.work.metrics, s.sink.tables, s.sink.buffer)
  }

  /** Worker w is between jobs, its thread of the sink idle, the mutex free and the pool open. */
  ghost predicate AtRest(s: State, w: nat)
  {
    && Alive(s) && w < |s.work.pcs| && s.work.pcs[w].Ranging?
    && Sink.Writer(w) in s.sink.pcs && s.sink.pcs[Sink.Writer(w)].Idle?
    && s.sink.mutex == None && !s.sink.poolClosed
  }

  /** A worker's turn inside the sink, as the server sees it: the sink moves, and the worker stays inside Write. */
  ghost predicate Lifted(s: State, z: State, w: nat, k: Sink.State)
  {
    && z.sink == k && z.net == s.net && z.chan == s.chan && z.main == s.main && z.crashed == s.crashed
    && w < |s.work.pcs| == |z.work.pcs| && z.work.metrics == s.work.metrics
    && s.work.pcs[w].Writing? && z.work.pcs[w].Writing?
    && z.work.pcs[w].job == s.work.pcs[w].job && z.work.pcs[w].event == s.work.pcs[w].event
  }

  lemma LiftStep(cfg: Config, s: State, b: Sink.Action, w: nat)
    requires Alive(s) && w < |s.work.pcs| && s.work.pcs[w].Writing?
    requires Sink.Actor(b) == Sink.Writer(w) && PG.Inner(b) && Sink.Enabled(s.sink, b)
    ensures Enabled(cfg, s, SinkStep(b)) && Does(WorkerNo(w), SinkStep(b))
    ensures Lifted(s, Next(cfg, s, SinkStep(b)), w, Sink.Next(s.sink, b))
  {
  }

  lemma {:induction false} LiftRun(cfg: Config, s: State, acts: seq<Sink.Action>, k: Sink.State, w: nat)
    requires Alive(s) && w < |s.work.pcs| && s.work.pcs[w].Writing?
    requires forall b <- acts :: Sink.Actor(b) == Sink.Writer(w) && PG.Inner(b)
    requires Sink.Run(s.sink, acts) == Some(k)
    ensures exists z :: Solo(cfg, s, z, WorkerNo(w)) && Lifted(s, z, w, k)
  {
    if acts == [] {
      SoloNowhere(cfg, s, WorkerNo(w));
      assert Lifted(s, s, w, k);
    } else {
      var front, b := acts[..|acts| - 1], acts[|acts| - 1];
      var m := Sink.Run(s.sink, front).value;
      LiftRun(cfg, s, front, m, w);
      var y :| Solo(cfg, s, y, WorkerNo(w)) && Lifted(s, y, w, m);
      LiftStep(cfg, y, b, w);
      var z := Next(cfg, y, SinkStep(b));
      SoloStep(cfg, y, SinkStep(b), z, WorkerNo(w));
      SoloJoin(cfg, s, y, z, WorkerNo(w));
      assert Lifted(s, z, w, k);
    }
  }

  /** Where worker w is at pc, having taken the first job of s off the queue. */
  ghost predicate TookFirst(s: State, m: State, w: nat, pc: WorkerPc)
  {
    && s.chan.queue != [] && m.chan.queue == s.chan.queue[1..] && m.chan.closed == s.chan.closed
    && m.main == s.main && Alive(m) && w < |m.work.pcs| && m.work.pcs[w] == pc
  }

  lemma TakesAlone(cfg: Config, s: State, w: nat)
    requires AtRest(s, w) && s.chan.queue != []
    ensures var m := Next(cfg, s, Receive(w));
            Goes(cfg, s, Receive(w), m) && m.sink == s.sink && m.work.metrics == s.work.metrics
            && TookFirst(s, m, w, Unmarshaling(s.chan.queue[0]))
  {
  }

  lemma DecodesAlone(cfg: Config, s: State, m: State, w: nat, j: Job)
    requires TookFirst(s, m, w, Unmarshaling(j))
    ensures var z := Next(cfg, m, Unmarshal(w));
            Goes(cfg, m, Unmarshal(w), z) && z.sink == m.sink
            && match cfg.decode(j.data)
               case None =>
                 TookFirst(s, z, w, Ranging) && z.work.metrics == m.work.metrics.(errors := m.work.metrics.errors + 1)
               case Some(e) => TookFirst(s, z, w, Counting(j, e)) && z.work.metrics == m.work.metrics
  {
  }

  lemma CountsAlone(cfg: Config, s: State, m: State, w: nat, j: Job, e: Event)
    requires TookFirst(s, m, w, Counting(j, e))
    ensures var z := Next(cfg, m, Count(w));
            Goes(cfg, m, Count(w), z) && z.sink == m.sink && TookFirst(s, z, w, Calling(j, e))
            && z.work.metrics == CountEvent(m.work, e).metrics
  {
  }

  lemma CallsAlone(cfg: Config, s: State, m: State, w: nat, j: Job, e: Event)
    requires TookFirst(s, m, w, Calling(j, e)) && Sink.Writer(w) in m.sink.pcs && m.sink.pcs[Sink.Writer(w)].Idle?
    ensures var z := Next(cfg, m, Call(w));
            Goes(cfg, m, Call(w), z) && z.sink == Sink.Next(m.sink, Sink.Invoke(Sink.Writer(w), e))
            && TookFirst(s, z, w, Writing(j, e, false)) && z.work.metrics == m.work.metrics
  {
  }

  lemma ReturnsAlone(cfg: Config, s: State, m: State, w: nat, pc: WorkerPc)
    requires TookFirst(s, m, w, pc) && pc.Writing?
    requires Sink.Writer(w) in m.sink.pcs && m.sink.pcs[Sink.Writer(w)].Returned?
    ensures var z, ok := Next(cfg, m, Return(w)), m.sink.pcs[Sink.Writer(w)].ok;
            Goes(cfg, m, Return(w), z) && TookFirst(s, z, w, Observing(pc.job, pc.event))
            && z.sink == m.sink.(pcs := m.sink.pcs[Sink.Writer(w) := Sink.Idle])
            && z.work.metrics ==
               if ok then m.work.metrics else m.work.metrics.(errors := m.work.metrics.errors + 1)
  {
  }

  lemma ObservesAlone(cfg: Config, s: State, m: State, w: nat, pc: WorkerPc)
    requires TookFirst(s, m, w, pc) && pc.Observing?
    ensures var z := Next(cfg, m, Observe(w));
            Goes(cfg, m, Observe(w), z) && TookFirst(s, z, w, Ranging) && z.sink == m.sink
            && z.work.metrics == m.work.metrics.(observed := m.work.metrics.observed + 1)
  {
  }

  /** Worker w has done the first job of s. */
  ghost predicate DidFirst(cfg: Config, s: State, z: State, w: nat, fault: Option<nat>)
  {
    && TookFirst(s, z, w, Ranging) && AtRest(z, w) && z.sink.batchSize == s.sink.batchSize
    && EffectsIn(z) == Processed(EffectsIn(s), s.sink.batchSize, cfg.decode, s.chan.queue[0], fault)
  }

  /** Worker w is about to return from writing e, with these metrics, having found the sink as given. */
  ghost predicate Wrote(s: State, z: State, w: nat, j: Job, e: Event, fault: Option<nat>, found: Sink.State,
                        counted: Metrics)
  {
    && z.work.metrics == counted && PG.Filled(found, z.sink, Sink.Writer(w), e, fault)
    && (TookFirst(s, z, w, Writing(j, e, false)) || TookFirst(s, z, w, Writing(j, e, true)))
  }

  /** The worker's turn inside the sink, from the call to the return. */
  lemma WritesAlone(cfg: Config, s: State, m: State, sink: Sink.State, w: nat, j: Job, e: Event, fault: Option<nat>)
    requires TookFirst(s, m, w, Writing(j, e, false)) && sink.mutex == None
    requires Sink.Writer(w) in sink.pcs && sink.pcs[Sink.Writer(w)].Idle?
    requires m.sink == Sink.Next(sink, Sink.Invoke(Sink.Writer(w), e))
    ensures exists z :: Solo(cfg, m, z, WorkerNo(w)) && Wrote(s, z, w, j, e, fault, sink, m.work.metrics)
  {
    var t := Sink.Writer(w);
    PG.SoloWrite(sink, t, e, fault);
    var k :| PG.Alone(m.sink, k, t) && PG.Filled(sink, k, t, e, fault);
    var acts: seq<Sink.Action> :| (forall b <- acts :: Sink.Actor(b) == t && PG.Inner(b))
                                  && Sink.Run(m.sink, acts) == Some(k);
    LiftRun(cfg, m, acts, k, w);
    var z :| Solo(cfg, m, z, WorkerNo(w)) && Lifted(m, z, w, k);
    assert z.work.pcs[w] == Writing(j, e, z.work.pcs[w].appended);
    assert Wrote(s, z, w, j, e, fault, sink, m.work.metrics);
  }

  /** From the event to the return of the sink. */
  lemma EventAlone(cfg: Config, s: State, m: State, w: nat, j: Job, e: Event, fault: Option<nat>)
    requires TookFirst(s, m, w, Counting(j, e)) && m.sink.mutex == None
    requires Sink.Writer(w) in m.sink.pcs && m.sink.pcs[Sink.Writer(w)].Idle?
    ensures var counted := CountEvent(m.work, e).metrics;
            exists z :: Solo(cfg, m, z, WorkerNo(w)) && Wrote(s, z, w, j, e, fault, m.sink, counted)
  {
    var g := WorkerNo(w);
    var m1 := Next(cfg, m, Count(w));
    CountsAlone(cfg, s, m, w, j, e);
    SoloStep(cfg, m, Count(w), m1, g);
    var m2 := Next(cfg, m1, Call(w));
    CallsAlone(cfg, s, m1, w, j, e);
    SoloStep(cfg, m1, Call(w), m2, g);
    SoloJoin(cfg, m, m1, m2, g);
    WritesAlone(cfg, s, m2, m.sink, w, j, e, fault);
    var z :| Solo(cfg, m2, z, g) && Wrote(s, z, w, j, e, fault, m.sink, m2.work.metrics);
    SoloJoin(cfg, m, m2, z, g);
  }

  /** Worker w has come from m, about to return from the sink, to the next turn of its loop. */
  ghost predicate Rested(s: State, m: State, z: State, w: nat)
    requires Sink.Writer(w) in m.sink.pcs && m.sink.pcs[Sink.Writer(w)].Returned?
  {
    && TookFirst(s, z, w, Ranging) && z.sink == m.sink.(pcs := m.sink.pcs[Sink.Writer(w) := Sink.Idle])
    && z.work.metrics == m.work.metrics.(
         observed := m.work.metrics.observed + 1,
         errors := m.work.metrics.errors + if m.sink.pcs[Sink.Writer(w)].ok then 0 else 1)
  }

  /** From the return of the sink to the next turn of the loop. */
  lemma RestAlone(cfg: Config, s: State, m: State, w: nat, pc: WorkerPc)
    requires TookFirst(s, m, w, pc) && pc.Writing?
    requires Sink.Writer(w) in m.sink.pcs && m.sink.pcs[Sink.Writer(w)].Returned?
    ensures exists z :: Solo(cfg, m, z, WorkerNo(w)) && Rested(s, m, z, w)
  {
    var g := WorkerNo(w);
    var m1 := Next(cfg, m, Return(w));
    ReturnsAlone(cfg, s, m, w, pc);
    SoloStep(cfg, m, Return(w), m1, g);
    var z := Next(cfg, m1, Observe(w));
    ObservesAlone(cfg, s, m1, w, Observing(pc.job, pc.event));
    SoloStep(cfg, m1, Observe(w), z, g);
    SoloJoin(cfg, m, m1, z, g);
    assert Rested(s, m, z, w);
  }

  /** A worker left alone does one job as Process does. */
  lemma JobAlone(cfg: Config, s: State, w: nat, fault: Option<nat>)
    requires AtRest(s, w) && s.chan.queue != []
    ensures exists z :: Solo(cfg, s, z, WorkerNo(w)) && DidFirst(cfg, s, z, w, fault)
  {
    var g, j := WorkerNo(w), s.chan.queue[0];
    var m1 := Next(cfg, s, Receive(w));
    TakesAlone(cfg, s, w);
    SoloStep(cfg, s, Receive(w), m1, g);
    var m2 := Next(cfg, m1, Unmarshal(w));
    DecodesAlone(cfg, s, m1, w, j);
    SoloStep(cfg, m1, Unmarshal(w), m2, g);
    SoloJoin(cfg, s, m1, m2, g);
    match cfg.decode(j.data)
    case None => assert DidFirst(cfg, s, m2, w, fault);
    case Some(e) => EventDone(cfg, s, m2, w, e, fault);
  }

  lemma EventDone(cfg: Config, s: State, m: State, w: nat, e: Event, fault: Option<nat>)
    requires AtRest(s, w) && s.chan.queue != [] && cfg.decode(s.chan.queue[0].data) == Some(e)
    requires Solo(cfg, s, m, WorkerNo(w)) && TookFirst(s, m, w, Counting(s.chan.queue[0], e))
    requires m.sink == s.sink && m.work.metrics == s.work.metrics
    ensures exists z :: Solo(cfg, s, z, WorkerNo(w)) && DidFirst(cfg, s, z, w, fault)
  {
    var g, j, counted := WorkerNo(w), s.chan.queue[0], CountEvent(m.work, e).metrics;
    EventAlone(cfg, s, m, w, j, e, fault);
    var m' :| Solo(cfg, m, m', g) && Wrote(s, m', w, j, e, fault, m.sink, counted);
    RestAlone(cfg, s, m', w, m'.work.pcs[w]);
    var z :| Solo(cfg, m', z, g) && Rested(s, m', z, w);
    SoloJoin(cfg, s, m, m', g);
    SoloJoin(cfg, s, m', z, g);
    EventProcessed(cfg, s, m, m', z, w, e, fault);
  }

  lemma EventProcessed(cfg: Config, s: State, m: State, m': State, z: State, w: nat, e: Event, fault: Option<nat>)
    requires AtRest(s, w) && s.chan.queue != [] && cfg.decode(s.chan.queue[0].data) == Some(e)
    requires m.sink == s.sink && m.work.metrics == s.work.metrics
    requires Wrote(s, m', w, s.chan.queue[0], e, fault, m.sink, CountEvent(m.work, e).metrics)
    requires Rested(s, m', z, w)
    ensures DidFirst(cfg, s, z, w, fault)
  {
  }

  /** Worker w has done the first k jobs of s, as Worked says. */
  ghost predicate DidJobs(cfg: Config, s: State, z: State, w: nat, k: nat, faults: nat -> Option<nat>)
  {
    && k <= |s.chan.queue| && z.chan.queue == s.chan.queue[k..] && z.chan.closed == s.chan.closed
    && AtRest(z, w) && z.sink.batchSize == s.sink.batchSize
    && EffectsIn(z) == Worked(EffectsIn(s), s.sink.batchSize, cfg.decode, s.chan.queue[..k], faults)
  }

  lemma {:induction false} JobsAlone(cfg: Config, s: State, w: nat, k: nat, faults: nat -> Option<nat>)
    requires AtRest(s, w) && k <= |s.chan.queue|
    ensures exists z :: Solo(cfg, s, z, WorkerNo(w)) && DidJobs(cfg, s, z, w, k, faults)
  {
    if k == 0 {
      SoloNowhere(cfg, s, WorkerNo(w));
      assert DidJobs(cfg, s, s, w, 0, faults);
    } else {
      JobsAlone(cfg, s, w, k - 1, faults);
      var m :| Solo(cfg, s, m, WorkerNo(w)) && DidJobs(cfg, s, m, w, k - 1, faults);
      JobAlone(cfg, m, w, faults(k - 1));
      var z :| Solo(cfg, m, z, WorkerNo(w)) && DidFirst(cfg, m, z, w, faults(k - 1));
      SoloJoin(cfg, s, m, z, WorkerNo(w));
      DidOneMore(cfg, s, m, z, w, k - 1, faults);
    }
  }

  lemma DidOneMore(cfg: Config, s: State, m: State, z: State, w: nat, k: nat, faults: nat -> Option<nat>)
    requires DidJobs(cfg, s, m, w, k, faults) && DidFirst(cfg, m, z, w, faults(k))
    ensures DidJobs(cfg, s, z, w, k + 1, faults)
  {
    WorkedNext(EffectsIn(s), s.sink.batchSize, cfg.decode, s.chan.queue, k, faults);
  }

  /**
   A worker left alone processes the whole queue with exactly the effects of the method Worker, and then exits if the
   channel is closed and waits otherwise.
   */
  lemma WorkerAlone(cfg: Config, s: State, w: nat, faults: nat -> Option<nat>)
    requires AtRest(s, w)
    ensures exists z :: Solo(cfg, s, z, WorkerNo(w)) && z.chan.queue == [] && w < |z.work.pcs|
              && EffectsIn(z) == Worked(EffectsIn(s), s.sink.batchSize, cfg.decode, s.chan.queue, faults)
              && z.work.pcs[w] == if s.chan.closed then Done else Ranging
  {
    JobsAlone(cfg, s, w, |s.chan.queue|, faults);
    var m :| Solo(cfg, s, m, WorkerNo(w)) && DidJobs(cfg, s, m, w, |s.chan.queue|, faults);
    assert s.chan.queue[..|s.chan.queue|] == s.chan.queue;
    if s.chan.closed {
      ExitsAlone(cfg, m, w);
      SoloStep(cfg, m, Finish(w), Next(cfg, m, Finish(w)), WorkerNo(w));
      SoloJoin(cfg, s, m, Next(cfg, m, Finish(w)), WorkerNo(w));
    }
  }

  lemma ExitsAlone(cfg: Config, s: State, w: nat)
    requires AtRest(s, w) && s.chan.queue == [] && s.chan.closed
    ensures var z := Next(cfg, s, Finish(w));
            Goes(cfg, s, Finish(w), z) && z.chan == s.chan && w < |z.work.pcs| && z.work.pcs[w].Done?
            && EffectsIn(z) == EffectsIn(s)
  {
  }
}
