/** What every step of the server keeps. */
module PipelineSafety {
  import opened Wrappers
  import opened Events
  import opened Frame
  import opened Sequences
  import opened Pipeline
  import Sink = SinkProtocol
  import SinkSafety

  // ------------------------------------------------ connections and the gauge

  function Token(h: Handler): int
  {
    if h.pc.HangingUp? || h.pc.Gone? then 0 else 1
  }

  function Gauge(h: Handler): int
  {
    if h.pc.Looping? || h.pc.Reading? || h.pc.Sending? || h.pc.Leaving? then 1 else 0
  }

  /** The semaphore holds one token per handler that has not released, and the gauge counts a part of them. */
  ghost predicate SemaphoreInv(cfg: Config, net: Net)
  {
    && net.tokens == Sum(net.handlers, Token)
    && net.active == Sum(net.handlers, Gauge)
    && net.tokens <= cfg.maxConns
  }

  const FRESH := Handler(Spawned, [], [], [])

  /** From net to net' only handler c moves, and it accounts for what it does to the semaphore and the gauge. */
  ghost predicate HandlerMoves(net: Net, net': Net, c: nat)
  {
    && c < |net.handlers| == |net'.handlers|
    && net'.handlers == net.handlers[c := net'.handlers[c]]
    && net'.tokens - net.tokens == Token(net'.handlers[c]) - Token(net.handlers[c])
    && net'.active - net.active == Gauge(net'.handlers[c]) - Gauge(net.handlers[c])
    && net'.framesRead - net.framesRead == |net'.handlers[c].read| - |net.handlers[c].read|
    && net'.tokens <= net.tokens
  }

  ghost predicate HandlerJoins(cfg: Config, net: Net, net': Net)
  {
    && net'.handlers == net.handlers + [FRESH]
    && net'.tokens == net.tokens + 1 <= cfg.maxConns
    && net'.active == net.active && net'.framesRead == net.framesRead
  }

  ghost predicate HandlersStay(net: Net, net': Net)
  {
    && net'.handlers == net.handlers && net'.tokens == net.tokens
    && net'.active == net.active && net'.framesRead == net.framesRead
  }

  /** The handler that takes the step, if one does. */
  function HandlerOf(a: Action): Option<nat>
  {
    match a
    case Deliver(c, _) => Some(c)
    case Start(c) => Some(c)
    case Check(c) => Some(c)
    case Read(c) => Some(c)
    case ReadFail(c) => Some(c)
    case Send(c) => Some(c)
    case Leave(c) => Some(c)
    case Release(c) => Some(c)
    case HangUp(c) => Some(c)
    case _ => None
  }

  lemma NetKind(cfg: Config, s: State, a: Action)
    requires NetEnabled(cfg, s, a)
    ensures var net, net', c := s.net, NextNet(cfg, s, a).net, HandlerOf(a);
            if c.Some? then HandlerMoves(net, net', c.value)
            else if a.Acquire? then HandlerJoins(cfg, net, net')
            else HandlersStay(net, net')
  {
  }

  lemma SemaphoreStep(cfg: Config, net: Net, net': Net, c: nat)
    requires SemaphoreInv(cfg, net)
    requires HandlerMoves(net, net', c) || HandlerJoins(cfg, net, net') || HandlersStay(net, net')
    ensures SemaphoreInv(cfg, net')
  {
    if HandlerJoins(cfg, net, net') {
      SumAppend(net.handlers, FRESH, Token);
      SumAppend(net.handlers, FRESH, Gauge);
    } else if HandlerMoves(net, net', c) {
      SumUpdate(net.handlers, c, net'.handlers[c], Token);
      SumUpdate(net.handlers, c, net'.handlers[c], Gauge);
    }
  }

  // ------------------------------------------------------- per-connection order

  /** The frames a handler has read but not yet sent: at most one. */
  function InHand(h: Handler): seq<Bytes>
  {
    if h.pc.Sending? then [h.pc.data] else []
  }

  /** The payloads that jobs hold from connection c, in order. */
  function OfConn(jobs: seq<Job>, c: nat): seq<Bytes>
  {
    if jobs == [] then []
    else OfConn(jobs[..|jobs| - 1], c) + if jobs[|jobs| - 1].conn == c then [jobs[|jobs| - 1].data] else []
  }

  lemma OfConnSnoc(jobs: seq<Job>, j: Job, c: nat)
    ensures OfConn(jobs + [j], c) == OfConn(jobs, c) + if j.conn == c then [j.data] else []
  {
    assert (jobs + [j])[..|jobs|] == jobs;
  }

  lemma {:induction false} OfConnNone(jobs: seq<Job>, c: nat)
    requires forall j <- jobs :: j.conn != c
    ensures OfConn(jobs, c) == []
  {
    if jobs != [] {
      OfConnNone(jobs[..|jobs| - 1], c);
    }
  }

  /** A handler's bytes are the frames it has read followed by the bytes it has not. */
  ghost predicate HandlerOk(h: Handler, sent: seq<Bytes>)
  {
    && Sendable(h.read)
    && h.received == Stream(h.read) + h.unread
    && h.read == sent + InHand(h)
  }

  ghost predicate StreamInv(net: Net, enqueued: seq<Job>)
  {
    && (forall c | 0 <= c < |net.handlers| :: HandlerOk(net.handlers[c], OfConn(enqueued, c)))
    && (forall j <- enqueued :: j.conn < |net.handlers|)
  }

  lemma StreamRead(h: Handler, sent: seq<Bytes>)
    requires HandlerOk(h, sent) && h.pc.Reading? && ParseFrame(h.unread, EOF).0.Ok?
    ensures var (r, rest) := ParseFrame(h.unread, EOF);
            HandlerOk(h.(pc := Sending(r.value), unread := rest, read := h.read + [r.value]), sent)
  {
    var (r, rest) := ParseFrame(h.unread, EOF);
    ParsedIsFramed(h.unread, EOF);
    StreamAppend(h.read, [r.value]);
    StreamOne(r.value);
    assert Stream(h.read) + (Framed(r.value) + rest) == Stream(h.read) + Framed(r.value) + rest;
  }

  lemma StreamDeliver(h: Handler, sent: seq<Bytes>, bytes: Bytes)
    requires HandlerOk(h, sent)
    ensures HandlerOk(h.(unread := h.unread + bytes, received := h.received + bytes), sent)
  {
    assert Stream(h.read) + (h.unread + bytes) == Stream(h.read) + h.unread + bytes;
  }

  lemma StreamJoins(cfg: Config, net: Net, net': Net, enqueued: seq<Job>)
    requires StreamInv(net, enqueued) && HandlerJoins(cfg, net, net')
    ensures StreamInv(net', enqueued)
  {
    OfConnNone(enqueued, |net.handlers|);
    assert Stream([]) == [];
  }

  lemma StreamMoves(net: Net, net': Net, c: nat, enqueued: seq<Job>)
    requires StreamInv(net, enqueued) && HandlerMoves(net, net', c)
    requires HandlerOk(net'.handlers[c], OfConn(enqueued, c))
    ensures StreamInv(net', enqueued)
  {
  }

  lemma SendOk(h: Handler, sent: seq<Bytes>, data: Bytes)
    requires HandlerOk(h, sent) && h.pc == Sending(data)
    ensures HandlerOk(h.(pc := Looping), sent + [data])
  {
    assert (sent + [data]) + [] == sent + [data];
  }

  lemma StreamSends(net: Net, net': Net, c: nat, enqueued: seq<Job>, data: Bytes)
    requires StreamInv(net, enqueued) && HandlerMoves(net, net', c)
    requires net.handlers[c].pc == Sending(data) && net'.handlers[c] == net.handlers[c].(pc := Looping)
    ensures StreamInv(net', enqueued + [Job(c, data)])
  {
    var more := enqueued + [Job(c, data)];
    forall d | 0 <= d < |net.handlers| ensures HandlerOk(net'.handlers[d], OfConn(more, d)) {
      var sent := OfConn(enqueued, d);
      assert HandlerOk(net.handlers[d], sent);
      OfConnSnoc(enqueued, Job(c, data), d);
      if d == c {
        SendOk(net.handlers[c], sent, data);
      } else {
        assert sent + [] == sent;
      }
    }
  }

  /** What the mover's own bytes and frames look like after any step but a send. */
  lemma MoverOk(cfg: Config, s: State, a: Action, sent: seq<Bytes>)
    requires NetEnabled(cfg, s, a) && HandlerOf(a).Some? && !a.Send?
    requires HandlerOk(s.net.handlers[HandlerOf(a).value], sent)
    ensures HandlerOf(a).value < |NextNet(cfg, s, a).net.handlers|
    ensures HandlerOk(NextNet(cfg, s, a).net.handlers[HandlerOf(a).value], sent)
  {
    var h := s.net.handlers[HandlerOf(a).value];
    match a
    case Read(c) => StreamRead(h, sent);
    case Deliver(c, bytes) => StreamDeliver(h, sent, bytes);
    case _ =>
  }

  lemma StreamStep(cfg: Config, s: State, a: Action)
    requires StreamInv(s.net, s.chan.enqueued) && NetEnabled(cfg, s, a)
    ensures StreamInv(NextNet(cfg, s, a).net, NextNet(cfg, s, a).chan.enqueued)
  {
    var net, net', enqueued := s.net, NextNet(cfg, s, a).net, s.chan.enqueued;
    NetKind(cfg, s, a);
    if c :| HandlerOf(a) == Some(c) {
      if a.Send? {
        StreamSends(net, net', c, enqueued, net.handlers[c].pc.data);
      } else {
        MoverOk(cfg, s, a, OfConn(enqueued, c));
        StreamMoves(net, net', c, enqueued);
        assert NextNet(cfg, s, a).chan == s.chan;
      }
    } else if a.Acquire? {
      StreamJoins(cfg, net, net', enqueued);
    }
  }

  // ------------------------------------------------------------- the channel

  ghost predicate ChanInv(cfg: Config, chan: Chan)
  {
    && chan.enqueued == chan.dequeued + chan.queue
    && |chan.queue| <= cfg.queueDepth
  }

  lemma ChanNet(cfg: Config, s: State, a: Action)
    requires ChanInv(cfg, s.chan) && NetEnabled(cfg, s, a)
    ensures ChanInv(cfg, NextNet(cfg, s, a).chan)
  {
    if a.Send? {
      assert s.chan.dequeued + (s.chan.queue + [Job(a.c, s.net.handlers[a.c].pc.data)]) ==
             s.chan.dequeued + s.chan.queue + [Job(a.c, s.net.handlers[a.c].pc.data)];
    }
  }

  lemma ChanWork(cfg: Config, s: State, a: Action)
    requires ChanInv(cfg, s.chan) && WorkEnabled(cfg, s, a)
    ensures ChanInv(cfg, NextWork(cfg, s, a).chan)
  {
    if a.Receive? {
      assert s.chan.dequeued + s.chan.queue == s.chan.dequeued + [s.chan.queue[0]] + s.chan.queue[1..];
    }
  }

  // ---------------------------------------------------------------- counting

  function HeldFrames(h: Handler): int
  {
    |InHand(h)|
  }

  function Busy(pc: WorkerPc): int
  {
    if HasJob(pc) then 1 else 0
  }

  function Live(pc: WorkerPc): int
  {
    if pc.Done? || pc.Panicked? then 0 else 1
  }

  ghost predicate ReadInv(net: Net, chan: Chan)
  {
    net.framesRead == Sum(net.handlers, HeldFrames) + |chan.enqueued|
  }

  lemma ReadStep(cfg: Config, s: State, a: Action)
    requires ReadInv(s.net, s.chan) && NetEnabled(cfg, s, a)
    ensures ReadInv(NextNet(cfg, s, a).net, NextNet(cfg, s, a).chan)
  {
    var hs, hs' := s.net.handlers, NextNet(cfg, s, a).net.handlers;
    if a.Acquire? {
      SumAppend(hs, Handler(Spawned, [], [], []), HeldFrames);
    } else if hs' != hs {
      SumUpdate(hs, a.c, hs'[a.c], HeldFrames);
    }
  }

  /** Every job taken from the channel is in a worker's hands, finished, or lost to a panic. */
  ghost predicate JobsInv(work: Work, chan: Chan)
  {
    var t := work.tally;
    |chan.dequeued| == Sum(work.pcs, Busy) + t.finished + |t.lostUnwritten| + |t.lostWritten|
  }

  function Lost(pc: WorkerPc): int
  {
    if pc.Panicked? then 1 else 0
  }

  /** Every panic loses exactly one job. */
  ghost predicate PanicInv(work: Work)
  {
    var t := work.tally;
    && |t.lostUnwritten| + |t.lostWritten| == Sum(work.pcs, Lost)
    && |t.lostCounted| <= |t.lostUnwritten|
  }

  ghost predicate LiveInv(cfg: Config, work: Work, chan: Chan)
  {
    && |work.pcs| == cfg.workers
    && work.wg == Sum(work.pcs, Live)
    && (forall pc <- work.pcs :: pc.Done? ==> chan.closed && chan.queue == [])
  }

  /** The worker that takes the step, if one does. */
  function WorkerOf(a: Action): Option<nat>
  {
    match a
    case Receive(w) => Some(w)
    case Finish(w) => Some(w)
    case Unmarshal(w) => Some(w)
    case Count(w) => Some(w)
    case Call(w) => Some(w)
    case Return(w) => Some(w)
    case Observe(w) => Some(w)
    case Panic(w) => Some(w)
    case SinkStep(a) => if a.Append? && a.t.Writer? then Some(a.t.id) else None
    case _ => None
  }

  lemma OneWorkerMoves(cfg: Config, s: State, a: Action)
    requires WorkEnabled(cfg, s, a)
    ensures var work, work', w := s.work, NextWork(cfg, s, a).work, WorkerOf(a);
            if w.None? then work' == work
            else w.value < |work.pcs| && |work'.pcs| == |work.pcs| &&
                 work'.pcs == work.pcs[w.value := work'.pcs[w.value]]
  {
  }

  lemma JobsStep(cfg: Config, s: State, a: Action)
    requires JobsInv(s.work, s.chan) && WorkEnabled(cfg, s, a)
    ensures JobsInv(NextWork(cfg, s, a).work, NextWork(cfg, s, a).chan)
  {
    OneWorkerMoves(cfg, s, a);
    var s' := NextWork(cfg, s, a);
    if w :| WorkerOf(a) == Some(w) {
      SumUpdate(s.work.pcs, w, s'.work.pcs[w], Busy);
    }
  }

  lemma LiveStep(cfg: Config, s: State, a: Action)
    requires LiveInv(cfg, s.work, s.chan) && WorkEnabled(cfg, s, a)
    ensures LiveInv(cfg, NextWork(cfg, s, a).work, NextWork(cfg, s, a).chan)
  {
    OneWorkerMoves(cfg, s, a);
    var s' := NextWork(cfg, s, a);
    if w :| WorkerOf(a) == Some(w) {
      SumUpdate(s.work.pcs, w, s'.work.pcs[w], Live);
    }
  }

  lemma PanicStep(cfg: Config, s: State, a: Action)
    requires PanicInv(s.work) && WorkEnabled(cfg, s, a)
    ensures PanicInv(NextWork(cfg, s, a).work)
  {
    OneWorkerMoves(cfg, s, a);
    var s' := NextWork(cfg, s, a);
    if w :| WorkerOf(a) == Some(w) {
      SumUpdate(s.work.pcs, w, s'.work.pcs[w], Lost);
    }
  }
}
