/**
 The server with the PostgreSQL sink as one concurrent program: the accept loop,
 one handler per connection, the bounded job channel, the worker pool, the sink's
 threads and the shutdown sequence of main.

 One `Action` is one step of one goroutine, or the arrival of bytes.  Sending on
 the closed channel is a step of its own: it crashes the process.  A worker may
 panic at any point while it has a job in hand.

 `received`, `read`, `framesRead`, `enqueued`, `dequeued` and the fields of
 `Tally` are histories: no step reads them.
 */
module Pipeline {
  import opened Wrappers
  import opened Events
  import opened Frame
  import Sink = SinkProtocol

  datatype Config = Config(
    workers: nat,
    queueDepth: nat,
    maxConns: nat,
    batchSize: int,
    decode: Bytes -> Option<Event>)

  /** One frame, with the connection it came from. */
  datatype Job = Job(conn: nat, data: Bytes)

  datatype HandlerPc =
    | Spawned                 // slot taken, gauge not yet incremented
    | Looping                 // at the test for cancellation
    | Reading                 // in frame.Read
    | Sending(data: Bytes)    // a frame in hand for the channel
    | Leaving | Releasing     // deferred: gauge, then slot
    | HangingUp               // deferred: conn.Close
    | Gone

  datatype Handler = Handler(pc: HandlerPc, unread: Bytes, received: Bytes, read: seq<Bytes>)

  datatype AcceptorPc = Accepting | Accepted | Ended

  datatype Net = Net(handlers: seq<Handler>, acceptor: AcceptorPc, tokens: nat, active: int, framesRead: nat)

  datatype Chan = Chan(queue: seq<Job>, closed: bool, enqueued: seq<Job>, dequeued: seq<Job>)

  datatype WorkerPc =
    | Ranging
    | Unmarshaling(job: Job)
    | Counting(job: Job, event: Event)
    | Calling(job: Job, event: Event)
    | Writing(job: Job, event: Event, appended: bool)    // inside s.Write
    | Observing(job: Job, event: Event)
    | Done
    | Panicked

  datatype Metrics = Metrics(trade: nat, log: nat, errors: nat, observed: nat)

  datatype Tally = Tally(
    finished: nat,             // jobs whose loop body ran to its end
    sinkErrors: nat,
    failed: seq<Job>,          // jobs that did not decode
    written: seq<Job>,         // jobs in the order their rows entered the sink's buffers
    lostUnwritten: seq<Job>,   // jobs lost to a panic before that point
    lostCounted: seq<Job>,     // those of them whose event had been counted
    lostWritten: seq<Job>)     // jobs lost to a panic after that point

  datatype Work = Work(pcs: seq<WorkerPc>, wg: int, metrics: Metrics, tally: Tally)

  datatype MainPc =
    | Serving | Signalled | Flagged | Unlistened | Cancelled
    | Waiting                 // jobs closed, in wg.Wait
    | Deferred                // wg.Wait returned, about to run eventSink.Close
    | Closing
    | Returned

  datatype State = State(
    net: Net,
    chan: Chan,
    work: Work,
    sink: Sink.State,
    main: MainPc,
    listening: bool,
    cancelled: bool,
    crashed: bool)

  const NO_TALLY := Tally(0, 0, [], [], [], [], [])

  function Init(cfg: Config, tables: Batch): State
  {
    State(Net([], Accepting, 0, 0, 0), Chan([], false, [], []),
          Work(seq(cfg.workers, _ => Ranging), cfg.workers, Metrics(0, 0, 0, 0), NO_TALLY),
          Sink.Init(cfg.batchSize, tables, cfg.workers), Serving, true, false, false)
  }

  datatype Action =
    // the network and the accept loop
    | Deliver(c: nat, bytes: Bytes) | Accept | AcceptFail | Acquire | Reject
    // handler c
    | Start(c: nat) | Check(c: nat) | Read(c: nat) | ReadFail(c: nat) | Send(c: nat) | SendClosed(c: nat)
    | Leave(c: nat) | Release(c: nat) | HangUp(c: nat)
    // worker w
    | Receive(w: nat) | Finish(w: nat) | Unmarshal(w: nat) | Count(w: nat) | Call(w: nat)
    | Return(w: nat) | Observe(w: nat) | Panic(w: nat)
    // a thread of the sink, inside Write, the flusher or Close
    | SinkStep(a: Sink.Action)
    // main
    | Signal | SetFlag | CloseListener | Cancel | CloseJobs | WaitDone | CallClose | CloseDone

  predicate IsHandler(s: State, c: nat) { c < |s.net.handlers| }

  predicate HasJob(pc: WorkerPc)
  {
    !pc.Ranging? && !pc.Done? && !pc.Panicked?
  }

  /** The process is still alive: neither crashed nor returned from main. */
  predicate Alive(s: State)
  {
    !s.crashed && !s.main.Returned?
  }

  predicate NetEnabled(cfg: Config, s: State, a: Action)
  {
    match a
    case Deliver(c, _) => IsHandler(s, c)
    case Accept => s.net.acceptor.Accepting? && s.listening
    case AcceptFail => s.net.acceptor.Accepting?
    case Acquire => s.net.acceptor.Accepted? && s.net.tokens < cfg.maxConns
    case Reject => s.net.acceptor.Accepted? && s.net.tokens >= cfg.maxConns
    case Start(c) => IsHandler(s, c) && s.net.handlers[c].pc.Spawned?
    case Check(c) => IsHandler(s, c) && s.net.handlers[c].pc.Looping?
    case Read(c) =>
      IsHandler(s, c) && s.net.handlers[c].pc.Reading? && ParseFrame(s.net.handlers[c].unread, EOF).0.Ok?
    case ReadFail(c) => IsHandler(s, c) && s.net.handlers[c].pc.Reading?
    case Send(c) =>
      && IsHandler(s, c) && s.net.handlers[c].pc.Sending?
      && !s.chan.closed && |s.chan.queue| < cfg.queueDepth
    case SendClosed(c) => IsHandler(s, c) && s.net.handlers[c].pc.Sending? && s.chan.closed
    case Leave(c) => IsHandler(s, c) && s.net.handlers[c].pc.Leaving?
    case Release(c) => IsHandler(s, c) && s.net.handlers[c].pc.Releasing? && s.net.tokens > 0
    case HangUp(c) => IsHandler(s, c) && s.net.handlers[c].pc.HangingUp?
    case _ => false
  }

  /** Steps inside the sink that no other goroutine of the server takes part in. */
  predicate SinkOnly(a: Sink.Action)
  {
    !a.Invoke? && !a.Panic? && !a.BeginClose? && (a.Finish? ==> a.t.Flusher?)
  }

  predicate WorkEnabled(cfg: Config, s: State, a: Action)
  {
    match a
    case Receive(w) => w < |s.work.pcs| && s.work.pcs[w].Ranging? && s.chan.queue != []
    case Finish(w) => w < |s.work.pcs| && s.work.pcs[w].Ranging? && s.chan.queue == [] && s.chan.closed
    case Unmarshal(w) => w < |s.work.pcs| && s.work.pcs[w].Unmarshaling?
    case Count(w) => w < |s.work.pcs| && s.work.pcs[w].Counting?
    case Call(w) =>
      && w < |s.work.pcs| && s.work.pcs[w].Calling?
      && Sink.Enabled(s.sink, Sink.Invoke(Sink.Writer(w), s.work.pcs[w].event))
    case Return(w) =>
      && w < |s.work.pcs| && s.work.pcs[w].Writing? && Sink.Enabled(s.sink, Sink.Finish(Sink.Writer(w)))
    case Observe(w) => w < |s.work.pcs| && s.work.pcs[w].Observing?
    case Panic(w) =>
      && w < |s.work.pcs| && HasJob(s.work.pcs[w])
      && (s.work.pcs[w].Writing? ==> Sink.Enabled(s.sink, Sink.Panic(Sink.Writer(w))))
    case SinkStep(a) =>
      && SinkOnly(a) && Sink.Enabled(s.sink, a)
      && (a.Append? ==> a.t.Writer? && a.t.id < |s.work.pcs| && s.work.pcs[a.t.id].Writing?)
    case _ => false
  }

  predicate MainEnabled(s: State, a: Action)
  {
    match a
    case Signal => s.main.Serving?
    case SetFlag => s.main.Signalled?
    case CloseListener => s.main.Flagged?
    case Cancel => s.main.Unlistened?
    case CloseJobs => s.main.Cancelled?
    case WaitDone => s.main.Waiting? && s.work.wg == 0
    case CallClose => s.main.Deferred? && Sink.Enabled(s.sink, Sink.BeginClose)
    case CloseDone => s.main.Closing? && Sink.Enabled(s.sink, Sink.Finish(Sink.Closer))
    case _ => false
  }

  predicate Enabled(cfg: Config, s: State, a: Action)
  {
    Alive(s) && (NetEnabled(cfg, s, a) || WorkEnabled(cfg, s, a) || MainEnabled(s, a))
  }

  // ------------------------------------------------------------- transitions

  function SetHandler(net: Net, c: nat, h: Handler): Net
    requires c < |net.handlers|
  {
    net.(handlers := net.handlers[c := h])
  }

  function MoveHandler(net: Net, c: nat, pc: HandlerPc): Net
    requires c < |net.handlers|
  {
    SetHandler(net, c, net.handlers[c].(pc := pc))
  }

  /** The connections after a step of the network side. */
  function NextHandlers(cfg: Config, s: State, a: Action): Net
    requires NetEnabled(cfg, s, a)
  {
    var net := s.net;
    match a
    case Deliver(c, bytes) =>
      var h := net.handlers[c];
      SetHandler(net, c, h.(unread := h.unread + bytes, received := h.received + bytes))
    case Accept => net.(acceptor := Accepted)
    case AcceptFail => net.(acceptor := if s.cancelled then Ended else Accepting)
    case Acquire =>
      net.(handlers := net.handlers + [Handler(Spawned, [], [], [])], acceptor := Accepting, tokens := net.tokens + 1)
    case Reject => net.(acceptor := Accepting)
    case Start(c) => MoveHandler(net, c, Looping).(active := net.active + 1)
    case Check(c) => MoveHandler(net, c, if s.cancelled then Leaving else Reading)
    case Read(c) =>
      var h := net.handlers[c];
      var (r, rest) := ParseFrame(h.unread, EOF);
      SetHandler(net, c, h.(pc := Sending(r.value), unread := rest, read := h.read + [r.value]))
        .(framesRead := net.framesRead + 1)
    case ReadFail(c) => MoveHandler(net, c, Leaving)
    case Send(c) => MoveHandler(net, c, Looping)
    case SendClosed(c) => net
    case Leave(c) => MoveHandler(net, c, Releasing).(active := net.active - 1)
    case Release(c) => MoveHandler(net, c, HangingUp).(tokens := net.tokens - 1)
    case HangUp(c) => MoveHandler(net, c, Gone)
  }

  function Enqueue(chan: Chan, job: Job): Chan
  {
    chan.(queue := chan.queue + [job], enqueued := chan.enqueued + [job])
  }

  function NextNet(cfg: Config, s: State, a: Action): State
    requires NetEnabled(cfg, s, a)
  {
    s.(net := NextHandlers(cfg, s, a),
       chan := if a.Send? then Enqueue(s.chan, Job(a.c, s.net.handlers[a.c].pc.data)) else s.chan,
       crashed := s.crashed || a.SendClosed?)
  }

  function MoveWorker(work: Work, w: nat, pc: WorkerPc): Work
    requires w < |work.pcs|
  {
    work.(pcs := work.pcs[w := pc])
  }

  function CountEvent(work: Work, e: Event): Work
  {
    match e.payload
    case TradePayload(_) => work.(metrics := work.metrics.(trade := work.metrics.trade + 1))
    case LogPayload(_) => work.(metrics := work.metrics.(log := work.metrics.log + 1))
    case NoPayload => work
  }

  function CountError(work: Work): Work
  {
    work.(metrics := work.metrics.(errors := work.metrics.errors + 1))
  }

  /** Record a job lost to a panic by how far it got. */
  function Lose(tally: Tally, pc: WorkerPc): Tally
    requires HasJob(pc)
  {
    var written := pc.Observing? || (pc.Writing? && pc.appended);
    var counted := pc.Calling? || (pc.Writing? && !pc.appended);
    tally.(lostUnwritten := if written then tally.lostUnwritten else tally.lostUnwritten + [pc.job],
           lostWritten := if written then tally.lostWritten + [pc.job] else tally.lostWritten,
           lostCounted := if counted then tally.lostCounted + [pc.job] else tally.lostCounted)
  }

  function NextWork(cfg: Config, s: State, a: Action): State
    requires WorkEnabled(cfg, s, a)
  {
    var work := s.work;
    match a
    case Receive(w) =>
      var job := s.chan.queue[0];
      s.(work := MoveWorker(work, w, Unmarshaling(job)),
         chan := s.chan.(queue := s.chan.queue[1..], dequeued := s.chan.dequeued + [job]))
    case Finish(w) => s.(work := MoveWorker(work, w, Done).(wg := work.wg - 1))
    case Unmarshal(w) =>
      var job := work.pcs[w].job;
      (match cfg.decode(job.data)
       case Some(e) => s.(work := MoveWorker(work, w, Counting(job, e)))
       case None =>
         s.(work := CountError(MoveWorker(work, w, Ranging))
                    .(tally := work.tally.(finished := work.tally.finished + 1, failed := work.tally.failed + [job]))))
    case Count(w) =>
      var pc := work.pcs[w];
      s.(work := CountEvent(MoveWorker(work, w, Calling(pc.job, pc.event)), pc.event))
    case Call(w) =>
      var pc := work.pcs[w];
      s.(work := MoveWorker(work, w, Writing(pc.job, pc.event, false)),
         sink := Sink.Next(s.sink, Sink.Invoke(Sink.Writer(w), pc.event)))
    case Return(w) =>
      var pc := work.pcs[w];
      var moved := MoveWorker(work, w, Observing(pc.job, pc.event));
      var failed := !s.sink.pcs[Sink.Writer(w)].ok;
      s.(work := if failed
                 then CountError(moved).(tally := work.tally.(sinkErrors := work.tally.sinkErrors + 1))
                 else moved,
         sink := Sink.Next(s.sink, Sink.Finish(Sink.Writer(w))))
    case Observe(w) =>
      s.(work := MoveWorker(work, w, Ranging)
                 .(metrics := work.metrics.(observed := work.metrics.observed + 1),
                   tally := work.tally.(finished := work.tally.finished + 1)))
    case Panic(w) =>
      var pc := work.pcs[w];
      s.(work := MoveWorker(work, w, Panicked).(wg := work.wg - 1, tally := Lose(work.tally, pc)),
         sink := if pc.Writing? then Sink.Next(s.sink, Sink.Panic(Sink.Writer(w))) else s.sink)
    case SinkStep(a) =>
      var moved := s.(sink := Sink.Next(s.sink, a));
      if a.Append? then
        var pc := work.pcs[a.t.id];
        moved.(work := MoveWorker(work, a.t.id, Writing(pc.job, pc.event, true))
                       .(tally := work.tally.(written := work.tally.written + [pc.job])))
      else moved
  }

  function NextMain(s: State, a: Action): State
    requires MainEnabled(s, a)
  {
    match a
    case Signal => s.(main := Signalled)
    case SetFlag => s.(main := Flagged)
    case CloseListener => s.(main := Unlistened, listening := false)
    case Cancel => s.(main := Cancelled, cancelled := true)
    case CloseJobs => s.(main := Waiting, chan := s.chan.(closed := true))
    case WaitDone => s.(main := Deferred)
    case CallClose => s.(main := Closing, sink := Sink.Next(s.sink, Sink.BeginClose))
    case CloseDone => s.(main := Returned, sink := Sink.Next(s.sink, Sink.Finish(Sink.Closer)))
  }

  function Next(cfg: Config, s: State, a: Action): State
    requires Enabled(cfg, s, a)
  {
    if NetEnabled(cfg, s, a) then NextNet(cfg, s, a)
    else if WorkEnabled(cfg, s, a) then NextWork(cfg, s, a)
    else NextMain(s, a)
  }

  /** The state after a whole run, or None if some action was not enabled when its turn came. */
  function Run(cfg: Config, s: State, acts: seq<Action>): Option<State>
  {
    if acts == [] then Some(s)
    else
      match Run(cfg, s, acts[..|acts| - 1])
      case None => None
      case Some(m) =>
        if Enabled(cfg, m, acts[|acts| - 1]) then Some(Next(cfg, m, acts[|acts| - 1])) else None
  }

  /** A run of the whole program over the given tables reaches s. */
  ghost predicate Reaches(cfg: Config, initial: Batch, acts: seq<Action>, s: State)
  {
    Run(cfg, Init(cfg, initial), acts) == Some(s)
  }
}
