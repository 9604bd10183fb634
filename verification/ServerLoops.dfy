/**
 The bodies of handleConnection and worker as loops over the objects they share,
 each run on its own.  `Pipeline` interleaves their steps.
 */
module ServerLoops {
  import opened Wrappers
  import opened Events
  import opened Frame
  import Framing = Frame
  import opened Pipeline
  import opened PipelineJobs
  import PG = PostgresSink
  import SinkSafety

  /** The buffered channel of jobs. */
  class Channel {
    const depth: nat
    var queue: seq<Job>
    var closed: bool

    constructor (depth: nat)
      ensures this.depth == depth && queue == [] && !closed
    {
      this.depth, queue, closed := depth, [], false;
    }
  }

  /** How a handler comes to a stop: it leaves, blocks on a full channel, or panics on a closed one. */
  datatype HandlerEnd = Left | Blocked(data: Bytes) | SentOnClosed(data: Bytes)

  /** What a handler finds in one round: the context at its test, the channel when it has a frame to send. */
  datatype Found = Found(cancelled: bool, queue: seq<Job>, closed: bool)

  function JobsFrom(conn: nat, payloads: seq<Bytes>): seq<Job>
  {
    seq(|payloads|, i requires 0 <= i < |payloads| => Job(conn, payloads[i]))
  }

  lemma JobsFromSnoc(conn: nat, payloads: seq<Bytes>, n: nat)
    requires n < |payloads|
    ensures JobsFrom(conn, payloads[..n + 1]) == JobsFrom(conn, payloads[..n]) + [Job(conn, payloads[n])]
  {
  }

  lemma PayloadsNext(payloads: seq<Bytes>, i: nat, payload: Bytes, rest: seq<Bytes>)
    requires i <= |payloads| && payloads[i..] == [payload] + rest
    ensures i < |payloads| && payloads[i] == payload && payloads[i + 1..] == rest
  {
    assert payloads[i..][0] == payload && payloads[i..][1..] == payloads[i + 1..];
    assert ([payload] + rest)[1..] == rest;
  }

  /** A round that sends its frame. */
  predicate GoesOn(f: Found, depth: nat)
  {
    !f.cancelled && !f.closed && |f.queue| < depth
  }

  /** A round that ends the loop, after n frames of the payloads the connection will yield. */
  predicate EndsAs(payloads: seq<Bytes>, n: nat, f: Found, depth: nat, end: HandlerEnd)
  {
    match end
    case Left => f.cancelled || n == |payloads|
    case SentOnClosed(data) => n < |payloads| && data == payloads[n] && !f.cancelled && f.closed
    case Blocked(data) => n < |payloads| && data == payloads[n] && !f.cancelled && !f.closed && |f.queue| >= depth
  }

  /**
   Read frames and send them to the channel.  What the handler sends is the first of the connection's payloads, in
   order; it stops at the first round that finds the context cancelled, the channel closed or full, or no more frames.
   */
  method HandleConnection(conn: nat, r: Reader, jobs: Channel, found: nat -> Found)
    returns (end: HandlerEnd, ghost sent: seq<Job>)
    modifies r, jobs
    ensures var payloads, n := ParseAll(old(r.Remaining()), r.end).0, |sent|;
            && n <= |payloads| && sent == JobsFrom(conn, payloads[..n])
            && (forall i: nat | i < n :: GoesOn(found(i), jobs.depth))
            && EndsAs(payloads, n, found(n), jobs.depth, end)
            && (jobs.queue, jobs.closed) ==
               if !end.Left? then (found(n).queue, found(n).closed)
               else if n == 0 then (old(jobs.queue), old(jobs.closed))
               else (found(n - 1).queue + [Job(conn, payloads[n - 1])], false)
  {
    ghost var payloads := ParseAll(r.Remaining(), r.end).0;
    sent := [];
    var i: nat := 0;
    while true
      invariant i <= |payloads| && ParseAll(r.Remaining(), r.end).0 == payloads[i..]
      invariant sent == JobsFrom(conn, payloads[..i]) && |sent| == i
      invariant forall k: nat | k < i :: GoesOn(found(k), jobs.depth)
      invariant (jobs.queue, jobs.closed) ==
                if i == 0 then (old(jobs.queue), old(jobs.closed))
                else (found(i - 1).queue + [Job(conn, payloads[i - 1])], false)
      decreases |r.Remaining()|
    {
      if found(i).cancelled {
        return Left, sent;
      }
      var result := Framing.Read(r);
      if result.Err? {
        return Left, sent;
      }
      PayloadsNext(payloads, i, result.value, ParseAll(r.Remaining(), r.end).0);
      jobs.queue, jobs.closed := found(i).queue, found(i).closed;
      if jobs.closed {
        return SentOnClosed(result.value), sent;
      }
      if |jobs.queue| >= jobs.depth {
        return Blocked(result.value), sent;
      }
      jobs.queue := jobs.queue + [Job(conn, result.value)];
      JobsFromSnoc(conn, payloads, i);
      sent := sent + [Job(conn, result.value)];
      i := i + 1;
    }
  }

  // ------------------------------------------------------------------- worker

  class Meters {
    var trade: nat
    var log: nat
    var errors: nat
    var observed: nat

    constructor ()
      ensures Value() == Metrics(0, 0, 0, 0)
    {
      trade, log, errors, observed := 0, 0, 0, 0;
    }

    function Value(): Metrics
      reads this
    {
      Metrics(trade, log, errors, observed)
    }
  }

  /** What the worker's jobs change: the metrics, the tables and the buffered rows. */
  datatype Effects = Effects(metrics: Metrics, tables: Batch, buffer: Batch)

  /** One job: an undecodable one is an error; any other is counted by kind, written and observed. */
  function Processed(x: Effects, batchSize: int, decode: Bytes -> Option<Event>, j: Job, fault: Option<nat>): Effects
  {
    match decode(j.data)
    case None => x.(metrics := x.metrics.(errors := x.metrics.errors + 1))
    case Some(e) =>
      var (rest, batch) := PG.WriteSplit(x.buffer, batchSize, e);
      var m := x.metrics.(observed := x.metrics.observed + 1);
      var m1 := if e.payload.TradePayload? then m.(trade := m.trade + 1)
                else if e.payload.LogPayload? then m.(log := m.log + 1) else m;
      Effects(if PG.OkAfter(batch, true, fault) then m1 else m1.(errors := m1.errors + 1),
              PG.TablesAfter(x.tables, batch, true, fault), rest)
  }

  /** The jobs one after the other; faults(k) is the database's answer to a flush during the k-th job. */
  function Worked(x: Effects, batchSize: int, decode: Bytes -> Option<Event>, jobs: seq<Job>,
                  faults: nat -> Option<nat>): Effects
  {
    if jobs == [] then x
    else
      var n := |jobs| - 1;
      Processed(Worked(x, batchSize, decode, jobs[..n], faults), batchSize, decode, jobs[n], faults(n))
  }

  /** A write that succeeds adds its row behind all rows written and buffered before. */
  lemma WriteAdds(tables: Batch, buffer: Batch, batchSize: int, e: Event)
    ensures var (rest, batch) := PG.WriteSplit(buffer, batchSize, e);
            PG.TablesAfter(tables, batch, true, None).Plus(rest) == tables.Plus(buffer).Plus(RowsOf(e))
  {
    SinkSafety.PlusAssociative(tables, buffer, RowsOf(e));
  }

  /**
   With no failing flush, the tables and then the buffer gain exactly the rows of the jobs, in order;
   the only errors are the undecodable jobs, and every other job is observed.
   */
  lemma {:induction false} WorkedWell(x: Effects, batchSize: int, decode: Bytes -> Option<Event>, jobs: seq<Job>,
                                      faults: nat -> Option<nat>)
    requires forall k: nat | k < |jobs| :: faults(k) == None
    ensures var y := Worked(x, batchSize, decode, jobs, faults);
            && y.tables.Plus(y.buffer) == x.tables.Plus(x.buffer).Plus(RowsOfJobs(decode, jobs))
            && y.metrics.errors == x.metrics.errors + Failures(decode, jobs)
            && y.metrics.observed + Failures(decode, jobs) == x.metrics.observed + |jobs|
  {
    if jobs != [] {
      var n := |jobs| - 1;
      WorkedWell(x, batchSize, decode, jobs[..n], faults);
      var y := Worked(x, batchSize, decode, jobs[..n], faults);
      SinkSafety.PlusAssociative(x.tables.Plus(x.buffer), RowsOfJobs(decode, jobs[..n]), JobRows(decode, jobs[n]));
      if e :| decode(jobs[n].data) == Some(e) {
        WriteAdds(y.tables, y.buffer, batchSize, e);
      }
    }
  }

  ghost function EffectsOf(sink: PG.PostgresSink, meters: Meters): Effects
    reads sink, sink.db, meters
  {
    Effects(meters.Value(), sink.db.Tables(), sink.Buffer())
  }

  /** One turn of the worker's loop: decode, count, write, observe. */
  method Process(job: Job, sink: PG.PostgresSink, meters: Meters, decode: Bytes -> Option<Event>, fault: Option<nat>)
    requires sink.db.open
    modifies sink, sink.db, meters
    ensures sink.db.open
    ensures EffectsOf(sink, meters) == Processed(old(EffectsOf(sink, meters)), sink.batchSize, decode, job, fault)
  {
    var decoded := decode(job.data);
    if decoded.None? {
      meters.errors := meters.errors + 1;
      return;
    }
    var event := decoded.value;
    match event.payload {
      case TradePayload(_) => meters.trade := meters.trade + 1;
      case LogPayload(_) => meters.log := meters.log + 1;
      case NoPayload =>
    }
    var ok := sink.Write(event, fault);
    if !ok {
      meters.errors := meters.errors + 1;
    }
    meters.observed := meters.observed + 1;
  }

  /** What the handlers and main do to the channel while the worker waits at an empty one. */
  datatype Arrival = Arrival(jobs: seq<Job>, closes: bool)

  /** The jobs that come before the channel is closed, and whether it is. */
  function Coming(closed: bool, arrivals: seq<Arrival>): (seq<Job>, bool)
    decreases |arrivals|
  {
    if closed || arrivals == [] then ([], closed)
    else
      var (more, closes) := Coming(arrivals[0].closes, arrivals[1..]);
      (arrivals[0].jobs + more, closes)
  }

  /** All arrivals in front of the first that closes the channel, and that one, come in turn; later ones do not. */
  lemma {:induction false} ComesInOrder(front: seq<Arrival>, a: Arrival, back: seq<Arrival>)
    requires forall b <- front :: !b.closes
    ensures var (before, after) := (Coming(false, front), Coming(a.closes, back));
            !before.1 && Coming(false, front + [a] + back) == (before.0 + a.jobs + after.0, after.1)
    ensures Coming(true, back) == ([], true)
    decreases |front|
  {
    var all := front + [a] + back;
    if front == [] {
      assert all[0] == a && all[1..] == back;
      assert [] + a.jobs == a.jobs;
    } else {
      var tail := front[1..] + [a] + back;
      assert all[0] == front[0] && all[1..] == tail;
      ComesInOrder(front[1..], a, back);
      var (before, after) := (Coming(false, front[1..]), Coming(a.closes, back));
      assert front[0].jobs + (before.0 + a.jobs + after.0) == front[0].jobs + before.0 + a.jobs + after.0;
    }
  }

  /** What is left of all jobs after k, when it is a queue and what comes behind it. */
  lemma FirstOf(all: seq<Job>, k: nat, queue: seq<Job>, more: seq<Job>)
    requires k <= |all| && all[k..] == queue + more && queue != []
    ensures k < |all| && all[k] == queue[0] && all[k + 1..] == queue[1..] + more
  {
    assert all[k..][0] == all[k] && all[k..][1..] == all[k + 1..];
    assert (queue + more)[1..] == queue[1..] + more;
  }

  lemma WorkedNext(x: Effects, batchSize: int, decode: Bytes -> Option<Event>, all: seq<Job>, k: nat,
                   faults: nat -> Option<nat>)
    requires k < |all|
    ensures Worked(x, batchSize, decode, all[..k + 1], faults) ==
            Processed(Worked(x, batchSize, decode, all[..k], faults), batchSize, decode, all[k], faults(k))
  {
    assert all[..k + 1][..k] == all[..k] && all[..k + 1][k] == all[k];
  }

  /**
   Take and process jobs: those in the channel and those that come, in order, each once.  On a closed and empty
   channel the worker exits; otherwise it goes on waiting.
   */
  method Worker(jobs: Channel, sink: PG.PostgresSink, meters: Meters, decode: Bytes -> Option<Event>,
                faults: nat -> Option<nat>, arrivals: seq<Arrival>)
    returns (exited: bool)
    requires sink.db.open
    modifies jobs, sink, sink.db, meters
    ensures jobs.queue == [] && exited == jobs.closed == Coming(old(jobs.closed), arrivals).1
    ensures EffectsOf(sink, meters) ==
            Worked(old(EffectsOf(sink, meters)), sink.batchSize, decode,
                   old(jobs.queue) + Coming(old(jobs.closed), arrivals).0, faults)
  {
    ghost var all := jobs.queue + Coming(jobs.closed, arrivals).0;
    var k: nat := 0;
    var i: nat := 0;
    while true
      invariant i <= |arrivals| && sink.db.open
      invariant k <= |all| && all[k..] == jobs.queue + Coming(jobs.closed, arrivals[i..]).0
      invariant Coming(jobs.closed, arrivals[i..]).1 == Coming(old(jobs.closed), arrivals).1
      invariant EffectsOf(sink, meters) ==
                Worked(old(EffectsOf(sink, meters)), sink.batchSize, decode, all[..k], faults)
      decreases |arrivals| - i, |jobs.queue|
    {
      if jobs.queue != [] {
        var job := jobs.queue[0];
        FirstOf(all, k, jobs.queue, Coming(jobs.closed, arrivals[i..]).0);
        WorkedNext(old(EffectsOf(sink, meters)), sink.batchSize, decode, all, k, faults);
        jobs.queue := jobs.queue[1..];
        Process(job, sink, meters, decode, faults(k));
        k := k + 1;
      } else if jobs.closed || i == |arrivals| {
        assert all[..k] == all;
        return jobs.closed;
      } else {
        assert arrivals[i..][0] == arrivals[i] && arrivals[i..][1..] == arrivals[i + 1..];
        jobs.queue, jobs.closed := arrivals[i].jobs, arrivals[i].closes;
        i := i + 1;
      }
    }
  }
}
