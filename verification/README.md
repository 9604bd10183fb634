# Aegis Stream: a verified model

Aegis Stream accepts length-prefixed protobuf events over TCP, queues them, and hands them to a pool of workers
that write them to a sink; with PostgreSQL as the sink, rows are batched and written in transactions. An operator
deploys the server into Kubernetes from a custom resource; a market-data feed and a load generator produce events.

This project models that system in Dafny and proves what it guarantees, over all inputs, all interleavings of its
goroutines and all failures of the calls it makes. `dafny verify dfyconfig.toml` checks it.

## How it is organised

| Files | What they model |
|---|---|
| `SinkProtocol`, `SinkSafety`, `SinkTheorems` | the batching sink as a state machine over the single steps of its threads: any number of writers, the ticker and one `Close`; every database call may fail, every writer may panic |
| `PostgresSink` | the same sink as classes whose methods follow the program, and the proof that a thread of the protocol running alone computes what these methods promise |
| `Frame` | framing: meaning on bytes, and methods over a reader that fragments and a writer that may stop short |
| `Pipeline` | the whole server as a state machine: accept loop, semaphore, handlers, job channel, workers with panic recovery, the sink of `SinkProtocol`, and main's shutdown sequence; a send on the closed channel is an explicit crash |
| `PipelineSafety`, `PipelineJobs`, `PipelineRuns` | its invariants, each kept by every step |
| `PipelineTheorems`, `PipelineErrors`, `PipelineLiveness`, `PipelineShutdown`, `PipelineReach`, `PipelineAccept` | what follows for every run: order, accounting, drain, what the error counter counts, when the accept loop takes a client on; termination, progress, what cancellation stops, and exactly when, and under which configurations, the process can crash or hang |
| `ServerLoops`, `ServerSolo` | `handleConnection` and `worker` as loops over shared objects, and the proof that a goroutine of `Pipeline` running alone does what they promise |
| `Operator`, `OperatorTheorems` | the reconcile loop over a cluster, with API calls that are refused or lose their reply |
| `Config` | loading and validating the server's configuration |
| `Feed`, `FeedRuns`, `Stress` | the feed's reconnecting read loop, its runs over any number of reconnects, and the load generator |
| `Events`, `Decimal`, `Division`, `Sequences`, `Wrappers` | rows of events, `%d` and `Atoi`, arithmetic, sums, `Option` and `Result` |

State machines have an `Action` type, an `Enabled` predicate and a `Next` function; `Run` folds a sequence of actions,
so "for every run" is a quantifier over action sequences. Fields such as `accepted`, `log`, `commits`, `enqueued`,
`dequeued` and `tally` are histories: no step's guard or other effect depends on them.

Taken as parameters: `decode` (an arbitrary function from bytes to an optional event, in place of protobuf), the
outcome of every database and API call, what the network delivers and when, `time.ParseDuration`.

## Where the code and its documentation differ

The model follows the code.

- `internal/config/config.go:19` says a connection limit of 0 means unlimited. In the code the semaphore then has no
  slot and every connection is rejected (`PipelineTheorems.ZeroMeansNone`).
- `NOTES.md:132-156` and `NOTES.md:360-362` describe a shutdown in which handlers stop before `jobs` is closed. The
  code cancels their context but does not wait for them. A handler inside `frame.Read` or about to send can still
  send, and a send on a closed channel panics in a goroutine without `recover`.
  `PipelineLiveness.CrashPossibleIff` says exactly when this can happen, and `PipelineReach.CrashReachableIff` that
  every configuration that accepts connections has such a run. The drain theorems are about runs in which main returns.
- `NOTES.md:432-445` and `cmd/server/main.go:203-206` say that `recover` keeps the server from hanging on shutdown. That
  holds for every panic outside the sink's critical section. `Write` unlocks without `defer`, so a panic inside the
  critical section would leave the mutex taken, and then main never returns (`PipelineShutdown.ReturnPossibleIff`,
  with the configurations that have such a run in `PipelineReach.HangReachableIff`).
- `internal/config/config.go:134` says only stdout and postgres are supported; nats is accepted too.
- `cmd/stress/main.go:268-270` says a random payload is picked; the code goes round-robin.
- The frame header holds `uint32(len(data))`, so a payload of 2^32 bytes or more is announced with a wrong length
  (`Frame.FrameRoundTrip`).

## Model

| member | source | states |
|---|---|---|
| SinkTheorems.Conservation | internal/sink/postgres.go:105-255 | in every reachable state, for any number of writers plus ticker and Close, the accepted rows are, as multisets per kind, the rows buffered, in flight, committed and dropped by a failed flush; the tables hold the initial rows and the committed ones; a batch is in flight exactly while one thread, its owner, holds it |
| SinkTheorems.OrderPreserved | internal/sink/postgres.go:106-145 | per kind, the batches in the order they were detached followed by the buffer spell the rows in the order the mutex admitted them; the tables are whole committed batches, each once, in commit order |
| SinkTheorems.ExactBatchSizes | internal/sink/postgres.go:130-138 | for a positive batch size the buffers hold fewer rows than that whenever the mutex is free, every batch detached by Write has exactly that many rows, every batch of the ticker or Close fewer |
| SinkTheorems.MutualExclusion | internal/sink/postgres.go:28-34 | never two threads in the critical section, and only the thread the mutex names changes the buffers |
| SinkTheorems.TransactionsAreAtomic | internal/sink/postgres.go:182-230 | in every reachable state a step changes the tables only by a successful commit, and then by exactly the batch its thread holds, which was in flight |
| SinkTheorems.ErrorsAreTruthful | internal/sink/postgres.go:144-147 | a turn returns an error if and only if the batch it flushed was dropped, and succeeds if and only if that batch was committed, was empty and skipped, or there was none |
| SinkTheorems.CloseFlushesAll | internal/sink/postgres.go:232-255 | if no Write is under way when Close begins and none follows, then when Close returns the buffers are empty and every accepted row is in its table or in a batch whose flush failed |
| SinkTheorems.UnsettledRows | internal/sink/postgres.go:105-255 | in every state that keeps the invariant, the rows accepted and neither committed nor dropped are at most a full buffer and one full batch per thread |
| SinkSafety.StepKeepsInv | internal/sink/postgres.go:105-255 | every step of every thread keeps the sink's invariant (mutex ownership, batches in hand, flow, sizes, truthful returns, commits, tables) |
| SinkSafety.RunKeepsInv | internal/sink/postgres.go:105-255 | so does every run |
| SinkSafety.StepKind | internal/sink/postgres.go:127-148 | each step either detaches the whole buffer into the actor's hands, settles the batch in its hands, or leaves both the log and the hands alone |
| PostgresSink.PostgresSink.Flush | internal/sink/postgres.go:188-230 | for any rows and any call that fails (begin, the k-th insert, commit, none), the tables gain exactly the batch in order and the call succeeds, or they are unchanged and it fails |
| PostgresSink.PostgresSink.Write | internal/sink/postgres.go:105-148 | the buffers and tables after a Write and its result, from those before: a row whose every column is the event's field of that name is appended, and a full buffer is detached whole and flushed |
| PostgresSink.PostgresSink.Drain | internal/sink/postgres.go:165-177 | what the ticker and Close do: the buffers end empty and the tables gain what was buffered unless the flush fails |
| PostgresSink.PostgresSink.BackgroundFlusher | internal/sink/postgres.go:154-180 | over any rounds of rows arriving and then a tick or the stop: each tick flushes exactly what has arrived since the last, the stop leaves what has arrived for Close, and a stopped flusher does nothing |
| PostgresSink.TickedKeepsRows | internal/sink/postgres.go:160-178 | if no flush fails, the tables and then the buffer hold every row that arrived over all ticks, in order |
| PostgresSink.TickedEmpties | internal/sink/postgres.go:160-178 | whether flushes fail or not, after a tick the buffers are empty, and after the stop they hold what arrived since the last tick |
| PostgresSink.ArrivedInOrder | internal/sink/postgres.go:160-178 | every round up to the stop brings its rows behind those of the rounds before it |
| PostgresSink.PostgresSink.Close | internal/sink/postgres.go:234-255 | the last flush happens before the pool is closed |
| PostgresSink.PostgresSink.constructor | internal/sink/postgres.go:83-88 | an empty sink with a batch size of 100 |
| PostgresSink.SoloInserts | internal/sink/postgres.go:201-226 | in the protocol, a transaction left alone reaches exactly the all-or-nothing result that Flush promises, for every failing call |
| PostgresSink.SoloFlush | internal/sink/postgres.go:188-230 | the same from the begin call on, on an open or a closed pool |
| PostgresSink.SoloWrite | internal/sink/postgres.go:105-148 | from any state with the mutex free, a writer of the protocol running alone returns with exactly the buffers, tables and result of the method Write |
| PostgresSink.SoloDrain | internal/sink/postgres.go:165-177 | likewise the ticker and Close, and the method Drain |
| PostgresSink.SoloTick | internal/sink/postgres.go:160-178 | whenever it is idle and the mutex free, the ticker's goroutine can start a turn that empties the buffers |
| Events.RowsReadBack | internal/sink/postgres.go:108-125 | an event has exactly one row of its kind, and reading that row column by column gives the event back |
| Frame.FrameRoundTrip | internal/frame/frame.go:11-44 | reading the frame of a payload gives the payload and leaves nothing, if and only if its length is below 2^32 |
| Frame.HeaderRoundTrip | internal/frame/frame.go:13-14 | the header of a length n decodes to n modulo 2^32 |
| Frame.HeaderUnique | internal/frame/frame.go:36 | encoding what a header decodes to gives the header back |
| Frame.BigEndian | internal/frame/frame.go:14 | headers compare byte by byte, first byte first, exactly as the lengths do |
| Frame.ParsedIsFramed | internal/frame/frame.go:28-44 | what a successful read took off the input is the frame of the payload it returned |
| Frame.ParseStream | internal/frame/frame.go:28-44 | whole frames in front are read back in order, and reading goes on behind them |
| Frame.TruncatedStream | internal/frame/frame.go:28-44 | a stream cut after any n bytes yields exactly the payloads whose frames lie wholly before the cut, in order, then an error that tells where in a frame the cut fell |
| Frame.TruncationError | internal/frame/frame.go:31-42 | the error says header or payload as the cut falls, and plain end of file exactly if that read had received nothing; any other cause is passed on |
| Frame.WholeFrames | internal/frame/frame.go:28-44 | the number of frames wholly within the first n bytes: that many fit and one more would not |
| Frame.CleanEndIffBoundary | internal/frame/frame.go:31-33 | reading ends with a plain end of file if and only if the stream was cut between two frames |
| Frame.StreamInjective | internal/frame/frame.go:11-44 | framed streams decode uniquely |
| Frame.ReadFull | internal/frame/frame.go:31-42 | however the reader fragments, the buffer is filled with the next bytes, or the right error is returned and nothing is left |
| Frame.Read | internal/frame/frame.go:28-44 | one read through a fragmenting reader is ParseFrame on the bytes that remain |
| Frame.ReadAll | internal/frame/frame.go:28-44 | Read called until its first error returns what ParseAll says of the bytes, whatever the fragments |
| Frame.Write | internal/frame/frame.go:11-24 | the whole frame is sent, or an error is returned and only the part of it that fitted |
| PipelineTheorems.EndToEndDrain | cmd/server/main.go:136-146 | a run in which main returns, no worker panicked and no flush failed leaves in the tables, besides what was there, exactly the rows of the frames ever enqueued, each once |
| PipelineTheorems.DrainAccounts | cmd/server/main.go:136-146 | in any run in which main returns, the rows of the frames ever enqueued are, each once, committed, dropped by a failed flush, lost with a job to a panic, or left on the queue; nothing is buffered |
| PipelineTheorems.PerConnectionOrder | cmd/server/main.go:160-197 | what a connection has put on the queue is a prefix of what its handler read, at most one frame behind, itself a prefix of the frames encoded in the connection's bytes; the queue is first-in first-out and within its depth |
| PipelineTheorems.Accounting | cmd/server/main.go:173-245 | frames read = in handlers' hands + queued + in workers' hands + finished + lost, one lost per panic; trade and log counters = rows accepted + on their way + lost on the way; observations = finished - undecodable |
| PipelineTheorems.FinishedJobs | cmd/server/main.go:213-245 | in every reachable state, jobs finished + past the buffers and not finished + lost there = undecodable + trades accepted + logs accepted + events without payload; and the accepted rows are those of the written jobs in order |
| PipelineTheorems.AccountingAtRest | cmd/server/main.go:213-245 | the same with all workers between jobs, told from the jobs taken alone: finished = undecodable + trade counter + log counter + without payload, and each counter is exact |
| PipelineErrors.ErrorsCountFailedWrites | cmd/server/main.go:218-236 | over every run, the error counter with the errors about to be counted is the undecodable jobs and the batches of Write whose flush failed, short by at most one per panicked worker and exact without panics; failed flushes of the ticker and of Close are never counted |
| PipelineErrors.ErrorsAtRest | cmd/server/main.go:218-236 | with all workers between jobs the error counter is exactly the undecodable jobs taken and the failed flushes of Write |
| PipelineErrors.FailureMoves | internal/sink/postgres.go:144-147 | every step of a writer that drops its batch makes it report an error, and no other step changes the number of failed writes, a panic apart |
| PipelineTheorems.SinkErrorsCounted | cmd/server/main.go:233-236 | the error counter goes up for a write if and only if the batch that write flushed was dropped |
| PipelineTheorems.KindsPartition | cmd/server/main.go:218-230 | every job is undecodable, a trade, a log, or an event without payload |
| PipelineTheorems.Semaphore | cmd/server/main.go:98-154 | active connections <= slots taken = handlers not yet released <= the limit, and a connection is rejected only while every slot is taken |
| PipelineAccept.EndsOnlyOnCancel | cmd/server/main.go:106-133 | in every reachable state the accept loop has ended only if the context was cancelled: no failed accept and no rejection ends it |
| PipelineAccept.ListeningMeansOpen | cmd/server/main.go:105-134 | in every reachable state of the live, listening server, the accept loop on its own can take another connection on if and only if a slot is free |
| PipelineAccept.TakesOneOnIff | cmd/server/main.go:105-134 | in any live state it can if and only if a slot is free and a client is accepted or may still come |
| PipelineAccept.Rejects | cmd/server/main.go:124-132 | turning a client away leads back to accepting and changes nothing else |
| PipelineAccept.FailsToAccept | cmd/server/main.go:107-116 | a failed accept changes nothing, or ends the loop if the context was cancelled |
| PipelineAccept.FreesItsSlot | cmd/server/main.go:150-154 | a handler that leaves, running alone, lowers the gauge by one, gives back its slot, and hangs up |
| PipelineTheorems.ZeroMeansNone | cmd/server/main.go:120-132 | with a limit of 0 no connection is ever handled |
| PipelineTheorems.WaitGroupCountsLive | cmd/server/main.go:100-103 | the WaitGroup counts exactly the workers that have neither exited nor panicked |
| PipelineTheorems.WaitMeansDrained | cmd/server/main.go:143-145 | when wg.Wait has returned, the queue is empty or every worker has panicked |
| PipelineRuns.StepKeepsInv | cmd/server/main.go:105-246 | every step of every goroutine keeps the server's invariant |
| PipelineRuns.RunKeepsInv | cmd/server/main.go:105-246 | so does every run |
| PipelineSafety.SemaphoreStep | cmd/server/main.go:120-154 | every step of the network side keeps the semaphore and gauge counts |
| PipelineSafety.StreamStep | cmd/server/main.go:173-196 | every step keeps each handler's bytes equal to the frames it read followed by the bytes it has not, and its sent frames behind by at most the one in hand |
| PipelineJobs.CoupleStep | cmd/server/main.go:233 | a worker is inside the sink's Write exactly while its thread of the sink is, and both agree how far it got |
| PipelineJobs.WrittenStep | cmd/server/main.go:213-236 | the rows the sink accepted are the rows of the written jobs, in the order they were written |
| PipelineJobs.WhereStep | cmd/server/main.go:207-246 | every job taken from the channel is written, undecodable, lost to a panic, or in one worker's hands |
| PipelineLiveness.DrainTerminates | cmd/server/main.go:143-145 | after close(jobs), in any interleaving, the workers take at most Measure further steps |
| PipelineLiveness.StepDrops | cmd/server/main.go:213-246 | after close(jobs), every step of a worker decreases the measure and no other step increases it |
| PipelineTheorems.CrashLosesAtMost | cmd/server/main.go:90-103 | in every reachable state, frames read and not taken are at most one per connection slot and a full queue, jobs in hand at most one per worker, and rows accepted and neither committed nor dropped at most batchSize * (workers + 3) |
| PipelineLiveness.WorkProgress | cmd/server/main.go:213-246 | in every reachable state of the live process in which a worker holds a job, or one is live and the queue is non-empty or closed, some worker can step, or the ticker out of the critical section, unless a panic left the mutex taken |
| PipelineLiveness.PanicUnderLockWedges | internal/sink/postgres.go:106-140 | a worker that panics between Lock and Unlock strands every worker waiting for the mutex |
| PipelineLiveness.WedgedForever | cmd/server/main.go:203-211 | a worker stranded like this keeps main in wg.Wait in every continuation |
| PipelineShutdown.ReturnPossibleIff | cmd/server/main.go:136-147 | from every reachable state of the live process, whatever failed or panicked before, some continuation has main return, if and only if no panic left the sink's mutex taken |
| PipelineShutdown.StepNearer | cmd/server/main.go:136-147 | unless the mutex is left taken, some enabled step of main, a worker, the ticker or Close strictly decreases a bound on the way to main's return, and keeps that way open |
| PipelineShutdown.CancelStopsReading | cmd/server/main.go:160-165 | once the context is cancelled, in every continuation each connection sends at most the frames it had read and the one it was reading, and at most one more connection is taken on, which sends nothing |
| PipelineLiveness.CrashPossibleIff | cmd/server/main.go:141-143 | once jobs is closed, a run that crashes on a send is possible if and only if some handler is reading a frame or holds one |
| PipelineReach.CrashReachableIff | cmd/server/main.go:141-143 | some run from the start crashes on a send to the closed channel if and only if the connection limit is positive |
| PipelineReach.HangReachableIff | cmd/server/main.go:203-211 | some run from the start reaches a state of the live process from which main can never return if and only if connection limit, queue depth and workers are positive and some payload below 2^32 bytes decodes |
| PipelineReach.WedgeReachableIff | internal/sink/postgres.go:106-140 | under the same condition, and no other, some run leaves the mutex taken by a panicked worker |
| ServerLoops.HandleConnection | cmd/server/main.go:149-198 | whatever the handler finds in each round, it sends the first of its connection's payloads in order, through every round that finds the context live and the channel open with room, and stops at the first that does not or when the frames end |
| ServerSolo.HandlerAlone | cmd/server/main.go:149-198 | from any state of the server at the top of its loop, a handler running alone sends and stops exactly as HandleConnection promises, a send on the closed channel being the crash |
| ServerLoops.Process | cmd/server/main.go:213-245 | one job: an undecodable one is only an error, any other is counted by kind, written, and observed, with an error if the write failed |
| ServerLoops.Worker | cmd/server/main.go:200-246 | the worker processes the jobs in the channel and all that come before the close, each once and in order, and exits if and only if the channel is closed |
| ServerLoops.ComesInOrder | cmd/server/main.go:213 | the jobs that reach a waiting worker are those of all arrivals in turn up to the one that closes the channel, and none after it |
| ServerSolo.WorkerAlone | cmd/server/main.go:200-246 | from any state of the server between jobs with the mutex free and the pool open, a worker running alone reaches the metrics, tables and buffers of Worker for any answers of the database, and exits if and only if the channel is closed |
| ServerSolo.JobAlone | cmd/server/main.go:213-245 | one job, from the receive to the observation, has exactly the effects of Process |
| ServerLoops.WorkedWell | cmd/server/main.go:213-245 | with no failing flush, tables followed by buffer gain exactly the jobs' rows in order, and errors are exactly the undecodable jobs |
| Operator.Client.Reconcile | operator/internal/controller/aegispipeline_controller.go:61-150 | whatever each API call answers, a pass changes only its own key, to exactly the state Reconciled says; if it returns no error, Deployment, Service and status are what the pipeline's spec asks for, field by field |
| Operator.Client.CreateOrUpdateDeployment | operator/internal/controller/aegispipeline_controller.go:89-108 | creates, updates or leaves the Deployment, touching no other object, refusing one with a foreign controller; on success its replicas, selector, labels, annotations, image, ports, environment and probes are as the spec says |
| Operator.Client.CreateOrUpdateService | operator/internal/controller/aegispipeline_controller.go:113-133 | the same for the Service, its selector, ports and type |
| Operator.Client.ReportStatus | operator/internal/controller/aegispipeline_controller.go:135-147 | reads the Deployment back and writes ready replicas and phase |
| Operator.BuildEnvVars | operator/internal/controller/aegispipeline_controller.go:236-255 | looking up each variable in the list finds its printed value exactly when the spec sets it, and no other variable is set |
| OperatorTheorems.ConvergesDespiteFailures | operator/internal/controller/aegispipeline_controller.go:57-150 | after any sequence of passes cut short at any calls, a pass that returned no error has reached the state that matches the built objects, keeps what the operator does not control, and is the same as if there had been no other passes, up to the address of a Service created on the way |
| OperatorTheorems.OneCleanPassIsEnough | operator/internal/controller/aegispipeline_controller.go:57-150 | after any passes whatsoever an error-free pass succeeds if and only if nothing else controlled the children to begin with, and ends where it alone would have |
| OperatorTheorems.SuccessConverges | operator/internal/controller/aegispipeline_controller.go:83-88 | a pass that returned no error has converged, field by field; after it no pass changes anything, whatever its calls answer, and it succeeds if and only if its reads and status update do |
| OperatorTheorems.PassGetsAsFar | operator/internal/controller/aegispipeline_controller.go:93-147 | a write that takes effect, reply lost or not, leaves its object as the spec asks; a refused write leaves it; the operator goes on only past calls it saw succeed |
| OperatorTheorems.SuccessReachesGoal | operator/internal/controller/aegispipeline_controller.go:93-147 | a pass returns no error only if nothing else controlled the children and every object is as built |
| OperatorTheorems.CleanPassSucceedsIff | operator/internal/controller/aegispipeline_controller.go:68-107 | an error-free pass succeeds if and only if the pipeline is gone or nothing else controls its children |
| OperatorTheorems.NeverHalfWritten | operator/internal/controller/aegispipeline_controller.go:93-147 | a pass, however it fails, leaves each object as it was or as built |
| OperatorTheorems.PassPreserves | operator/internal/controller/aegispipeline_controller.go:122-126 | every pass preserves the Service's address and all other uncontrolled fields, and leaves it as it was whether the children can be controlled |
| OperatorTheorems.NonInterference | operator/internal/controller/aegispipeline_controller.go:61-150 | reconciles of two different keys leave each other's objects and outcome unchanged, and commute |
| OperatorTheorems.InterleavingsProject | operator/internal/controller/aegispipeline_controller.go:61-150 | however reconciles of any number of pipelines follow each other, each pipeline's objects are what its own passes alone make of them |
| OperatorTheorems.ServiceSelectsOwnPods | operator/internal/controller/aegispipeline_controller.go:169-187 | in one namespace the Service of q selects the pods of p if and only if p and q are the same pipeline; a Deployment selects its own pods |
| OperatorTheorems.PortsFit | operator/internal/controller/aegispipeline_controller.go:189-285 | every Service port forwards to a container port of the same number on which the server is told to listen; probes and the scrape annotation name the metrics port |
| OperatorTheorems.EnvRoundTrip | operator/internal/controller/aegispipeline_controller.go:236-255 | loading exactly the printed variables with default flags recovers the spec's fields, and succeeds if and only if workers and queue depth are positive and the sink is empty, stdout, or postgres or nats with its URL set |
| Operator.EnvVarsPrint | operator/internal/controller/aegispipeline_controller.go:236-255 | the printed list means to a lookup exactly the fields the spec sets |
| OperatorTheorems.PortsRecovered | operator/internal/controller/aegispipeline_controller.go:238-241 | the printed listen addresses determine the ports |
| Decimal.AtoiPrint | internal/config/config.go:64-84 | parsing a printed integer gives it back exactly if it fits 64 bits, and fails otherwise |
| Decimal.AtoiIff | internal/config/config.go:64-84 | a string is accepted if and only if it is an optional sign and at least one decimal digit, nothing else, and the number fits 64 bits; the result is that number |
| Decimal.PrintCanonical | operator/internal/controller/aegispipeline_controller.go:238-241 | printed numbers have only digits, no leading zero, and a minus sign exactly if negative |
| Config.Load | internal/config/config.go:39-118 | each of the ten settings is its own variable's value if that is set and its flag otherwise, the settings are valid, and otherwise the error is the first unparsable variable or the first failed check |
| Config.ParseFaultIsFirst | internal/config/config.go:64-98 | a parse error names the first variable, in the order of reading, that does not parse, with its value; there is one if any does not |
| Config.NothingSet | internal/config/config.go:42-52 | with no flag and no variable the settings are the documented defaults |
| Config.Config.Validate | internal/config/config.go:121-151 | no error exactly for settings the server can run with; otherwise an error the settings deserve, no check made before it failing |
| Config.FaultIsFirst | internal/config/config.go:121-151 | there is exactly one first violation of invalid settings, and none of valid ones |
| Config.LoadedIff | internal/config/config.go:39-151 | loading succeeds if and only if every set variable parses and the layered settings are valid, and what it returns is valid |
| Feed.Client.ReadLoop | cmd/feed/main.go:177-256 | the counters after any session are what SessionRun says of its messages; it reports a cancellation if and only if one is reached past messages without a failed send |
| Feed.SessionEnds | cmd/feed/main.go:177-256 | a session handles every message up to its read error, cancellation or first failed send: all are read, each is a trade or an error, unparsable ones do not end it, and a failed send is one more error |
| Feed.SessionLogs | cmd/feed/main.go:237-254 | log sends are one for every interval-th trade that was sent |
| Feed.SessionBuilds | cmd/feed/main.go:216-239 | with no failed send the events built are those of the trades in turn, numbered on across sessions |
| Feed.TextIs | cmd/feed/main.go:218-239 | the ids are feed-n and feed-log-n |
| Feed.Client.ConnectAndStream | cmd/feed/main.go:132-173 | over any dial results and sessions, the counters carried across reconnects and the waits are what FeedRun and Waits say |
| FeedRuns.FeedFollows | cmd/feed/main.go:136-172 | the feed makes attempts in turn, each from the counters the last one left, until the first whose session was cancelled or outlived the context |
| FeedRuns.ReadsEverySession | cmd/feed/main.go:158-171 | if no session is cancelled every attempt is made, and the messages read are those of all sessions, each up to its first read error or failed send |
| FeedRuns.WaitsAre | cmd/feed/main.go:134-171 | the feed waits after every attempt but the last, and the r-th wait since the last successful dial, or since the start, is the r-th of the back-off |
| Feed.BackoffTable | cmd/feed/main.go:134-171 | the back-off is 1, 2, 4, 8, 16 and then always 30 seconds |
| Feed.FeedConserves | cmd/feed/main.go:177-256 | across any number of reconnects, messages read + log sends attempted = forwarded + errors |
| Feed.FeedRegular | cmd/feed/main.go:229-254 | with no failed send and an interval L > 0, forwarded = trades + floor(trades / L) |
| Feed.UniqueIds | cmd/feed/main.go:216-239 | the ids of all events the feed builds are pairwise distinct strings |
| Feed.BackoffBounds | cmd/feed/main.go:134-171 | waits never decrease between successful dials and lie between 1 and 30 seconds |
| Feed.BackoffDoubles | cmd/feed/main.go:151-152 | doubling and capping is one step of the closed form |
| Feed.WaitsInRange | cmd/feed/main.go:132-173 | every wait of every run lies between 1 and 30 seconds |
| Stress.GeneratePayloads | cmd/stress/main.go:196-246 | payload i is a trade with id stress-i if i mod 10 < 7, otherwise a log with id stress-log-i |
| Stress.Sender | cmd/stress/main.go:271-295 | the i-th send is payload i mod the pool size, up to the first failed write; sent and errors count exactly |
| Stress.RunPhase | cmd/stress/main.go:250-266 | panics exactly for no connections or a share above 10^9; otherwise each connection's share is the rate over the connections rounded down, at least 1, each sends its own round robin from the start of the pool, and the counters gain the sums |
| Stress.MixClosedForm | cmd/stress/main.go:196-246 | when the pool is a multiple of 10, the first k sends contain 7 floor(k/10) + min(7, k mod 10) trades |
| Stress.RoundRobin | cmd/stress/main.go:281-285 | of k sends, payload j of the pool went out floor(k/pool) times, and once more if j < k mod pool |
| Stress.BuiltInjective | cmd/stress/main.go:202-231 | different payloads of the pool have different ids |

## Left out

- Protobuf, pgx, gorilla/websocket, the Prometheus client and controller-runtime: libraries whose code is not part of this model. `decode` is an arbitrary function, a transaction commits whole or not at all, a commit error means rolled back, and `CreateOrUpdate` and `SetControllerReference` behave as the controller's comments and their documentation say.
- The NATS and stdout sinks, `cmd/consumer`, `cmd/client`, `cmd/bench`, the dashboard, the manifests: one switch and a few counters, or presentation.
- Logging, the queue-depth gauge, the backpressure warning, `/healthz` serving: observations without effect on the pipeline.
- Read deadlines, ticker intervals, flush timeouts, the processing delay: modelled as steps that may happen at any time, or as failures.
- A panic of a worker is possible at every point at which it holds a job, including inside the sink's critical section, which is more than the code shows any cause for.
- `pool.Close` is one step that does not wait for open transactions.
- ServerLoops.HandleConnection: what other goroutines do to the context and the channel between the handler's own steps is given round by round; their own steps are in `Pipeline`.
- ServerLoops.Worker: one worker on an open pool, to which jobs come while it waits; `faults` gives the database's answers, and panics and other workers are in `Pipeline`.
- PostgresSink.PostgresSink.BackgroundFlusher: between ticks rows arrive; a writer that fills the batch meanwhile and flushes it itself is in `SinkProtocol`.
- PipelineLiveness.WorkProgress: there is no fairness assumption and no infinite run; termination is the bound of `DrainTerminates` together with an enabled step.
- Frame.Write: the partial progress of a failing writer is any prefix, but the operating system's buffering is not modelled.
- Prices are reals and never computed with; the volume conversion from float and the timestamp multiplication in the feed are left out, as is 64-bit overflow of counters.
- Operator.Client.Reconcile: requires pipelines to be stored under their own names, as an API server does; defaulting and admission by the API server (such as an immutable selector or a replica minimum) appear only as refused calls, and owner references other than the controller are part of the uncontrolled rest. The spec does not change during a pass.
- Command-line flag parsing: `Load` starts from the values of the flags.
- Stress.Sender: random symbols, prices and messages, the pacing by a ticker and the framing of the payloads are left out; an iteration is a tick, and the deadline is the end of the ticks.
- Stress.RunPhase: senders run one after the other; their only shared state is two counters that all of them add to.
- Scraping metrics, waiting for the server to drain, and the report of the load generator.
