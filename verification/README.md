# Verified model of cvdbench

cvdbench is a distributed storage benchmark: a master schedules jobs over worker
daemons, feeds them files to read, collects their results and streams events to
watching clients. This project models its protocol and its algorithms in Dafny and
proves what they are for. `dafny verify dfyconfig.toml` checks everything.

How the parts fit together:

- **The master** appears twice. `Jobs.dfy` and `MasterState.dfy` say what each critical
  section does as a function on values; `JobRecord.dfy`, `Subscribers.dfy` and
  `Service.dfy` are the objects with their fields, loops and branches, and each of their
  methods is proved to be the function of that name.
- **Interleaving.** `Interleaving.dfy` makes every critical section one step, so that a
  DeleteJob may be suspended between its three locks while anything else runs, and
  defines the invariant. `Safety.dfy` (with `StreamProofs.dfy` and `QueueProofs.dfy`)
  proves that every step of anybody keeps it; `Effects.dfy` says how one step may change
  one record; `Runs.dfy`, `Readiness.dfy`, `Staleness.dfy`, `Watching.dfy`, `Endings.dfy`,
  `CleanUp.dfy` and `Answers.dfy` draw the promises about whole runs from both, with no
  hypothesis on workers or clients: what is kept, what every reply and event says in plain
  numbers, why a job ends and what is left of it.
- **Workers.** `Slots.dfy` proves the promises that need workers to behave, and shows by
  an explicit run that they do need it. `WorkerLife.dfy` models the worker's life cycle,
  with requests executed late, repeatedly or never, lost replies and shutdown signals at
  any moment, and proves that it behaves that way; `WorkerMoves.dfy` says what each reply
  makes of a worker and that no run begun is left without a report.
- **Locks.** `Locks.dfy` models the mutexes each request takes and proves that no set of
  requests deadlocks.
- **The manifest pipeline.** `DirScan.dfy` and `DirScanProofs.dfy`: the shared directory
  queue, its wake-ups and its termination detection. `FileQueue.dfy`: the bounded file
  queue between producers and FetchFileBatch.
- **Aggregation.** `Aggregation.dfy`: saturating sums over maps in any order, histograms,
  window intersection. `Summaries.dfy`: what a summary says, in terms of the results alone.
  `Saturation.dfy`: exactly when the order of a saturating sum shows.
- **Worker algorithms.** `FileTree.dfy` and `RecursiveDelete.dfy` (clean-up that must not
  follow links), `FileBytes.dfy` and `FileWrite.dfy` (O_DIRECT and ranged writes under
  short I/O), `TokenBucket.dfy`, `Clock.dfy`, `Layout.dfy` (directory layout against the
  validator's bound).

Where code and documentation disagree, the model follows the code:

- `emit_for_job` is documented to be called without the jobs lock
  (crates/cvd-master/src/events.rs:33-34); every caller holds it, and the ordering of
  watch streams depends on that.
- The design document's transition table has no RUNNING to FAILED transition for a failing
  manifest reader; the code has one (crates/cvd-master/src/manifest.rs:99-129).
- FetchJob is documented to replay only until the result is submitted; the code replays
  while the binding stands, also between recording a result and dropping the binding
  (crates/cvd-master/src/scheduler/fetch_job.rs:34-52).
- A cancelled job is documented to be free to record results for audit; the code never
  does (crates/cvd-master/src/service/worker_rpc.rs:275-281).
- file_csv.rs says a cancelled reader never sets its done flag
  (crates/cvd-master/src/manifest/file_csv.rs:9); a pass cut short by the flag does.
- The unit test of the unaligned sequential write (crates/cvd-worker/src/fs_io.rs:579-599)
  expects the payload back; the code stores zeros up to a drawn offset.

Hypotheses the theorems state: job ids drawn by CreateJob are fresh; where a summary is
claimed to be independent of the order of its maps, counters in results are not negative;
no FetchJob is executed after its worker, told to stop, is done with that request; the file
tree is changed by nobody else during a clean-up; local clocks run at the master's rate,
and the monotonic clock does not run backwards.

## Model

| member | source | states |
|---|---|---|
| Jobs.TakeSlotInv | crates/cvd-master/src/scheduler/fetch_job.rs:65-93 | A PENDING record always has a free slot (so the "full but PENDING" branch is dead); handing it out leaves a good record, PREPARING exactly when this worker was new and the last one, and then never with everyone ready already |
| Jobs.MarkReadyInv | crates/cvd-master/src/scheduler/ready.rs:80-103 | The barrier's comparison of two counts opens it exactly when every run worker is ready |
| Jobs.CloseInv | crates/cvd-master/src/aggregate.rs:17-27 | Ending an open record (cancelled, or failed with a full crew) leaves a good final record with its summary and time stamp |
| Jobs.AddResultInv | crates/cvd-master/src/service/worker_rpc.rs:276-303 | The completion count is reached exactly when every run worker has a result; success, completion and failure each leave a good record |
| Jobs.NewJobInv | crates/cvd-master/src/state/job.rs:96-132 | A created record is good, also when the requested worker count was not positive |
| JobRecords.JobRecord.constructor | crates/cvd-master/src/state/job.rs:96-132 | The new object is the record CreateJob specifies |
| JobRecords.JobRecord.Touch | crates/cvd-master/src/state/job.rs:174-177 | Only the worker's last-seen time changes |
| JobRecords.JobRecord.TryAssign | crates/cvd-master/src/state/job.rs:183-194 | The next index if a slot is free, otherwise nothing changes |
| JobRecords.JobRecord.EnterPreparing | crates/cvd-master/src/state/job.rs:200-208 | Freezes the crew of a PENDING record; any other record is untouched |
| JobRecords.JobRecord.TakeSlot | crates/cvd-master/src/scheduler/fetch_job.rs:65-93 | A slot, and with the last one the crew frozen and the manifest started |
| JobRecords.JobRecord.MarkReady | crates/cvd-master/src/scheduler/ready.rs:80-103 | The in-place barrier update equals the specified one, and reports whether it opened the barrier |
| JobRecords.JobRecord.AddResult | crates/cvd-master/src/service/worker_rpc.rs:228-279 | Progress and result of the worker are stored, the result not in a cancelled job |
| JobRecords.JobRecord.CollectResults | crates/cvd-master/src/aggregate.rs:18-18 | In whatever order the map is walked, every result once |
| JobRecords.JobRecord.AggregateInto | crates/cvd-master/src/aggregate.rs:17-27 | The stored summary is that of exactly these results, in every order the same unless a counter is negative; the time stamp is only set once |
| JobRecords.JobRecord.CleanupOnTerminal | crates/cvd-master/src/state/job.rs:212-220 | Sets the cancel flag and nothing else the model holds |
| JobRecords.JobRecord.Close | crates/cvd-master/src/scheduler/staleness.rs:92-97 | Status, error, summary, stamp and cancel flag of a finished record |
| JobRecords.JobRecord.FindStaleWorker | crates/cvd-master/src/scheduler/staleness.rs:124-141 | Finds a stale run worker if and only if there is one, whatever the order of the search |
| Service.MasterState.constructor | crates/cvd-master/src/state.rs:33-42 | The initial state |
| Service.MasterState.EmitForJob | crates/cvd-master/src/events.rs:15-38 | Takes the next sequence number, logs the event and hands it to every watcher with room |
| Service.MasterState.FetchJob | crates/cvd-master/src/scheduler/fetch_job.rs:21-107 | The whole handler, replay and queue loop with its defensive branches, equals its specification; the loop ends |
| Service.MasterState.Replay | crates/cvd-master/src/scheduler/fetch_job.rs:34-52 | A binding to an open job that knows the worker is answered again; any other binding is dropped |
| Service.MasterState.OfferHead | crates/cvd-master/src/scheduler/fetch_job.rs:65-96 | The head gives a slot and, when that was the last, is announced and leaves the queue |
| Service.MasterState.PopIfFront | crates/cvd-master/src/state/pending.rs:19-26 | Pops the head only if it is the expected job |
| Service.MasterState.RemovePendingJob | crates/cvd-master/src/state/pending.rs:29-36 | Removes the first occurrence wherever it stands, and nothing if there is none |
| Service.MasterState.StoreJob | crates/cvd-master/src/service/cli_rpc.rs:80-96 | Stores the record and announces it in one section |
| Service.MasterState.QueueJob | crates/cvd-master/src/service/cli_rpc.rs:97-100 | Appends the id to the queue, in a section of its own |
| Service.MasterState.ReportReady | crates/cvd-master/src/scheduler/ready.rs:11-118 | The section under the jobs lock: every refusal, the failing branch, the barrier |
| Service.MasterState.ReportReadyAlone | crates/cvd-master/src/scheduler/ready.rs:11-118 | The whole request run undisturbed: section, then bindings, then streams |
| Service.MasterState.ReportProgress | crates/cvd-master/src/service/worker_rpc.rs:123-179 | All replies; stored and announced only for a worker of an open job, metrics dropped outside warm-up and measuring |
| Service.MasterState.FetchFileBatch | crates/cvd-master/src/service/worker_rpc.rs:54-92 | Who is let through to the file queue, who is told cancelled or unknown |
| Service.MasterState.ReportResult | crates/cvd-master/src/service/worker_rpc.rs:187-303 | The section under the jobs lock: refusals, repeats, cancelled jobs, failure, completion |
| Service.MasterState.ReportResultAlone | crates/cvd-master/src/service/worker_rpc.rs:187-320 | The whole request undisturbed: on every path the binding to this job is dropped last |
| Service.MasterState.DeleteJob | crates/cvd-master/src/service/cli_rpc.rs:188-206 | Not found, already final and untouched, or cancelled with what is left to do |
| Service.MasterState.DeleteJobAlone | crates/cvd-master/src/service/cli_rpc.rs:182-225 | The whole request undisturbed, section by section |
| Service.MasterState.WatchJob | crates/cvd-master/src/service/cli_rpc.rs:128-152 | Not found, or snapshot queued first and sender kept only for an open job, all in one section |
| Service.MasterState.FailManifest | crates/cvd-master/src/manifest.rs:99-113 | A failing manifest reader ends an open job and no other |
| Service.MasterState.FailStaleJobs | crates/cvd-master/src/scheduler/staleness.rs:56-102 | The tick's loop is a sequence of the state machine's failing steps, each with its reason; afterwards no worker of a PREPARING or RUNNING job has been silent for longer than the threshold, and no crew has been waiting for longer than the timeout |
| Service.MasterState.TickOnce | crates/cvd-master/src/scheduler/staleness.rs:51-121 | After those failures exactly the failed jobs lose their bindings, each those of its whole crew, and then their streams |
| Service.MasterState.ClearBindingsOf | crates/cvd-master/src/service/cli_rpc.rs:214-221 | Drops exactly the bindings of the crew that still point at the job |
| Service.MasterState.Finalize | crates/cvd-master/src/events.rs:41-43 | Drops the job's senders and nothing else |
| Service.MasterState.CollectExpired | crates/cvd-master/src/gc.rs:52-66 | Picks exactly the final jobs past their retention |
| Service.MasterState.RemoveExpired | crates/cvd-master/src/gc.rs:71-76 | Removes exactly the picked jobs |
| Subscribers.SubscriberRegistry.Broadcast | crates/cvd-master/src/events/subscriber.rs:63-84 | Each watcher with room gets the event, the others are forgotten, in whatever order they are visited |
| Subscribers.SubscriberRegistry.SubscribeWithSnapshot | crates/cvd-master/src/events/subscriber.rs:49-60 | The new channel starts with the snapshot and is registered |
| Subscribers.SubscriberRegistry.Terminate | crates/cvd-master/src/events/subscriber.rs:87-90 | Only this job's senders are dropped |
| QueueProofs.FetchLoopIs | crates/cvd-master/src/scheduler/fetch_job.rs:54-96 | The loop skips what is not PENDING and serves the first PENDING job |
| QueueProofs.RemoveFirstIs | crates/cvd-master/src/state/pending.rs:29-36 | What is left after removing an id from the middle of the queue |
| Effects.FetchEffect | crates/cvd-master/src/scheduler/fetch_job.rs:54-107 | In a good state FetchJob serves the first PENDING job of the queue, or nobody |
| Effects.StepFollows | crates/cvd-master/src/state/job.rs:183-220 | Whatever anybody does, a record that survives only moves forward: transitions, frozen crews, kept start time |
| Safety.StepKeepsInv | crates/cvd-master/src/service/cli_rpc.rs:182-225 | Every critical section of every request, in any order, keeps the invariant of records, queue, streams and requests in flight |
| Safety.ProceedKeeps | crates/cvd-master/src/service/cli_rpc.rs:207-221 | Late sections of a closing request keep it too, however late they come |
| Safety.FetchKeeps | crates/cvd-master/src/scheduler/fetch_job.rs:29-96 | FetchJob keeps it with stale ids in the queue |
| StreamProofs.Emitted | crates/cvd-master/src/events.rs:35-38 | An announcement keeps every watcher's stream gapless or evicts the watcher |
| Runs.AlwaysInv | crates/cvd-master/src/state.rs:20-30 | The invariant holds in every state of every run |
| Runs.CountTestsAreSound | crates/cvd-master/src/service/worker_rpc.rs:291-300 | PREPARING, RUNNING and COMPLETED each imply the set equalities the handlers test by counting, and all recorded results are successes |
| Runs.TerminalIsFrozen | crates/cvd-master/src/aggregate.rs:17-27 | A final job's status, error, results, stamp and summary never change again, and the summary is that of those results |
| Runs.OnlyDocumentedTransitions | crates/cvd-master/src/state/job.rs:145-150 | Along every run statuses move only along the allowed transitions |
| Runs.StartFindsAllReady | crates/cvd-master/src/scheduler/ready.rs:83-112 | A start time is answered only when every slot is filled and every run worker is marked ready |
| Readiness.NewcomersReported | crates/cvd-master/src/scheduler/ready.rs:83-90 | Whoever a step adds to a ready set has just had its own ReportReady for that job accepted |
| Readiness.NobodyStartsEarly | crates/cvd-master/src/scheduler/ready.rs:83-112 | When a start time is answered every slot is filled, and the run holds, for every worker with a slot, an earlier accepted ReportReady of that worker for that job |
| Readiness.OpeningSetsTheTime | crates/cvd-master/src/scheduler/ready.rs:83-103 | Only a ReportReady takes a job to RUNNING; it sets and answers the start time: the moment it is handled plus the configured start delay |
| Readiness.StartTimeIs | crates/cvd-master/src/scheduler/ready.rs:89-112 | Every non-zero start time answered for a job is that of its one opening step |
| Runs.OneStartTime | crates/cvd-master/src/scheduler/ready.rs:92-112 | All start times ever answered for a job are equal |
| Runs.GcIsPatient | crates/cvd-master/src/gc.rs:46-76 | A job disappears only in the collector's second phase, final, and after the whole retention |
| Runs.GcIsThorough | crates/cvd-master/src/gc.rs:46-76 | The first phase picks every final job whose retention has passed and no other; the second removes exactly those picked |
| Runs.NoReturn | crates/cvd-master/src/gc.rs:71-76 | A collected job never comes back |
| Runs.QueueIsFifo | crates/cvd-master/src/scheduler/fetch_job.rs:54-96 | A PENDING job is queued exactly once or about to be, has room, and if it holds slots nobody PENDING is ahead of it |
| Runs.NoOvertaking | crates/cvd-master/src/scheduler/fetch_job.rs:54-96 | Who is ahead stays ahead until it has left PENDING |
| Runs.FirstQueuedFirstServed | crates/cvd-master/src/scheduler/fetch_job.rs:54-96 | While a job waits, no job behind it or created later gets a slot |
| Runs.WatcherSeesEverything | crates/cvd-master/src/events/subscriber.rs:49-84 | Snapshot, then every later event of the job without a gap in increasing order; complete unless evicted; the last event, and no other, is final |
| Runs.NoWatcherOutlivesItsJob | crates/cvd-master/src/events/subscriber.rs:87-90 | Once the closing request has finalised a stream no watcher stays registered |
| Runs.EveryChangeIsAnnounced | crates/cvd-master/src/events.rs:15-38 | The job's last event always carries its current status |
| Watching.EventReachesWatchers | crates/cvd-master/src/events/subscriber.rs:63-84 | An event is queued for every watcher of its job with fewer than 64 events waiting whose client is there; any other watcher is evicted |
| Watching.EvictedOnlyWhenFullOrGone | crates/cvd-master/src/events/subscriber.rs:68-82 | A watcher is evicted only when its client has hung up or 64 events are waiting for it |
| Watching.BufferIsBounded | crates/cvd-master/src/events/subscriber.rs:20-20 | Never do more than 64 events wait for a client |
| Watching.PatientWatcherMissesNothing | crates/cvd-master/src/events/subscriber.rs:49-84 | A client that stays and never lets 64 events wait is sent its snapshot and every later event of the job |
| Watching.WatchBegins | crates/cvd-master/src/service/cli_rpc.rs:128-152 | A channel begins with one snapshot that carries the record's status, error and summary |
| Watching.LastEventTellsTheRecord | crates/cvd-master/src/events.rs:15-38 | At any moment the last event of a job carries its record's status, error and summary |
| Watching.EventKinds | crates/cvd-master/src/service/worker_rpc.rs:160-176 | Exactly the events caused by progress reports are marked as progress |
| Endings.EveryEndHasItsReason | crates/cvd-master/src/aggregate.rs:17-27 | A job ends only by a request, a tick or a manifest failure of its own, with the status and error that belong to it, stamped with that moment and summarised from the results it then has |
| Endings.CreatedAsAsked | crates/cvd-master/src/state/job.rs:96-132 | A new record is empty, PENDING and stamped, and wants the workers asked for, at least one |
| Endings.LastSlotFillsTheCrew | crates/cvd-master/src/state/job.rs:183-208 | A job becomes PREPARING when, and only when, a FetchJob takes its last slot; crew, clock and manifest start then |
| Endings.TimeoutMeansLate | crates/cvd-master/src/scheduler/staleness.rs:70-90 | A job timed out in preparation has had its full crew for longer than the timeout, none of them silent for too long |
| CleanUp.EndedJobLetsGo | crates/cvd-master/src/service/cli_rpc.rs:207-221 | Once the sections left by a cancellation or failure have run no worker of the crew is bound to the job |
| CleanUp.ResultLetsGo | crates/cvd-master/src/service/worker_rpc.rs:305-318 | Nor is a worker that reported its result, once its request has run |
| CleanUp.DeletedJobLeavesTheQueue | crates/cvd-master/src/state/pending.rs:29-36 | A queued job that is deleted is out of the queue once that request has run, for good |
| Staleness.ContactStamps | crates/cvd-master/src/service/worker_rpc.rs:85-92 | Every acknowledged request, of any of the five kinds, renews the worker's stamp in that job and no other |
| Staleness.StampsOnlyGrow | crates/cvd-master/src/state/job.rs:174-177 | No step of anybody turns a stamp back or drops it |
| Staleness.StaleMeansSilent | crates/cvd-master/src/scheduler/staleness.rs:124-141 | A job failed for a worker's silence: every acknowledged request of that worker is further back than the threshold |
| Staleness.NoFilesBeforeStart | crates/cvd-master/src/service/worker_rpc.rs:54-92 | Whoever is let through to the file queue holds a slot of a job that is full, all ready and not cancelled |
| Answers.FetchTellsTheSlot | crates/cvd-master/src/scheduler/fetch_job.rs:65-93 | The index in a FetchJob reply is that of the slot the record then holds for the worker, if it fits 32 bits |
| Answers.FetchFindsWork | crates/cvd-master/src/scheduler/fetch_job.rs:29-107 | A worker with a slot of the open job it is bound to stays on it; any other goes away empty-handed exactly when no queued job is PENDING |
| Answers.ReadyIsAnswered | crates/cvd-master/src/scheduler/ready.rs:11-118 | Cancelled exactly if the job was, unknown exactly if the worker has no open job of that id, otherwise marked ready and told the record's start time |
| Answers.FailureToStartIsAnswered | crates/cvd-master/src/scheduler/ready.rs:50-78 | A failure to start fails the worker's PREPARING job with its reason, and no other job |
| Answers.ProgressIsAnswered | crates/cvd-master/src/service/worker_rpc.rs:123-179 | Who is told cancelled or unknown; progress is kept under the worker's name while it works on the job, metrics only from warm-up and measuring |
| Answers.BatchIsAnswered | crates/cvd-master/src/service/worker_rpc.rs:54-92 | The gate is open exactly for run workers of a RUNNING job whose manifest has started, cancelled exactly for those of a cancelled one |
| Answers.ResultIsAnswered | crates/cvd-master/src/service/worker_rpc.rs:187-303 | Refused exactly outside RUNNING and cancelled jobs' crews; recorded once per run worker of a RUNNING job and never otherwise |
| Slots.AssignKeepsDenseIff | crates/cvd-master/src/state/job.rs:183-194 | A new index keeps the numbering 0..n-1 exactly when the worker has no slot yet |
| Slots.UndisciplinedWorkerBreaksNumbering | crates/cvd-master/src/service/worker_rpc.rs:214-242 | A run in which a result for a PENDING job leaves its only worker with index 1 |
| Slots.BindingsKept | crates/cvd-master/src/service/cli_rpc.rs:214-221 | No clean-up, however late, takes a binding the worker still needs |
| Slots.SlotsInEveryRun | crates/cvd-master/src/scheduler/fetch_job.rs:33-96 | With disciplined workers indices are exactly 0..n-1, n at most the target, and nobody owes two open jobs a result |
| Slots.RepeatedFetchSameSlot | crates/cvd-master/src/scheduler/fetch_job.rs:33-52 | Over any stretch of a run a repeated FetchJob gets the same job and index and uses no slot |
| Answers.NoTwoWorkersShareAnIndex | crates/cvd-master/src/scheduler/fetch_job.rs:65-93 | With disciplined workers no two of a job of up to 2^31 are ever answered the same index |
| WorkerLife.LifeIsDisciplined | crates/cvd-worker/src/lifecycle.rs:78-128 | What the master goes through with workers that live their life cycle is a disciplined run, state by state and act by act |
| WorkerLife.SystemKeepsSlots | crates/cvd-worker/src/lifecycle.rs:266-556 | So the slot promises hold for the whole system, with requests late, repeated or lost, replies lost and shutdowns at any moment |
| WorkerLife.RefetchGetsTheSameSlot | crates/cvd-worker/src/lifecycle.rs:101-123 | In every history of the system, any later execution of a worker's FetchJob while it still owes the result gets the same job and index and uses no slot |
| WorkerLife.NoTwoWorkersShareAnIndex | crates/cvd-worker/src/lifecycle.rs:101-123 | So in the whole system no two workers of a job are ever told the same index |
| WorkerLife.ResultsAreDue | crates/cvd-worker/src/lifecycle.rs:377-404 | A result is sent only for a granted job and only once told that it started or ended, or to stop |
| WorkerMoves.ReplyMovesTheWorker | crates/cvd-worker/src/lifecycle.rs:101-123 | In every history, a worker takes the work there is, starts when its job's record has a start time, stops when the job was cancelled, drops a job that is not its any more, and otherwise stays |
| WorkerMoves.WorkersStartTogether | crates/cvd-worker/src/lifecycle.rs:1010-1036 | A worker begins a run only on the answer to its own ready report, and then every slot of the job is filled and every holder marked ready |
| WorkerMoves.EveryRunIsReported | crates/cvd-worker/src/lifecycle.rs:469-545 | A run once begun goes on until its worker has a result to report or was told that the job is not its any more, whatever signals, cancellations and lost calls happen |
| WorkerMoves.JobsAreFollowedThrough | crates/cvd-worker/src/lifecycle.rs:301-549 | A worker lets go of a job only after delivering its result or failure, being told it is not its any more, or using up its calls |
| WorkerMoves.FailureIsReported | crates/cvd-worker/src/lifecycle.rs:343-349 | After a failed preflight a worker does nothing for the job but tell the reason |
| WorkerMoves.StopStays | crates/cvd-worker/src/lifecycle.rs:132-147 | A shutdown mirrored into a job stays: no more progress, and the barrier can be left whatever the master answers |
| WorkerLife.ActKeeps | crates/cvd-worker/src/lifecycle.rs:132-147 | Every act of a worker, its tasks or the network keeps what its stage and flags say about the master |
| Locks.EveryPathIsOrdered | crates/cvd-master/src/scheduler/fetch_job.rs:29-31 | Every path of every handler and task takes its locks upwards and ends holding none |
| Locks.NoDeadlock | crates/cvd-master/src/service/cli_rpc.rs:182-225 | In every reachable state of any set of requests an unfinished one can go on |
| Locks.FinishedHoldsNothing | crates/cvd-master/src/scheduler/staleness.rs:56-121 | One holder per lock, and a finished request holds none |
| Locks.EveryoneFinishes | crates/cvd-master/src/scheduler/staleness.rs:56-121 | Each step uses up one lock operation, so every schedule ends |
| Aggregation.Aggregate | crates/cvd-common/src/metrics/aggregate.rs:58-113 | The two-level loops, in any map order, compute the order-free summary; with a negative counter everything but the counters is still exact |
| Aggregation.MergeWorker | crates/cvd-common/src/metrics/aggregate.rs:80-89 | Merging one worker in any order is the exact join, saturated; ops, histograms and presence whatever the counters |
| Aggregation.MergeOps | crates/cvd-common/src/metrics/aggregate.rs:95-99 | The grand total of saturated lines is the saturated exact total |
| Saturation.OrderFreeIff | crates/cvd-common/src/metrics/aggregate.rs:165-170 | A saturating sum is the same in every order exactly if the terms do not have both signs or neither sign's sum leaves the range |
| Aggregation.FoldRemove | crates/cvd-common/src/metrics/aggregate.rs:58-113 | The summary may start from any result: order is immaterial |
| Aggregation.SumTableRemove | crates/cvd-common/src/metrics/aggregate.rs:95-99 | The total may start from any op |
| Summaries.CountersAreClampedSums | crates/cvd-common/src/metrics/aggregate.rs:80-113 | Each line and the grand total is the exact sum over the workers' own counters, cut off at 2^63-1, despite two levels of saturation; a line exists exactly for the ops somebody ran |
| Summaries.HistogramsAreTheSamples | crates/cvd-common/src/metrics/aggregate.rs:80-89 | Each line's histogram holds exactly the successful workers' samples and is missing exactly when none sent any |
| Summaries.WorkersAreCounted | crates/cvd-common/src/metrics/aggregate.rs:58-78 | All results are listed; successes, and successes with an op that ran without a histogram, are counted |
| Summaries.SoleWindow | crates/cvd-common/src/metrics/aggregate.rs:126-136 | With a single contributing result the window is its own, or its duration, or 0, and is not flagged |
| Summaries.NoWindow | crates/cvd-common/src/metrics/aggregate.rs:122-125 | With none it is 0 and not flagged |
| Aggregation.ErrorsNeverExceedOps | crates/cvd-common/src/metrics/aggregate.rs:165-170 | errors <= ops survives merging and saturation |
| Aggregation.OnlySuccessfulSamples | crates/cvd-common/src/metrics/aggregate.rs:80-89 | An op's merged histogram is the sum of the successful workers' samples, each with its multiplicity, and nothing of the others |
| Aggregation.FoldWindow | crates/cvd-common/src/metrics/aggregate.rs:122-154 | The window counts exactly the contributing workers; its ends and the fallback duration are attained extremes over them |
| Aggregation.WindowIsIntersection | crates/cvd-common/src/metrics/aggregate.rs:137-153 | With two or more contributors the window is the intersection, no longer than any of theirs, and flagged exactly when it is empty |
| DirScan.DirWorkQueue.Push | crates/cvd-master/src/manifest/dir_scan.rs:61-71 | Queues and counts a directory unless the queue is closed |
| DirScan.DirWorkQueue.Pop | crates/cvd-master/src/manifest/dir_scan.rs:73-93 | One look under the mutex: work, the end of the pass, or wait |
| DirScan.DirWorkQueue.Finish | crates/cvd-master/src/manifest/dir_scan.rs:95-103 | Counts a directory off and says whether the pass is over |
| DirScan.DirWorkQueue.ReaderFinished | crates/cvd-master/src/manifest/dir_scan.rs:105-113 | Marks the reader done and says whether the pass is over |
| DirScanProofs.RunInv | crates/cvd-master/src/manifest/dir_scan.rs:190-260 | In every interleaving pending_dirs is what is queued and in hand, and no file is lost or doubled |
| DirScanProofs.CompleteOnReturn | crates/cvd-master/src/manifest/dir_scan.rs:190-260 | A clean pass that returned has emitted exactly the regular files below the listed directories, with multiplicity, links not followed |
| DirScanProofs.NoLostWakeup | crates/cvd-master/src/manifest/dir_scan.rs:73-113 | Never is there work, or the end, while everybody alive sleeps with no wake-up coming |
| DirScanProofs.NeverStuck | crates/cvd-master/src/manifest/dir_scan.rs:312-336 | Until a clean pass has returned somebody can move; if all scanners wait for room in the full file queue, it is a worker that fetches |
| DirScanProofs.EveryPassEnds | crates/cvd-master/src/manifest/dir_scan.rs:312-452 | No schedule of a clean pass, its waits for room in the file queue and the fetches included, is longer than its initial cost, so it returns |
| DirScanProofs.CancelledPassStandsStill | crates/cvd-master/src/manifest/dir_scan.rs:190-336 | After a cancel no directory is queued or taken and no file emitted any more |
| FileQueue.BoundedQueue.TryAcquire | crates/cvd-master/src/manifest/queue.rs:46-48 | A permit, or blocked, or closed |
| FileQueue.BoundedQueue.TakeUpTo | crates/cvd-master/src/manifest/queue.rs:59-70 | The oldest entries in order, at most as many as asked |
| FileQueue.BoundedQueue.DrainUpTo | crates/cvd-master/src/manifest/queue.rs:59-76 | Undisturbed, a drain splits the buffer and returns exactly its permits |
| FileQueue.RunInv | crates/cvd-master/src/manifest/queue.rs:46-76 | Slots, entries over all passes and the done flag are accounted for in every interleaving |
| FileQueue.NeverOverfull | crates/cvd-master/src/manifest/queue.rs:24-29 | Free, promised, occupied and unreturned slots always add up to the capacity, at least one |
| FileQueue.BatchesAreThePushes | crates/cvd-master/src/manifest/queue.rs:59-76 | All batches in order followed by the buffer are the pushed sequence |
| FileQueue.NoMoreMeansAllHandedOut | crates/cvd-master/src/service/worker_rpc.rs:94-104 | After has_more=false every entry was handed out exactly once if and only if no producer of the run had met the cancel flag with entries left; without a cancel none has; nothing is ever handed out twice |
| FileQueue.DrainTakesWhatWasAsked | crates/cvd-master/src/service/worker_rpc.rs:45-51 | A call gets the oldest entries, as many as asked for or there are: 1000 if it asks for none, never more than 10000 |
| FileQueue.EmptyAnswerMeansEmptyQueue | crates/cvd-master/src/service/worker_rpc.rs:94-104 | A call is answered without files exactly if the buffer was empty when it was drained |
| FileQueue.ProducersWaitForWorkersOnly | crates/cvd-master/src/manifest/queue.rs:46-76 | A producer is held up only while entries are buffered or a worker has yet to free slots: no slot is lost |
| FileQueue.LoopingNeverEnds | crates/cvd-master/src/manifest/file_csv.rs:55-66 | With loop_files no answer ever says has_more=false |
| FileQueue.CancelledPassIsIncomplete | crates/cvd-master/src/manifest/file_csv.rs:55-66 | A run in which a request let through before the cancel is answered has_more=false with an entry never handed out |
| FileTree.FileSystem.Lstat | crates/cvd-worker/src/runner/write.rs:142-153 | Metadata of the entry itself, reached through any links before it |
| FileTree.FileSystem.ReadDir | crates/cvd-worker/src/runner/write.rs:191-200 | The entries of the directory a path resolves to, each once, in any order |
| FileTree.FileSystem.RemoveDir | crates/cvd-worker/src/runner/write.rs:179-186 | Refuses unless the directory is empty |
| FileTree.FileSystem.RemoveFile | crates/cvd-worker/src/runner/write.rs:226-234 | Unlinks the entry itself, never what a link points to |
| FileTree.PathIsItself | crates/cvd-worker/src/runner/write.rs:169-172 | Inside the tree no path walks through a link |
| FileTree.BelowResolved | crates/cvd-worker/src/runner/write.rs:142-153 | Below a directory reached through any links, paths name the nodes of the tree one to one |
| RecursiveDelete.ScanDirectory | crates/cvd-worker/src/runner/write.rs:201-237 | Subdirectories are stacked, everything else is unlinked, nothing is followed, up to the entry whose removal cuts the way to the root, if one does |
| RecursiveDelete.RemoveDirAllNoFollow | crates/cvd-worker/src/runner/write.rs:172-241 | For a root reached through any links: ends, succeeds (so every rmdir met an empty directory), removes nothing that is not at or below the directory the root names, and removes all of it exactly when the way there does not run through it |
| RecursiveDelete.AnchoredIff | crates/cvd-worker/src/runner/write.rs:172-241 | That is so exactly when no link followed on the way to the root lies inside the directory |
| RecursiveDelete.PlainRoot | crates/cvd-worker/src/runner/write.rs:126-132 | A root that is a directory of the tree itself, as the worker makes them, is always removed entirely |
| RecursiveDelete.InsideMount | crates/cvd-worker/src/runner/write.rs:134-141 | What goes lies inside the mounted directory exactly when the directory the root names does, and it does when no link lies between mount point and root |
| RecursiveDelete.LinkLeavesMount | crates/cvd-worker/src/runner/write.rs:134-141 | The textual prefix check alone does not imply that: a tree in which it passes and the directory is elsewhere |
| RecursiveDelete.OpenKeeps | crates/cvd-worker/src/runner/write.rs:190-237 | Opening a directory keeps the stack's invariant |
| RecursiveDelete.DropKeeps | crates/cvd-worker/src/runner/write.rs:176-188 | So does removing an emptied one |
| RecursiveDelete.PoppedIsEmpty | crates/cvd-worker/src/runner/write.rs:176-179 | A directory popped for the second time has nothing left in it |
| RecursiveDelete.CleanupRoot | crates/cvd-worker/src/runner/write.rs:134-167 | Each refusal and its error, with nothing touched; otherwise the clean-up of the directory the root names |
| RecursiveDelete.BestEffortCleanup | crates/cvd-worker/src/lifecycle.rs:151-206 | As above, but a root that is no directory is left alone without complaint |
| FileBytes.WriteResumes | crates/cvd-worker/src/fs_io/direct_io.rs:204-229 | A short write resumed where it stopped is one write |
| FileWrite.AlignedIoSize | crates/cvd-worker/src/fs_io/direct_io.rs:186-192 | The least positive aligned size that suffices, an error exactly when the machine has none |
| FileWrite.PwriteAll | crates/cvd-worker/src/fs_io/direct_io.rs:204-229 | Under arbitrary short writes, success means the whole buffer is stored |
| FileWrite.WriteFileBlocking | crates/cvd-worker/src/fs_io/direct_io.rs:149-184 | The padded O_DIRECT loop leaves the file equal to the payload |
| FileWrite.ReadFileBlocking | crates/cvd-worker/src/fs_io/direct_io.rs:19-44 | Under arbitrary short reads the chunks concatenate to the file |
| FileWrite.RangesFrom | crates/cvd-worker/src/fs_io.rs:465-492 | The ranges tile the payload from the start offset, all but the last of block size |
| FileWrite.ShuffleRanges | crates/cvd-worker/src/fs_io.rs:494-498 | Some permutation |
| FileWrite.AnyOrderStoresPayload | crates/cvd-worker/src/fs_io.rs:362-370 | Any permutation of tiling ranges stores the payload |
| FileWrite.UnalignedStoresSuffix | crates/cvd-worker/src/fs_io.rs:353-360 | The unaligned mode stores zeros before its offset; equal to the payload exactly if that prefix was zero |
| FileWrite.WriteFile | crates/cvd-worker/src/fs_io.rs:333-377 | Every mode but the unaligned sequential one stores the payload; that one exactly when its prefix is zero |
| TokenBucket.TokenBucket.constructor | crates/cvd-worker/src/rate_limit.rs:25-35 | A full bucket of one second's rate, at least one token |
| TokenBucket.TokenBucket.TryAcquire | crates/cvd-worker/src/rate_limit.rs:42-53 | One locked attempt: granted, or how long to sleep |
| TokenBucket.TokenBucket.Acquire | crates/cvd-worker/src/rate_limit.rs:38-57 | Alone at the bucket, granted after at most one sleep however long it really takes |
| TokenBucket.GrantedAfterPause | crates/cvd-worker/src/rate_limit.rs:46-53 | A refused caller is let through exactly from the end of its computed sleep on |
| TokenBucket.WindowBound | crates/cvd-worker/src/rate_limit.rs:38-57 | Over any stretch of any attempts, granted <= rate times duration + max(capacity, largest granted request) |
| TokenBucket.WindowBoundIsTight | crates/cvd-worker/src/rate_limit.rs:37-50 | The bound is reached, by oversize requests too |
| TokenBucket.RateIsKept | crates/cvd-worker/src/rate_limit.rs:25-57 | For a bucket made for a given rate, operations let through between two attempts are at most that rate times the time, plus one second's worth or the largest request |
| TokenBucket.FirstIsLetThrough | crates/cvd-worker/src/rate_limit.rs:25-35 | A new bucket never makes its first request wait |
| Clock.MasterClockOffset.RefineWith | crates/cvd-worker/src/clock.rs:40-51 | Re-anchors at the reply, half the round trip ahead; slow replies change nothing |
| Clock.FiveSeconds | crates/cvd-worker/src/clock.rs:40-51 | A reply is used exactly when it took at most five seconds |
| Clock.RoundTrip | crates/cvd-worker/src/lifecycle.rs:1095-1099 | To the local clock and back is exact exactly from the anchor on, up to the largest difference 64 bits hold |
| Clock.RoundTripLocal | crates/cvd-worker/src/clock.rs:60-70 | The other way round less than a millisecond is lost |
| Clock.ReplyBoundsError | crates/cvd-worker/src/clock.rs:40-70 | After one good reply the mapped start is within half the round trip, plus two milliseconds of rounding, of the true instant |
| Clock.StartError | crates/cvd-worker/src/lifecycle.rs:997-1040 | After any replies, slow ones included, the last good one gives the bound |
| Clock.StartSkew | crates/cvd-worker/src/lifecycle.rs:407-421 | Two workers start within half the sum of their round trips plus two milliseconds |
| Layout.TotalDirs | crates/cvd-common/src/spec/validate.rs:396-408 | The saturating loop with its early exit is min(u64::MAX, sum of width^i) |
| Layout.ValidateLayout | crates/cvd-common/src/spec/validate.rs:362-385 | Complains exactly when the exact count exceeds the cap, unless the cap is u64::MAX |
| Layout.PaddedIsInjective | crates/cvd-worker/src/prebuild/metadata.rs:148-150 | Four-digit padding never makes two numbers collide |
| Layout.Build | crates/cvd-worker/src/prebuild/metadata.rs:125-194 | The nested loops produce the breadth-first layout |
| Layout.BuildCounts | crates/cvd-worker/src/prebuild/metadata.rs:141-168 | Exactly as many directories and files as the validator counts |
| Layout.BuildNeverClashes | crates/cvd-worker/src/prebuild/metadata.rs:141-186 | No path is created twice, and every parent is the root or lies in an earlier batch, so the order within the concurrent batches does not matter |
| Layout.ValidatedLayoutFits | crates/cvd-common/src/spec/validate.rs:362-385 | A layout passes the validator's test exactly when what is built is within the caps |

## Left out

- Service.MasterState.FailStaleJobs: the interleaved state machine gives each failed job of a tick its own step, which allows more interleavings than the code; the method itself fails them in one section, as the code does.
- Service.MasterState.ReportResult: requires non-negative counters; with a negative one the stored summary depends on the order of the maps (Saturation.OrderFreeIff), which a state machine of functions does not express. JobRecords.JobRecord.Close and AggregateInto have no such hypothesis.
- Service.MasterState.ReportResultAlone: as ReportResult.
- Service.MasterState.EmitForJob: the event's time stamp, worker progress and scan statistics.
- JobRecords.JobRecord.CleanupOnTerminal: closing the file queue and aborting the manifest task are not fields of the record here; FileQueue.dfy and DirScan.dfy model what they cause.
- WorkerLife.SystemKeepsSlots: a FetchJob executed after its worker was told to stop and has let go of that request is excluded; the master cannot tell it from a new one.
- Clock.RoundTrip: the difference wraps as in release builds; a debug build panics there.
- TokenBucket.WindowBound: exact reals instead of f64; the bound is per bucket, and each task has its own.
- Service.MasterState.FetchFileBatch: only the section under the jobs lock; draining the queue afterwards is in FileQueue.dfy.
- Event sequence numbers are unbounded; the code's i64 counter would wrap after 2^63 events.
- The last-word error sent to an evicted slow watcher.
- The summary's rates, percentiles and byte encodings: a histogram is a multiset of samples, its merge a sum, and per-worker results a multiset instead of a list.
- The manifest parsers (CSV quoting, comments, path normalisation) and list_jobs, query_job and metrics, which only read.
- Liveness of the directory scan after a cancel or an error: its tasks then end by being aborted, and a scanner's error stands for its closing of the queue and its return in one step.
- Which waiter a wake-up reaches: any waiter may be woken, the first in line included.
- Random and unaligned reading, where a short read drops bytes, and the streamed variants of the readers.
- S3 consistency checking, SHA-256 and the random generators: draws and shuffles are arbitrary.
- gRPC transport, authentication, configuration loading, the Prometheus page and all of the command-line client.
- The worker's phase tracker, its back-off delays and the contents of its progress reports.
