/**
 The master with any number of RPCs in flight.

 Each step is one critical section: the first section of a new request, or the
 next section of an RPC already under way.  Between two sections of one RPC any
 other step may run.  What an RPC still has to do is part of the state:

  - `creating`: CreateJob calls that have stored the record but not queued it;
  - `closing`: for each job, the remaining sections of the one RPC (or tick) that
    moved it to a final state, in program order;
  - `clears`: ReportResult calls that still have to drop a binding;
  - `gc`: the job ids the collector has picked but not yet removed.

 The remaining fields only record history.
 */
module Interleaving {
  import opened Types
  import opened Aggregation
  import opened Jobs
  import opened MasterState

  datatype Section =
    | Finalize
    | RemovePending
    | ClearBindings(crew: set<WorkerId>)

  datatype GcBatch = GcIdle | GcPicked(ids: set<JobId>, nowMs: int)

  datatype World = World(
    m: Master,
    creating: set<JobId>,
    closing: map<JobId, seq<Section>>,
    clears: multiset<(JobId, WorkerId)>,
    gc: GcBatch,
    issued: set<JobId>,                  // every id CreateJob has drawn
    granted: set<(WorkerId, JobId)>,     // FetchJob replies
    told: set<(WorkerId, JobId)>,        // replies after which a worker may send its result
    down: set<WorkerId>)                 // workers that were told to shut down

  datatype Step =
    | Create(job: JobId, raw: int, manifest: bool, now: Now)
    | Enqueue(job: JobId)
    | Fetch(worker: WorkerId, now: Now)
    | Ready(worker: WorkerId, job: JobId, failure: Option<string>, now: Now)
    | Report(worker: WorkerId, job: JobId, progress: Progress, now: Now)
    | Batch(worker: WorkerId, job: JobId, now: Now)
    | Result(worker: WorkerId, job: JobId, result: WorkerResult, now: Now)
    | Delete(job: JobId, now: Now)
    | Watch(job: JobId, chan: ChanId)
    | ManifestFails(job: JobId, reason: string, now: Now)
    | TickFail(job: JobId, why: Failure, now: Now)
    | Collect(nowMs: int)
    | Remove
    | Proceed(job: JobId)                // next section of the RPC closing a job
    | Unbind(job: JobId, worker: WorkerId)
    | Take(chan: ChanId)
    | HangUp(chan: ChanId)
    | Shutdown(worker: WorkerId)

  function Start(cfg: Config): World {
    World(Initial(cfg), {}, map[], multiset{}, GcIdle, {}, {}, {}, {})
  }

  /** When a step can happen at all. A fresh UUID has never been drawn before. */
  ghost predicate Enabled(s: World, step: Step) {
    match step
    case Create(j, raw, _, _) => j !in s.issued
    case Enqueue(j) => j in s.creating
    case Watch(j, c) => j in s.m.jobs && c !in s.m.chans
    case ManifestFails(j, _, _) => j in s.m.jobs ==> s.m.jobs[j].manifestStarted
    case TickFail(j, why, now) => j in s.m.jobs && TickFails(s.m.cfg, s.m.jobs[j], why, now)
    case Collect(_) => s.gc.GcIdle?
    case Remove => s.gc.GcPicked?
    case Proceed(j) => j in s.closing && s.closing[j] != []
    case Unbind(j, w) => (j, w) in s.clears
    case Take(c) => c in s.m.chans && s.m.chans[c].taken < |s.m.chans[c].stream|
    case HangUp(c) => c in s.m.chans
    case _ => true
  }

  // The sections left after the one that closed a job, by the kind of RPC.
  function AfterDelete(crew: set<WorkerId>, wasPending: bool): seq<Section> {
    [Finalize] + (if wasPending then [RemovePending] else []) + (if crew != {} then [ClearBindings(crew)] else [])
  }

  function Closed(s: World, m: Master, c: Closing, rest: seq<Section>): World {
    match c
    case Stays => s.(m := m)
    case Closes(j, _) => s.(m := m, closing := s.closing[j := rest])
  }

  function RunSection(m: Master, j: JobId, section: Section): Master {
    match section
    case Finalize => FinalizeStream(m, j)
    case RemovePending => Unqueue(m, j)
    case ClearBindings(crew) => ClearActive(m, j, crew)
  }

  ghost function Apply(s: World, step: Step): World
    requires Enabled(s, step)
  {
    match step
    case Create(j, raw, manifest, now) =>
      s.(m := CreateRecord(s.m, j, raw, manifest, now), creating := s.creating + {j}, issued := s.issued + {j})
    case Enqueue(j) =>
      s.(m := PushBack(s.m, j), creating := s.creating - {j})
    case Fetch(w, now) =>
      var (m, reply) := FetchJob(s.m, w, now);
      s.(m := m, granted := if reply.Assigned? then s.granted + {(w, reply.job)} else s.granted)
    case Ready(w, j, failure, now) =>
      var (m, reply, c) := ReportReady(s.m, w, j, failure, now);
      var stop := failure.None? && (reply.cancelled || reply.startAt != 0);
      Closed(s, m, c, if c.Closes? then [ClearBindings(c.crew), Finalize] else [])
        .(told := if stop then s.told + {(w, j)} else s.told)
    case Report(w, j, p, now) =>
      var (m, ack) := ReportProgress(s.m, w, j, p, now);
      s.(m := m, told := if ack.cancelled || ack.unknown then s.told + {(w, j)} else s.told)
    case Batch(w, j, now) =>
      var (m, gate) := FetchFileBatch(s.m, w, j, now);
      s.(m := m, told := if gate.GateCancelled? then s.told + {(w, j)} else s.told)
    case Result(w, j, result, now) =>
      var (m, _, c) := ReportResult(s.m, w, j, result, now);
      if c.Closes? then Closed(s, m, c, [Finalize, ClearBindings({w})])
      else s.(m := m, clears := s.clears + multiset{(j, w)})
    case Delete(j, now) =>
      var (m, c) := DeleteJob(s.m, j, now);
      Closed(s, m, c, if c.Closes? then AfterDelete(c.crew, IsPending(s.m.jobs, j)) else [])
    case Watch(j, c) => s.(m := WatchJob(s.m, j, c))
    case ManifestFails(j, reason, now) =>
      var (m, c) := FailManifest(s.m, j, reason, now);
      Closed(s, m, c, if c.Closes? then [ClearBindings(c.crew), Finalize] else [])
    case TickFail(j, why, now) =>
      var (m, c) := FailStale(s.m, j, why, now);
      Closed(s, m, c, if c.Closes? then [ClearBindings(c.crew), Finalize] else [])
    case Collect(nowMs) => s.(gc := GcPicked(GcCollect(s.m, nowMs), nowMs))
    case Remove => s.(m := GcRemove(s.m, s.gc.ids), gc := GcIdle)
    case Proceed(j) =>
      s.(m := RunSection(s.m, j, s.closing[j][0]), closing := s.closing[j := s.closing[j][1..]])
    case Unbind(j, w) =>
      s.(m := ClearActive(s.m, j, {w}), clears := s.clears - multiset{(j, w)})
    case Take(c) => s.(m := TakeEvent(s.m, c))
    case HangUp(c) => s.(m := DropClient(s.m, c))
    case Shutdown(w) => s.(down := s.down + {w})
  }

  // ----------------------------------------------------------------- invariants

  ghost predicate JobsInv(s: World) {
    && s.m.jobs.Keys <= s.issued
    && forall j | j in s.m.jobs :: JobInv(s.m.jobs[j])
  }

  ghost predicate NoRepeats(q: seq<JobId>) { forall a, b | 0 <= a < b < |q| :: q[a] != q[b] }

  ghost predicate HoldsSlots(jobs: map<JobId, Job>, j: JobId) {
    IsPending(jobs, j) && jobs[j].slots != map[]
  }

  /**
   The FIFO queue: no id twice; every PENDING job is in it, or its CreateJob is
   about to put it there; and a PENDING job that has handed out slots has no
   PENDING job ahead of it.  (Ids of jobs that are no longer PENDING may linger.)
   */
  ghost predicate QueueInv(jobs: map<JobId, Job>, queue: seq<JobId>, creating: set<JobId>, issued: set<JobId>) {
    && NoRepeats(queue)
    && (forall a | 0 <= a < |queue| :: queue[a] !in creating && queue[a] in issued)
    && creating <= issued
    && (forall j | IsPending(jobs, j) :: j in creating || j in queue)
    && (forall j | j in creating :: !HoldsSlots(jobs, j))
    && (forall a, b | 0 <= a < b < |queue| && HoldsSlots(jobs, queue[b]) :: !IsPending(jobs, queue[a]))
  }

  ghost predicate LogOk(m: Master, j: JobId) {
    var log := Log(m, j);
    && (forall a | 0 <= a < |log| :: log[a].seqNo < m.nextSeq)
    && (forall a, b | 0 <= a < b < |log| :: log[a].seqNo < log[b].seqNo)
    && (forall a | 0 <= a < |log| - 1 :: !log[a].status.Terminal())
    && (IsOpen(m.jobs, j) ==> log != [] && !log[|log| - 1].status.Terminal())
    && (log != [] && !IsOpen(m.jobs, j) ==> log[|log| - 1].status.Terminal())
    && (j in m.jobs ==> log != [] && log[|log| - 1].status == m.jobs[j].status)
  }

  /** A channel holds its snapshot and then a gapless stretch of the job's later events. */
  ghost predicate ChanOk(m: Master, c: Chan) {
    var log := Log(m, c.job);
    var n := |c.stream| - 1;
    && |c.stream| >= 1
    && c.since + n <= |log|
    && c.stream[1..] == log[c.since..c.since + n]
    && (!c.evicted ==> c.since + n == |log|)
    && c.stream[0].seqNo < m.nextSeq
    && (forall a | 0 <= a < c.since :: log[a].seqNo < c.stream[0].seqNo)
    && (forall a | c.since <= a < |log| :: c.stream[0].seqNo < log[a].seqNo)
    && (c.since < |log| || IsOpen(m.jobs, c.job) ==> !c.stream[0].status.Terminal())
    && (c.since == |log| && !IsOpen(m.jobs, c.job) ==> c.stream[0].status.Terminal())
  }

  ghost predicate StreamInv(m: Master, issued: set<JobId>) {
    && (forall j :: LogOk(m, j))
    && m.log.Keys <= issued
    && (forall c | c in m.chans :: ChanOk(m, m.chans[c]) && m.chans[c].job in issued)
    && (forall j, c | c in Watchers(m, j) :: c in m.chans && m.chans[c].job == j && !m.chans[c].evicted)
    && (forall c | c in m.chans && !m.chans[c].evicted && IsOpen(m.jobs, m.chans[c].job) :: c in Watchers(m, m.chans[c].job))
  }

  /** RPCs past their closing section: the job is final, and the watchers left will still be dropped. */
  ghost predicate FlightInv(s: World) {
    && (forall j | j in s.closing :: !IsOpen(s.m.jobs, j) && j in s.issued)
    && (forall j | Watchers(s.m, j) != {} && !IsOpen(s.m.jobs, j) :: j in s.closing && Finalize in s.closing[j])
    && (s.gc.GcPicked? ==> forall j | j in s.gc.ids && j in s.m.jobs ::
          s.m.jobs[j].status.Terminal() && s.m.jobs[j].GcBaseline() <= s.gc.nowMs - s.m.cfg.retention)
    && (s.gc.GcPicked? ==> s.gc.ids <= s.issued)
  }

  /** Holds in every reachable state, whatever the workers and clients do. */
  ghost predicate Inv(s: World) {
    && JobsInv(s)
    && QueueInv(s.m.jobs, s.m.queue, s.creating, s.issued)
    && StreamInv(s.m, s.issued)
    && FlightInv(s)
  }

  // What the invariant says of one record, and of a fresh id.
  lemma FreshId(s: World, step: Step)
    requires Inv(s) && Enabled(s, step) && step.Create?
    ensures step.job !in s.m.jobs && s.m.jobs.Keys <= s.issued
  {
    hide JobInv, QueueInv, StreamInv, FlightInv;
  }

  lemma KnownJob(s: World, j: JobId)
    requires Inv(s) && j in s.m.jobs
    ensures JobInv(s.m.jobs[j]) && j in s.issued
  {
    hide JobInv, QueueInv, StreamInv, FlightInv;
  }
}
