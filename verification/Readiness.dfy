/**
 The start barrier over a whole run: nobody gets into a record's ready set except by
 an acknowledged ReportReady, so a start time means that each worker of the job has
 sent one; and only the ReportReady that opens the barrier sets the time, a start delay
 after the moment it is handled.
 */
module Readiness {
  import opened Types
  import opened Aggregation
  import opened Jobs
  import opened MasterState
  import opened Interleaving
  import opened Effects
  import opened Runs
  import StreamProofs

  /** The step is a ReportReady of `w` for `j`, without error, that the master accepts. */
  ghost predicate ReportsReady(s: World, step: Step, w: WorkerId, j: JobId) {
    match step
    case Ready(v, k, failure, now) =>
      && v == w && k == j && failure.None?
      && !ReportReady(s.m, v, k, failure, now).1.cancelled && !ReportReady(s.m, v, k, failure, now).1.unknown
    case _ => false
  }

  function ReadyIn(m: Master, j: JobId): set<WorkerId> { if j in m.jobs then m.jobs[j].ready else {} }

  // The record of `k` in a later state: nobody new is ready, and the barrier has not moved.
  ghost predicate SameBarrier(m: Master, k: JobId, r: Job) {
    && r.ready <= ReadyIn(m, k)
    && r.startAt == (if k in m.jobs then m.jobs[k].startAt else 0)
    && (r.status.Running? ==> k in m.jobs && m.jobs[k].status.Running?)
  }

  // Nobody becomes ready, no barrier opens, and the configuration stays.
  ghost predicate NobodyNew(m: Master, m': Master) {
    m'.cfg == m.cfg && forall k | k in m'.jobs :: SameBarrier(m, k, m'.jobs[k])
  }

  // Nobody but `w`, in `j`, becomes ready.
  ghost predicate OnlyNew(m: Master, m': Master, w: WorkerId, j: JobId) {
    forall k :: ReadyIn(m', k) <= if k == j then ReadyIn(m, k) + {w} else ReadyIn(m, k)
  }

  lemma RewriteReady(m: Master, j: JobId, r: Job, kind: EventKind)
    requires SameBarrier(m, j, r)
    ensures NobodyNew(m, m) && NobodyNew(m, SetJob(m, j, r)) && NobodyNew(m, Emit(SetJob(m, j, r), j, kind))
  {
    hide Emit;
    StreamProofs.EmitFacts(m, j, r, kind);
  }

  lemma ErrorAddsNobody(m: Master, w: WorkerId, j: JobId, reason: string, now: Now)
    ensures NobodyNew(m, ReportReady(m, w, j, Some(reason), now).0)
  {
    hide Emit, NobodyNew;
    if j in m.jobs {
      var t := m.jobs[j].Touch(w, now);
      RewriteReady(m, j, t, StatusChange);
      RewriteReady(m, j, t.Close(Failed, Some(ReadyFailure(w, reason)), now), StatusChange);
    }
    NobodyIsNew(m);
  }

  lemma NobodyIsNew(m: Master)
    ensures NobodyNew(m, m)
  {}

  // The step by which `w` opens the barrier of `j`.
  ghost predicate OpensNow(r: Job, r': Job, delay: int, now: Now) {
    r.status.Preparing? && r'.status.Running? && r'.startAt == now.ms + delay
  }

  lemma ReadyAddsOne(m: Master, w: WorkerId, j: JobId, now: Now)
    ensures var (m', reply, _) := ReportReady(m, w, j, None, now);
      if reply.cancelled || reply.unknown then m' == m
      else
        && m'.cfg == m.cfg && OnlyNew(m, m', w, j) && j in m.jobs && j in m'.jobs && reply.startAt == m'.jobs[j].startAt
        && (forall k | k in m'.jobs && k != j :: SameBarrier(m, k, m'.jobs[k]))
        && (|| (m'.jobs[j].startAt == m.jobs[j].startAt && (m'.jobs[j].status.Running? ==> m.jobs[j].status.Running?))
            || OpensNow(m.jobs[j], m'.jobs[j], m.cfg.startDelay, now))
  {
    hide Emit, Job.MarkReady, SameBarrier;
    if j in m.jobs {
      var r := m.jobs[j].Touch(w, now).MarkReady(w, m.cfg.startDelay, now);
      MarkReadyAddsOne(m.jobs[j], w, m.cfg.startDelay, now);
      EmitJobs(m, j, r, StatusChange);
      EmitCfg(m, j, r);
      OthersSame(m);
    }
  }

  lemma MarkReadyAddsOne(r: Job, w: WorkerId, delay: int, now: Now)
    ensures var r' := r.Touch(w, now).MarkReady(w, delay, now);
      && r'.ready <= r.ready + {w}
      && (|| (r'.startAt == r.startAt && (r'.status.Running? ==> r.status.Running?))
          || OpensNow(r, r', delay, now))
  {}

  lemma EmitCfg(m: Master, j: JobId, r: Job)
    ensures Emit(SetJob(m, j, r), j, StatusChange).cfg == m.cfg
  {}

  lemma OthersSame(m: Master)
    ensures forall k | k in m.jobs :: SameBarrier(m, k, m.jobs[k])
  {}

  lemma ProgressAddsNobody(m: Master, w: WorkerId, j: JobId, p: Progress, now: Now)
    ensures NobodyNew(m, ReportProgress(m, w, j, p, now).0)
  {
    hide Emit, NobodyNew;
    if j in m.jobs {
      var t := m.jobs[j].Touch(w, now);
      RewriteReady(m, j, t, ProgressEvent);
      RewriteReady(m, j, t.(progress := m.jobs[j].progress[w := SanitizeProgress(p)]), ProgressEvent);
    }
    NobodyIsNew(m);
  }

  lemma BatchAddsNobody(m: Master, w: WorkerId, j: JobId, now: Now)
    ensures NobodyNew(m, FetchFileBatch(m, w, j, now).0)
  {
    hide Emit, NobodyNew;
    if j in m.jobs { RewriteReady(m, j, m.jobs[j].Touch(w, now), StatusChange); }
    NobodyIsNew(m);
  }

  lemma ResultAddsNobody(m: Master, w: WorkerId, j: JobId, result: WorkerResult, now: Now)
    ensures NobodyNew(m, ReportResult(m, w, j, result, now).0)
  {
    hide Emit, NobodyNew;
    if j in m.jobs {
      var r := m.jobs[j];
      var a := r.AddResult(w, result, now);
      RewriteReady(m, j, r.Touch(w, now), StatusChange);
      RewriteReady(m, j, a, StatusChange);
      RewriteReady(m, j, a.Close(Failed, Some(r.FailureOf(w, result)), now), StatusChange);
      RewriteReady(m, j, a.Close(Completed, a.error, now), StatusChange);
    }
    NobodyIsNew(m);
  }

  lemma FetchAddsNobody(s: World, w: WorkerId, now: Now)
    requires Inv(s)
    ensures NobodyNew(s.m, FetchJob(s.m, w, now).0)
  {
    hide Inv;
    FetchCfg(s.m, w, now);
    if !Replays(s.m, w) {
      var i := FetchEffect(s, w, now);
      hide FetchJob;
    }
    hide FetchLoop;
  }

  lemma CreateAddsNobody(m: Master, j: JobId, raw: int, manifest: bool, now: Now)
    requires j !in m.jobs
    ensures NobodyNew(m, CreateRecord(m, j, raw, manifest, now))
  {
    hide Emit, NobodyNew;
    RewriteReady(m, j, NewJob(raw, manifest, now), StatusChange);
  }

  lemma EndingAddsNobody(s: World, step: Step)
    requires Enabled(s, step) && (step.Delete? || step.ManifestFails? || step.TickFail?)
    ensures NobodyNew(s.m, Apply(s, step).m)
  {
    hide Emit, NobodyNew, TickFails;
    var j := step.job;
    if j in s.m.jobs {
      var r := s.m.jobs[j];
      match step {
        case Delete(_, now) => RewriteReady(s.m, j, r.Close(Cancelled, r.error, now), StatusChange);
        case ManifestFails(_, reason, now) => RewriteReady(s.m, j, r.Close(Failed, Some(ManifestFailure(reason)), now), StatusChange);
        case TickFail(_, why, now) => RewriteReady(s.m, j, r.Close(Failed, Some(why), now), StatusChange);
      }
    }
    NobodyIsNew(s.m);
  }

  lemma FewerJobs(m: Master, m': Master)
    ensures m'.jobs == m.jobs && m'.cfg == m.cfg ==> NobodyNew(m, m')
    ensures forall ids :: m' == GcRemove(m, ids) ==> NobodyNew(m, m')
  {}

  /** A ReportReady without error; every other step leaves all barriers as they were. */
  predicate MayOpen(step: Step) { step.Ready? && step.failure.None? }

  lemma OthersKeepBarriers(s: World, step: Step)
    requires Inv(s) && Enabled(s, step) && !MayOpen(step)
    ensures NobodyNew(s.m, Apply(s, step).m)
  {
    hide Inv, Emit, FetchJob, ReportReady, ReportProgress, FetchFileBatch, ReportResult, DeleteJob, FailManifest, FailStale,
      CreateRecord, RunSection, TickFails, NobodyNew;
    FewerJobs(s.m, Apply(s, step).m);
    match step {
      case Create(k, raw, manifest, now) =>
        FreshId(s, step);
        CreateAddsNobody(s.m, k, raw, manifest, now);
      case Fetch(v, now) => FetchAddsNobody(s, v, now);
      case Ready(v, k, failure, now) => ErrorAddsNobody(s.m, v, k, failure.value, now);
      case Report(v, k, p, now) => ProgressAddsNobody(s.m, v, k, p, now);
      case Batch(v, k, now) => BatchAddsNobody(s.m, v, k, now);
      case Result(v, k, result, now) => ResultAddsNobody(s.m, v, k, result, now);
      case Delete(_, _) => EndingAddsNobody(s, step);
      case ManifestFails(_, _, _) => EndingAddsNobody(s, step);
      case TickFail(_, _, _) => EndingAddsNobody(s, step);
      case Proceed(k) => SectionStays(s, k);
      case _ => OthersStay(s, step);
    }
  }

  /** Whoever is new in a ready set after a step has just reported, and been accepted. */
  lemma NewcomersReported(s: World, step: Step, w: WorkerId, j: JobId)
    requires Inv(s) && Enabled(s, step) && w in ReadyIn(Apply(s, step).m, j) && w !in ReadyIn(s.m, j)
    ensures ReportsReady(s, step, w, j)
  {
    hide Inv, Enabled, ReportReady;
    if MayOpen(step) {
      assert Apply(s, step).m == ReportReady(s.m, step.worker, step.job, None, step.now).0;
      ReadyAddsOne(s.m, step.worker, step.job, step.now);
    } else {
      OthersKeepBarriers(s, step);
    }
    hide Apply;
  }

  // What a step does to one barrier: nothing, or it opens it and answers the time.
  lemma StepAtBarrier(s: World, step: Step, j: JobId)
    requires Inv(s) && Enabled(s, step) && j in Apply(s, step).m.jobs
    ensures var r' := Apply(s, step).m.jobs[j];
      || SameStart(s.m, j, r')
      || (MayOpen(step) && step.job == j && j in s.m.jobs && OpensNow(s.m.jobs[j], r', s.m.cfg.startDelay, step.now)
          && ReportReady(s.m, step.worker, j, None, step.now).1.startAt == r'.startAt)
  {
    hide Inv, Enabled, ReportReady;
    if MayOpen(step) {
      assert Apply(s, step).m == ReportReady(s.m, step.worker, step.job, None, step.now).0;
      ReadyAddsOne(s.m, step.worker, step.job, step.now);
    } else {
      OthersKeepBarriers(s, step);
    }
    hide Apply;
  }

  ghost predicate SameStart(m: Master, j: JobId, r: Job) {
    && r.startAt == (if j in m.jobs then m.jobs[j].startAt else 0)
    && (r.status.Running? ==> j in m.jobs && m.jobs[j].status.Running?)
  }

  lemma SectionStays(s: World, k: JobId)
    requires Enabled(s, Proceed(k))
    ensures Apply(s, Proceed(k)).m.jobs == s.m.jobs && Apply(s, Proceed(k)).m.cfg == s.m.cfg
  {
    SectionKeepsJobs(s.m, k, s.closing[k][0]);
  }

  lemma OthersStay(s: World, step: Step)
    requires Enabled(s, step)
    requires step.Enqueue? || step.Watch? || step.Collect? || step.Remove? || step.Unbind? || step.Take? || step.HangUp? || step.Shutdown?
    ensures if step.Remove? then Apply(s, step).m == GcRemove(s.m, s.gc.ids) else Apply(s, step).m.jobs == s.m.jobs && Apply(s, step).m.cfg == s.m.cfg
  {
    if step.Watch? { WatchStays(s.m, step.job, step.chan); }
    hide FetchJob, ReportReady, ReportProgress, FetchFileBatch, ReportResult, DeleteJob, FailManifest, FailStale,
      RunSection, CreateRecord, TickFails, GcCollect, GcRemove, WatchJob;
  }

  lemma WatchStays(m: Master, j: JobId, c: ChanId)
    requires j in m.jobs
    ensures WatchJob(m, j, c).jobs == m.jobs && WatchJob(m, j, c).cfg == m.cfg
  {}

  // Who is ready in a state of a run reported so at some step before it.
  lemma {:induction false} ReadyWasReported(cfg: Config, run: Run, i: nat, w: WorkerId, j: JobId) returns (k: nat)
    requires IsRun(cfg, run) && i < |run.states| && w in ReadyIn(run.states[i].m, j)
    ensures k < i && k < |run.steps| && ReportsReady(run.states[k], run.steps[k], w, j)
  {
    hide *;
    NobodyAtFirst(cfg, run, w, j);
    assert i > 0;
    StepAt(cfg, run, i - 1);
    AlwaysInv(cfg, run, i - 1);
    if w in ReadyIn(run.states[i - 1].m, j) {
      k := ReadyWasReported(cfg, run, i - 1, w, j);
    } else {
      NewcomersReported(run.states[i - 1], run.steps[i - 1], w, j);
      k := i - 1;
    }
  }

  lemma NobodyAtFirst(cfg: Config, run: Run, w: WorkerId, j: JobId)
    requires IsRun(cfg, run)
    ensures w !in ReadyIn(run.states[0].m, j)
  {
    hide Enabled, Apply;
  }

  ghost predicate HasReported(run: Run, i: nat, w: WorkerId, j: JobId)
    requires i < |run.states| && i < |run.steps|
  {
    exists k :: 0 <= k <= i && ReportsReady(run.states[k], run.steps[k], w, j)
  }

  /**
   Nobody starts early: when a step of a run answers a start time for a job, every
   slot of the job is filled and every worker holding one has by then had its
   ReportReady for this job accepted.
   */
  lemma NobodyStartsEarly(cfg: Config, run: Run, i: nat, j: JobId)
    requires IsRun(cfg, run) && i < |run.steps| && i < |run.states| && StartReply(run, i, j) != 0
    ensures i + 1 < |run.states| && j in run.states[i + 1].m.jobs
    ensures var r := run.states[i + 1].m.jobs[j];
      r.run == r.slots.Keys && |r.slots| == r.target && forall w | w in r.slots :: HasReported(run, i, w, j)
  {
    StartFindsAllReady(cfg, run, i, j);
    var r := run.states[i + 1].m.jobs[j];
    hide *;
    forall w | w in r.slots ensures HasReported(run, i, w, j) {
      ReadyIsIn(run.states[i + 1].m, j, w);
      var k := ReadyWasReported(cfg, run, i + 1, w, j);
      ReportedAt(run, i, w, j, k);
    }
  }

  lemma ReadyIsIn(m: Master, j: JobId, w: WorkerId)
    requires j in m.jobs && w in m.jobs[j].ready
    ensures w in ReadyIn(m, j)
  {}

  lemma ReportedAt(run: Run, i: nat, w: WorkerId, j: JobId, k: nat)
    requires k <= i < |run.states| && i < |run.steps| && ReportsReady(run.states[k], run.steps[k], w, j)
    ensures HasReported(run, i, w, j)
  {}

  // ------------------------------------------------------------- the start time

  /** The configuration never changes. */
  lemma {:induction false} CfgStays(cfg: Config, run: Run, i: nat)
    requires IsRun(cfg, run) && i < |run.states|
    ensures run.states[i].m.cfg == cfg
  {
    if i > 0 {
      hide *;
      StepAt(cfg, run, i - 1);
      CfgStays(cfg, run, i - 1);
      AlwaysInv(cfg, run, i - 1);
      SameCfg(run.states[i - 1], run.steps[i - 1]);
    }
  }

  lemma SameCfg(s: World, step: Step)
    requires Inv(s) && Enabled(s, step)
    ensures Apply(s, step).m.cfg == s.m.cfg
  {
    hide Inv, Enabled, ReportReady;
    if MayOpen(step) {
      assert Apply(s, step).m == ReportReady(s.m, step.worker, step.job, None, step.now).0;
      ReadyAddsOne(s.m, step.worker, step.job, step.now);
    } else {
      OthersKeepBarriers(s, step);
    }
    hide Apply;
  }

  lemma FetchCfg(m: Master, w: WorkerId, now: Now)
    ensures FetchJob(m, w, now).0.cfg == m.cfg
  {
    LoopKeepsCfg(m.(active := m.active - {w}), w, now);
    hide FetchLoop;
  }

  lemma {:induction false} LoopKeepsCfg(m: Master, w: WorkerId, now: Now)
    ensures FetchLoop(m, w, now).0.cfg == m.cfg
    decreases |m.queue|
  {
    if m.queue != [] {
      var j := m.queue[0];
      if !IsPending(m.jobs, j) {
        LoopKeepsCfg(m.(queue := m.queue[1..]), w, now);
      } else if m.jobs[j].SlotsRemaining() == 0 {
        LoopKeepsCfg(SetJob(m, j, m.jobs[j].EnterPreparing(now)).(queue := m.queue[1..]), w, now);
      }
    }
  }

  // Step `i` takes the job from PREPARING to RUNNING.
  ghost predicate Opening(run: Run, i: nat, j: JobId) {
    && i + 1 < |run.states| && i < |run.steps|
    && j in run.states[i].m.jobs && run.states[i].m.jobs[j].status.Preparing?
    && j in run.states[i + 1].m.jobs && run.states[i + 1].m.jobs[j].status.Running?
  }

  /**
   Only a ReportReady opens the barrier, and it sets, and answers, the start time: the
   start delay after the moment the master handles it.
   */
  lemma OpeningSetsTheTime(cfg: Config, run: Run, i: nat, j: JobId)
    requires IsRun(cfg, run) && Opening(run, i, j)
    ensures run.steps[i].Ready? && run.steps[i].job == j && run.steps[i].failure.None?
    ensures run.states[i + 1].m.jobs[j].startAt == run.steps[i].now.ms + cfg.startDelay
    ensures StartReply(run, i, j) == run.steps[i].now.ms + cfg.startDelay
  {
    hide Enabled, Apply, ReportReady;
    StepAt(cfg, run, i);
    AlwaysInv(cfg, run, i);
    CfgStays(cfg, run, i);
    StepAtBarrier(run.states[i], run.steps[i], j);
    hide IsRun;
  }

  // A start time in a record was set by an opening step.
  lemma {:induction false} StartWasSet(cfg: Config, run: Run, i: nat, j: JobId) returns (k: nat)
    requires IsRun(cfg, run) && i < |run.states| && j in run.states[i].m.jobs && run.states[i].m.jobs[j].startAt != 0
    ensures k < i && k < |run.steps| && run.steps[k].Ready? && Opening(run, k, j)
    ensures run.states[i].m.jobs[j].startAt == run.steps[k].now.ms + cfg.startDelay
  {
    hide *;
    NothingAtFirst(cfg, run);
    assert i > 0;
    StepAt(cfg, run, i - 1);
    AlwaysInv(cfg, run, i - 1);
    CfgStays(cfg, run, i - 1);
    var moved := BarrierMoved(run.states[i - 1], run.steps[i - 1], j);
    if moved {
      k := i - 1;
      IsOpening(run, k, j);
    } else {
      k := StartWasSet(cfg, run, i - 1, j);
    }
  }

  lemma IsOpening(run: Run, i: nat, j: JobId)
    requires i + 1 < |run.states| && i < |run.steps| && j in run.states[i].m.jobs && j in run.states[i + 1].m.jobs
    requires run.states[i].m.jobs[j].status.Preparing? && run.states[i + 1].m.jobs[j].status.Running?
    ensures Opening(run, i, j)
  {}

  lemma BarrierMoved(s: World, step: Step, j: JobId) returns (moved: bool)
    requires Inv(s) && Enabled(s, step) && j in Apply(s, step).m.jobs && Apply(s, step).m.jobs[j].startAt != 0
    ensures moved ==>
      && step.Ready? && j in s.m.jobs && s.m.jobs[j].status.Preparing?
      && Apply(s, step).m.jobs[j].status.Running? && Apply(s, step).m.jobs[j].startAt == step.now.ms + s.m.cfg.startDelay
    ensures !moved ==> j in s.m.jobs && s.m.jobs[j].startAt == Apply(s, step).m.jobs[j].startAt
  {
    hide Inv, Enabled, Apply, ReportReady;
    StepAtBarrier(s, step, j);
    moved := !SameStart(s.m, j, Apply(s, step).m.jobs[j]);
  }

  lemma NothingAtFirst(cfg: Config, run: Run)
    requires IsRun(cfg, run)
    ensures run.states[0].m.jobs == map[]
  {
    hide Enabled, Apply;
  }

  /** Every start time answered is that of the one step that opened the barrier. */
  lemma StartTimeIs(cfg: Config, run: Run, i: nat, j: JobId) returns (k: nat)
    requires IsRun(cfg, run) && i < |run.steps| && i < |run.states| && StartReply(run, i, j) != 0
    ensures k <= i && k < |run.steps| && Opening(run, k, j)
    ensures run.steps[k].Ready? && run.steps[k].job == j && run.steps[k].failure.None?
    ensures StartReply(run, i, j) == run.steps[k].now.ms + cfg.startDelay
    ensures forall l | Opening(run, l, j) :: l == k
  {
    StartReplyIsRecorded(cfg, run, i, j);
    hide *;
    k := StartWasSet(cfg, run, i + 1, j);
    OpeningIsInside(run, k, j);
    OpeningSetsTheTime(cfg, run, k, j);
    forall l | Opening(run, l, j) ensures l == k { OneOpening(cfg, run, k, l, j); }
  }

  lemma OpeningIsInside(run: Run, k: nat, j: JobId)
    requires Opening(run, k, j)
    ensures k < |run.steps| && k + 1 < |run.states|
  {}

  lemma OneOpening(cfg: Config, run: Run, k: nat, l: nat, j: JobId)
    requires IsRun(cfg, run) && Opening(run, k, j) && Opening(run, l, j)
    ensures k == l
  {
    if k < l { NotPreparingAgain(cfg, run, k + 1, l, j); }
    if l < k { NotPreparingAgain(cfg, run, l + 1, k, j); }
    hide IsRun;
  }

  lemma {:induction false} NotPreparingAgain(cfg: Config, run: Run, i: nat, k: nat, j: JobId)
    requires IsRun(cfg, run) && i <= k < |run.states|
    requires j in run.states[i].m.jobs && !run.states[i].m.jobs[j].status.Pending? && !run.states[i].m.jobs[j].status.Preparing?
    requires j in run.states[k].m.jobs
    ensures !run.states[k].m.jobs[j].status.Pending? && !run.states[k].m.jobs[j].status.Preparing?
  {
    hide IsRun, Apply, Enabled;
    if i < k {
      StepAt(cfg, run, k - 1);
      KnownBefore(cfg, run, i, k - 1, j);
      NotPreparingAgain(cfg, run, i, k - 1, j);
      OnlyDocumentedTransitions(cfg, run, k - 1, j);
    }
  }
}
