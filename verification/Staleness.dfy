/**
 Liveness stamps.  The staleness watcher fails a job when a run worker was silent
 for too long; what that rests on is that every acknowledged request of a worker
 refreshes its stamp and that nothing ever turns a stamp back.
 */
module Staleness {
  import opened Types
  import opened Aggregation
  import opened Jobs
  import opened MasterState
  import opened Interleaving
  import opened Effects
  import opened Runs

  /** The step is a request of `w` about `j` that the master acknowledges. */
  ghost predicate Contacts(s: World, step: Step, w: WorkerId, j: JobId) {
    match step
    case Fetch(v, now) => v == w && FetchJob(s.m, v, now).1.Assigned? && FetchJob(s.m, v, now).1.job == j
    case Ready(v, k, failure, now) =>
      v == w && k == j && !ReportReady(s.m, v, k, failure, now).1.cancelled && !ReportReady(s.m, v, k, failure, now).1.unknown
    case Report(v, k, p, now) => v == w && k == j && !ReportProgress(s.m, v, k, p, now).1.unknown
    case Batch(v, k, now) => v == w && k == j && !FetchFileBatch(s.m, v, k, now).1.GateUnknown?
    case Result(v, k, result, now) => v == w && k == j && !ReportResult(s.m, v, k, result, now).1.unknown
    case _ => false
  }

  // The worker's clock reading that a request leaves behind.
  function InstantOf(step: Step): Option<int> {
    match step
    case Fetch(_, now) => Some(now.instant)
    case Ready(_, _, _, now) => Some(now.instant)
    case Report(_, _, _, now) => Some(now.instant)
    case Batch(_, _, now) => Some(now.instant)
    case Result(_, _, _, now) => Some(now.instant)
    case _ => None
  }

  // Stamps are as they were, or one worker's stamp in one job is renewed.
  ghost predicate SameStamps(m: Master, m': Master) {
    forall k | k in m.jobs && k in m'.jobs :: m'.jobs[k].lastSeen == m.jobs[k].lastSeen
  }

  ghost predicate Stamped(m: Master, m': Master, j: JobId, w: WorkerId, t: int) {
    && j in m.jobs && m'.jobs.Keys == m.jobs.Keys
    && forall k | k in m.jobs ::
         m'.jobs[k].lastSeen == if k == j then m.jobs[k].lastSeen[w := t] else m.jobs[k].lastSeen
  }

  lemma RewriteStamps(m: Master, j: JobId, r: Job, w: WorkerId, t: int, kind: EventKind)
    requires j in m.jobs && r.lastSeen == m.jobs[j].lastSeen[w := t]
    ensures Stamped(m, SetJob(m, j, r), j, w, t)
    ensures Stamped(m, Emit(SetJob(m, j, r), j, kind), j, w, t)
  {
    EmitJobs(m, j, r, kind);
    hide Emit;
  }

  lemma ReadyStamps(m: Master, w: WorkerId, j: JobId, failure: Option<string>, now: Now)
    ensures var (m', reply, _) := ReportReady(m, w, j, failure, now);
      && (m' == m || Stamped(m, m', j, w, now.instant))
      && (!reply.cancelled && !reply.unknown ==> Stamped(m, m', j, w, now.instant))
  {
    hide Emit, Stamped;
    if j in m.jobs && !m.jobs[j].status.Terminal() && w in m.jobs[j].slots {
      var t := m.jobs[j].Touch(w, now);
      var r := match failure
        case Some(reason) => if t.status.Preparing? then t.Close(Failed, Some(ReadyFailure(w, reason)), now) else t
        case None => t.MarkReady(w, m.cfg.startDelay, now);
      RewriteStamps(m, j, r, w, now.instant, StatusChange);
    }
  }

  lemma ProgressStamps(m: Master, w: WorkerId, j: JobId, p: Progress, now: Now)
    ensures var (m', ack) := ReportProgress(m, w, j, p, now);
      && (m' == m || Stamped(m, m', j, w, now.instant))
      && (!ack.unknown ==> Stamped(m, m', j, w, now.instant))
  {
    hide Emit, Stamped;
    if j in m.jobs {
      var t := m.jobs[j].Touch(w, now);
      RewriteStamps(m, j, t, w, now.instant, ProgressEvent);
      RewriteStamps(m, j, t.(progress := m.jobs[j].progress[w := SanitizeProgress(p)]), w, now.instant, ProgressEvent);
    }
  }

  lemma BatchStamps(m: Master, w: WorkerId, j: JobId, now: Now)
    ensures var (m', gate) := FetchFileBatch(m, w, j, now);
      && (m' == m || Stamped(m, m', j, w, now.instant))
      && (!gate.GateUnknown? ==> Stamped(m, m', j, w, now.instant))
  {
    hide Emit, Stamped;
    if j in m.jobs { RewriteStamps(m, j, m.jobs[j].Touch(w, now), w, now.instant, StatusChange); }
  }

  lemma ResultStamps(m: Master, w: WorkerId, j: JobId, result: WorkerResult, now: Now)
    ensures var (m', reply, _) := ReportResult(m, w, j, result, now);
      && (m' == m || Stamped(m, m', j, w, now.instant))
      && (!reply.unknown ==> Stamped(m, m', j, w, now.instant))
  {
    hide Emit, Stamped;
    if j in m.jobs {
      var r := m.jobs[j];
      var a := r.AddResult(w, result, now);
      var failed, completed := a.Close(Failed, Some(r.FailureOf(w, result)), now), a.Close(Completed, a.error, now);
      RewriteStamps(m, j, r.Touch(w, now), w, now.instant, StatusChange);
      RewriteStamps(m, j, a, w, now.instant, StatusChange);
      RewriteStamps(m, j, failed, w, now.instant, StatusChange);
      RewriteStamps(m, j, completed, w, now.instant, StatusChange);
    }
  }

  lemma FetchStamps(s: World, w: WorkerId, now: Now)
    requires Inv(s)
    ensures var (m', reply) := FetchJob(s.m, w, now);
      if reply.Assigned? then Stamped(s.m, m', reply.job, w, now.instant) else m'.jobs == s.m.jobs
  {
    hide Inv, Stamped, Job.TakeSlot;
    if Replays(s.m, w) {
      var j := s.m.active[w];
      SetStamps(s.m, FetchJob(s.m, w, now).0, j, s.m.jobs[j].Touch(w, now), w, now.instant);
    } else {
      var i := FetchEffect(s, w, now);
      hide FetchJob;
      if i < |s.m.queue| {
        var j := s.m.queue[i];
        TakeSlotStamps(s.m.jobs[j], w, now);
        SetStamps(s.m, FetchJob(s.m, w, now).0, j, s.m.jobs[j].TakeSlot(w, now), w, now.instant);
      }
    }
  }

  lemma SetStamps(m: Master, m': Master, j: JobId, r: Job, w: WorkerId, t: int)
    requires j in m.jobs && m'.jobs == m.jobs[j := r] && r.lastSeen == m.jobs[j].lastSeen[w := t]
    ensures Stamped(m, m', j, w, t)
  {}

  lemma TakeSlotStamps(r: Job, w: WorkerId, now: Now)
    ensures r.TakeSlot(w, now).lastSeen == r.lastSeen[w := now.instant]
  {}

  lemma CloseStamps(m: Master, j: JobId, r: Job)
    requires j in m.jobs && r.lastSeen == m.jobs[j].lastSeen
    ensures SameStamps(m, CloseJob(m, j, r))
  {
    EmitJobs(m, j, r, StatusChange);
    hide Emit;
  }

  // Steps by which no worker is heard.
  lemma CreateStamps(s: World, step: Step)
    requires Inv(s) && Enabled(s, step) && step.Create?
    ensures SameStamps(s.m, Apply(s, step).m)
  {
    hide Inv, Emit;
    FreshId(s, step);
    EmitJobs(s.m, step.job, NewJob(step.raw, step.manifest, step.now), StatusChange);
  }

  lemma EndingStamps(s: World, step: Step)
    requires Enabled(s, step) && (step.Delete? || step.ManifestFails? || step.TickFail?)
    ensures SameStamps(s.m, Apply(s, step).m)
  {
    hide Emit, CloseJob, SameStamps, TickFails;
    var j := step.job;
    if j in s.m.jobs {
      var r := s.m.jobs[j];
      match step {
        case Delete(_, now) => CloseStamps(s.m, j, r.Close(Cancelled, r.error, now));
        case ManifestFails(_, reason, now) => CloseStamps(s.m, j, r.Close(Failed, Some(ManifestFailure(reason)), now));
        case TickFail(_, why, now) => CloseStamps(s.m, j, r.Close(Failed, Some(why), now));
      }
    }
    SameJobs(s.m, s.m);
  }

  lemma SilentStamps(s: World, step: Step)
    requires Inv(s) && Enabled(s, step) && InstantOf(step).None?
    ensures SameStamps(s.m, Apply(s, step).m)
  {
    hide Inv, Emit, FetchJob, ReportReady, ReportProgress, FetchFileBatch, ReportResult, DeleteJob, FailManifest, FailStale,
      CreateRecord, RunSection, SameStamps, TickFails;
    if step.Create? {
      CreateStamps(s, step);
    } else if step.Delete? || step.ManifestFails? || step.TickFail? {
      EndingStamps(s, step);
    } else if step.Remove? {
      RemovalStamps(s.m, s.gc.ids);
    } else {
      if step.Proceed? { SectionKeepsJobs(s.m, step.job, s.closing[step.job][0]); }
      SameJobs(s.m, Apply(s, step).m);
    }
  }

  lemma RemovalStamps(m: Master, ids: set<JobId>)
    ensures SameStamps(m, GcRemove(m, ids))
  {}

  lemma StepStamps(s: World, step: Step) returns (w: WorkerId, j: JobId)
    requires Inv(s) && Enabled(s, step)
    ensures
      || SameStamps(s.m, Apply(s, step).m)
      || (InstantOf(step).Some? && Stamped(s.m, Apply(s, step).m, j, w, InstantOf(step).value))
  {
    hide Inv, Stamped, SameStamps, Enabled, FetchJob, ReportReady, ReportProgress, FetchFileBatch, ReportResult;
    w, j := 0, 0;
    SameJobs(s.m, Apply(s, step).m);
    match step {
      case Fetch(v, now) =>
        FetchStamps(s, v, now);
        w := v;
        if FetchJob(s.m, v, now).1.Assigned? { j := FetchJob(s.m, v, now).1.job; }
      case Ready(v, k, failure, now) =>
        ReadyStamps(s.m, v, k, failure, now);
        w, j := v, k;
      case Report(v, k, p, now) =>
        ProgressStamps(s.m, v, k, p, now);
        w, j := v, k;
      case Batch(v, k, now) =>
        BatchStamps(s.m, v, k, now);
        w, j := v, k;
      case Result(v, k, result, now) =>
        ResultStamps(s.m, v, k, result, now);
        w, j := v, k;
      case _ => SilentStamps(s, step);
    }
  }

  lemma SameJobs(m: Master, m': Master)
    ensures m'.jobs == m.jobs ==> SameStamps(m, m')
  {}

  /** Every acknowledged request, whatever its kind, renews the stamp. */
  lemma ContactStamps(s: World, step: Step, w: WorkerId, j: JobId)
    requires Inv(s) && Enabled(s, step) && Contacts(s, step, w, j)
    ensures InstantOf(step).Some? && Stamped(s.m, Apply(s, step).m, j, w, InstantOf(step).value)
  {
    hide Inv, Stamped, Enabled, FetchJob, ReportReady, ReportProgress, FetchFileBatch, ReportResult;
    match step {
      case Fetch(_, now) => FetchStamps(s, w, now);
      case Ready(_, _, failure, now) => ReadyStamps(s.m, w, j, failure, now);
      case Report(_, _, p, now) => ProgressStamps(s.m, w, j, p, now);
      case Batch(_, _, now) => BatchStamps(s.m, w, j, now);
      case Result(_, _, result, now) => ResultStamps(s.m, w, j, result, now);
    }
  }

  // The worker's stamp in the job is at least `t`.
  ghost predicate SeenSince(m: Master, w: WorkerId, j: JobId, t: int) {
    j in m.jobs && w in m.jobs[j].lastSeen && m.jobs[j].lastSeen[w] >= t
  }

  lemma StampsOnlyGrow(s: World, step: Step, w: WorkerId, j: JobId, t: int)
    requires Inv(s) && Enabled(s, step) && SeenSince(s.m, w, j, t) && j in Apply(s, step).m.jobs
    requires InstantOf(step).Some? ==> InstantOf(step).value >= t
    ensures SeenSince(Apply(s, step).m, w, j, t)
  {
    hide Inv, Enabled, Apply;
    var v, k := StepStamps(s, step);
  }

  // No request in between was timed before `t`: the monotonic clock does not run backwards.
  ghost predicate NotBefore(run: Run, i: nat, k: nat, t: int) {
    forall n | i <= n < k && n < |run.steps| && InstantOf(run.steps[n]).Some? :: InstantOf(run.steps[n]).value >= t
  }

  lemma {:induction false} SeenAlong(cfg: Config, run: Run, i: nat, k: nat, w: WorkerId, j: JobId, t: int)
    requires IsRun(cfg, run) && i <= k < |run.states| && NotBefore(run, i, k, t)
    requires SeenSince(run.states[i].m, w, j, t) && j in run.states[k].m.jobs
    ensures SeenSince(run.states[k].m, w, j, t)
  {
    hide *;
    if i < k {
      StepAt(cfg, run, k - 1);
      SeenKnown(run.states[i].m, w, j, t);
      KnownBefore(cfg, run, i, k - 1, j);
      NotBeforeLast(run, i, k, t);
      SeenAlong(cfg, run, i, k - 1, w, j, t);
      AlwaysInv(cfg, run, k - 1);
      StampsOnlyGrow(run.states[k - 1], run.steps[k - 1], w, j, t);
    }
  }

  lemma SeenKnown(m: Master, w: WorkerId, j: JobId, t: int)
    requires SeenSince(m, w, j, t)
    ensures j in m.jobs
  {}

  lemma NotBeforeLast(run: Run, i: nat, k: nat, t: int)
    requires NotBefore(run, i, k, t) && i < k <= |run.steps|
    ensures NotBefore(run, i, k - 1, t)
    ensures InstantOf(run.steps[k - 1]).Some? ==> InstantOf(run.steps[k - 1]).value >= t
  {}

  /**
   Who is failed for silence was silent: when the watcher fails a job because of
   `w`, every acknowledged request of `w` about that job, of any kind, is further
   back than the threshold.
   */
  lemma StaleMeansSilent(cfg: Config, run: Run, i: nat, k: nat, w: WorkerId, j: JobId, now: Now)
    requires IsRun(cfg, run) && i < k < |run.steps|
    requires Contacts(run.states[i], run.steps[i], w, j) && InstantOf(run.steps[i]).Some?
    requires NotBefore(run, i, k, InstantOf(run.steps[i]).value)
    requires run.steps[k] == TickFail(j, StaleWorker(w), now)
    ensures now.instant - InstantOf(run.steps[i]).value > run.states[k].m.cfg.staleness
  {
    hide *;
    var t := InstantOf(run.steps[i]).value;
    OneMoreState(cfg, run);
    StepAt(cfg, run, i);
    StepAt(cfg, run, k);
    AlwaysInv(cfg, run, i);
    ContactStamps(run.states[i], run.steps[i], w, j);
    StampIsSeen(run.states[i].m, run.states[i + 1].m, j, w, t);
    TickKnows(run.states[k], j, w, now);
    NotBeforeTail(run, i, k, t);
    SeenAlong(cfg, run, i + 1, k, w, j, t);
    TickMeans(run.states[k], j, w, now, t);
  }

  lemma OneMoreState(cfg: Config, run: Run)
    requires IsRun(cfg, run)
    ensures |run.states| == |run.steps| + 1
  {}

  lemma StampIsSeen(m: Master, m': Master, j: JobId, w: WorkerId, t: int)
    requires Stamped(m, m', j, w, t)
    ensures SeenSince(m', w, j, t)
  {}

  lemma NotBeforeTail(run: Run, i: nat, k: nat, t: int)
    requires NotBefore(run, i, k, t)
    ensures NotBefore(run, i + 1, k, t)
  {}

  lemma TickKnows(s: World, j: JobId, w: WorkerId, now: Now)
    requires Enabled(s, TickFail(j, StaleWorker(w), now))
    ensures j in s.m.jobs
  {}

  lemma TickMeans(s: World, j: JobId, w: WorkerId, now: Now, t: int)
    requires Enabled(s, TickFail(j, StaleWorker(w), now)) && SeenSince(s.m, w, j, t)
    ensures now.instant - t > s.m.cfg.staleness
  {}

  /**
   Files go out only to a job under way: whenever FetchFileBatch lets a worker
   through to the queue, the worker holds a slot, every slot is filled, everyone
   is ready and the job's start time is fixed.
   */
  lemma NoFilesBeforeStart(cfg: Config, run: Run, i: nat, w: WorkerId, j: JobId, now: Now)
    requires IsRun(cfg, run) && i < |run.states| && FetchFileBatch(run.states[i].m, w, j, now).1.GateOpen?
    ensures j in run.states[i].m.jobs
    ensures var r := run.states[i].m.jobs[j];
      w in r.slots && r.ready == r.run == r.slots.Keys && |r.slots| == r.target && r.manifestStarted && !r.cancelFlag
  {
    AlwaysInv(cfg, run, i);
    assert JobInv(run.states[i].m.jobs[j]);
  }
}
