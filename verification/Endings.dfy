/**
 How a record comes to be, and how it ends: which step makes it, fills its crew and closes
 it, and what that step leaves in it (crates/cvd-master/src/scheduler, service, manifest.rs,
 aggregate.rs).
 */
module Endings {
  import opened Types
  import opened Aggregation
  import opened Jobs
  import opened MasterState
  import opened Interleaving
  import opened Effects
  import opened Runs
  import Watching

  /** What the step that ends a job leaves as its final status and error. */
  ghost predicate EndsBy(step: Step, j: JobId, r: Job, r': Job) {
    match step
    case Delete(k, _) => k == j && r'.status == Cancelled && r'.error == None
    case Ready(w, k, failure, _) =>
      && k == j && w in r.slots && r.status == Preparing
      && failure.Some? && r'.status == Failed && r'.error == Some(ReadyFailure(w, failure.value))
    case Result(w, k, result, _) =>
      && k == j && w in r.run && w !in r.results && r.status == Running && r'.results == r.results[w := result]
      && if result.success then r'.status == Completed && r'.error == None && r'.results.Keys == r.run
         else r'.status == Failed
              && r'.error == Some(if result.error.Some? then Reported(result.error.value) else WorkerFailure(w))
    case ManifestFails(k, reason, _) => k == j && r'.status == Failed && r'.error == Some(ManifestFailure(reason))
    case TickFail(k, why, _) => k == j && r'.status == Failed && r'.error == Some(why)
    case _ => false
  }

  // Everything the closing section does besides.
  ghost predicate ClosedAt(r: Job, r': Job, now: Now) {
    && r'.terminalAt == Some(now.ms) && r'.cancelFlag && r'.summary == Some(Summarize(Values(r'.results)))
    && r'.slots == r.slots && r'.run == r.run && r'.startAt == r.startAt
  }

  ghost predicate Ends(s: World, step: Step, j: JobId) {
    && IsOpen(s.m.jobs, j) && Enabled(s, step) && j in Apply(s, step).m.jobs && Apply(s, step).m.jobs[j].status.Terminal()
  }

  // A record rewritten, announced or not.
  ghost predicate Rewritten(m: Master, m': Master, j: JobId, r: Job) { m'.jobs == m.jobs[j := r] }

  lemma ReadyRewrites(m: Master, w: WorkerId, j: JobId, failure: Option<string>, now: Now)
    ensures var m' := ReportReady(m, w, j, failure, now).0;
      || m'.jobs == m.jobs
      || (&& j in m.jobs && w in m.jobs[j].slots && !m.jobs[j].status.Terminal()
          && var t := m.jobs[j].Touch(w, now);
             match failure
             case None => Rewritten(m, m', j, t.MarkReady(w, m.cfg.startDelay, now))
             case Some(reason) =>
               Rewritten(m, m', j, if t.status.Preparing? then t.Close(Failed, Some(ReadyFailure(w, reason)), now) else t))
  {
    hide Emit, Job.Close;
    if j in m.jobs {
      var t := m.jobs[j].Touch(w, now);
      if failure.Some? { EmitJobs(m, j, t.Close(Failed, Some(ReadyFailure(w, failure.value)), now), StatusChange); }
      EmitJobs(m, j, t.MarkReady(w, m.cfg.startDelay, now), StatusChange);
    }
  }

  // The record a result leaves.
  ghost function AfterResult(r: Job, w: WorkerId, result: WorkerResult, now: Now): Job {
    var a := r.AddResult(w, result, now);
    if w in r.results then r.Touch(w, now)
    else if r.status.Cancelled? then a
    else if !result.success then a.Close(Failed, Some(r.FailureOf(w, result)), now)
    else if |a.results| == |a.run| then a.Close(Completed, a.error, now)
    else a
  }

  lemma ResultRewrites(m: Master, w: WorkerId, j: JobId, result: WorkerResult, now: Now)
    ensures var m' := ReportResult(m, w, j, result, now).0;
      if j !in m.jobs || w !in m.jobs[j].run || !(m.jobs[j].status.Running? || m.jobs[j].status.Cancelled?) then m' == m
      else Rewritten(m, m', j, AfterResult(m.jobs[j], w, result, now))
  {
    hide Emit, Job.Close;
    if j in m.jobs {
      var r := m.jobs[j];
      var a := r.AddResult(w, result, now);
      EmitJobs(m, j, a.Close(Failed, Some(r.FailureOf(w, result)), now), StatusChange);
      EmitJobs(m, j, a.Close(Completed, a.error, now), StatusChange);
    }
  }

  lemma ReadyEnds(s: World, step: Step, j: JobId)
    requires Inv(s) && step.Ready? && Ends(s, step, j)
    ensures EndsBy(step, j, s.m.jobs[j], Apply(s, step).m.jobs[j]) && ClosedAt(s.m.jobs[j], Apply(s, step).m.jobs[j], step.now)
  {
    hide Inv, ReportReady, Summarize, Values;
    KnownJob(s, j);
    assert Apply(s, step).m == ReportReady(s.m, step.worker, step.job, step.failure, step.now).0;
    ReadyRewrites(s.m, step.worker, step.job, step.failure, step.now);
    hide Apply;
  }

  lemma ResultEnds(s: World, step: Step, j: JobId)
    requires Inv(s) && step.Result? && Ends(s, step, j)
    ensures EndsBy(step, j, s.m.jobs[j], Apply(s, step).m.jobs[j]) && ClosedAt(s.m.jobs[j], Apply(s, step).m.jobs[j], step.now)
  {
    hide Inv, ReportResult, Summarize, Values;
    KnownJob(s, j);
    assert Apply(s, step).m == ReportResult(s.m, step.worker, step.job, step.result, step.now).0;
    ResultRewrites(s.m, step.worker, step.job, step.result, step.now);
    hide Apply;
    if step.job == j && step.worker in s.m.jobs[j].run && s.m.jobs[j].status.Running? && step.worker !in s.m.jobs[j].results {
      AddResultInv(s.m.jobs[j], step.worker, step.result, step.now);
    }
  }

  lemma AbortEnds(s: World, step: Step, j: JobId)
    requires Inv(s) && (step.Delete? || step.ManifestFails? || step.TickFail?) && Ends(s, step, j)
    ensures EndsBy(step, j, s.m.jobs[j], Apply(s, step).m.jobs[j]) && ClosedAt(s.m.jobs[j], Apply(s, step).m.jobs[j], step.now)
  {
    hide Inv, Summarize, Values, Emit, TickFails;
    KnownJob(s, j);
    if step.job in s.m.jobs { EmitJobs(s.m, step.job, Aborted(s.m.jobs[step.job], step), StatusChange); }
    hide Enabled;
  }

  lemma QuietStays(s: World, step: Step, j: JobId)
    requires Inv(s) && Enabled(s, step) && IsOpen(s.m.jobs, j) && j in Apply(s, step).m.jobs
    requires step.Create? || step.Enqueue? || step.Remove? || step.Proceed? || step.Unbind?
    ensures !Apply(s, step).m.jobs[j].status.Terminal()
  {
    hide Inv, Apply;
    StepFollows(s, step, j);
    FreshJobs(s);
    SameRecord(s, step, j);
  }

  lemma FreshJobs(s: World)
    requires Inv(s)
    ensures s.m.jobs.Keys <= s.issued
  {
    hide JobInv, QueueInv, StreamInv, FlightInv;
  }

  lemma FetchStays(s: World, step: Step, j: JobId)
    requires Inv(s) && step.Fetch? && Enabled(s, step) && IsOpen(s.m.jobs, j) && j in Apply(s, step).m.jobs
    ensures !Apply(s, step).m.jobs[j].status.Terminal()
  {
    hide Inv, FetchJob;
    var w, now := step.worker, step.now;
    assert Apply(s, step).m == FetchJob(s.m, w, now).0;
    if Replays(s.m, w) {
      ReplayTouches(s.m, w, now);
    } else {
      var i := FetchEffect(s, w, now);
      if i < |s.m.queue| {
        KnownJob(s, s.m.queue[i]);
        TakeSlotInv(s.m.jobs[s.m.queue[i]], w, now);
      }
    }
    hide Apply;
  }

  lemma ReplayTouches(m: Master, w: WorkerId, now: Now)
    requires Replays(m, w)
    ensures FetchJob(m, w, now).0.jobs == m.jobs[m.active[w] := m.jobs[m.active[w]].Touch(w, now)]
  {}

  lemma OtherStays(s: World, step: Step, j: JobId)
    requires Inv(s) && Enabled(s, step) && IsOpen(s.m.jobs, j) && j in Apply(s, step).m.jobs
    requires step.Report? || step.Batch? || Plain(step)
    ensures !Apply(s, step).m.jobs[j].status.Terminal()
  {
    hide Inv;
    if step.Report? {
      ReportTouches(s.m, step.worker, step.job, step.progress, step.now);
      hide ReportProgress;
    } else if step.Batch? {
      hide Emit;
    } else {
      PlainTame(s, step);
      hide Apply;
    }
  }

  lemma ReportTouches(m: Master, w: WorkerId, j: JobId, p: Progress, now: Now)
    ensures var m' := ReportProgress(m, w, j, p, now).0;
      forall k | k in m.jobs :: k in m'.jobs && m'.jobs[k].status == m.jobs[k].status
  {
    if j in m.jobs {
      EmitJobs(m, j, m.jobs[j].Touch(w, now).(progress := m.jobs[j].progress[w := SanitizeProgress(p)]), ProgressEvent);
    }
    hide Emit;
  }

  /**
   A job ends for a reason that its record states, at the moment the master handles it, and
   with the summary of the results it then has.
   */
  lemma EveryEndHasItsReason(cfg: Config, run: Run, i: nat, j: JobId)
    requires IsRun(cfg, run) && i < |run.steps| && IsOpen(run.states[i].m.jobs, j)
    requires j in run.states[i + 1].m.jobs && run.states[i + 1].m.jobs[j].status.Terminal()
    ensures var r, r' := run.states[i].m.jobs[j], run.states[i + 1].m.jobs[j];
      EndsBy(run.steps[i], j, r, r') && ClosedAt(r, r', run.steps[i].now)
  {
    StepAt(cfg, run, i);
    AlwaysInv(cfg, run, i);
    var s, step := run.states[i], run.steps[i];
    assert Ends(s, step, j);
    hide IsRun, Inv, Apply, Enabled, Ends, EndsBy, ClosedAt;
    if step.Ready? {
      ReadyEnds(s, step, j);
    } else if step.Result? {
      ResultEnds(s, step, j);
    } else if step.Delete? || step.ManifestFails? || step.TickFail? {
      AbortEnds(s, step, j);
    } else if step.Fetch? {
      FetchStays(s, step, j);
    } else if step.Report? || step.Batch? || Plain(step) {
      OtherStays(s, step, j);
    } else {
      QuietStays(s, step, j);
    }
  }

  // ------------------------------------------------------------------- beginnings

  /** A new job is PENDING, empty, stamped, and wants as many workers as asked for, but at least one. */
  lemma CreatedAsAsked(cfg: Config, run: Run, i: nat, j: JobId, raw: int, manifest: bool, now: Now)
    requires IsRun(cfg, run) && i < |run.steps| == |run.states| - 1 && run.steps[i] == Create(j, raw, manifest, now)
    ensures j !in run.states[i].m.jobs && j in run.states[i + 1].m.jobs
    ensures var r := run.states[i + 1].m.jobs[j];
      && r.status == Pending && r.target == (if raw <= 1 then 1 else raw) && r.created == now.ms
      && r.slots == map[] && r.run == {} && r.ready == {} && r.startAt == 0
      && r.results == map[] && r.progress == map[] && r.lastSeen == map[]
      && r.error == None && r.summary == None && r.terminalAt == None && r.preparingSince == None
      && r.hasManifest == manifest && !r.manifestStarted && !r.cancelFlag
  {
    StepAt(cfg, run, i);
    AlwaysInv(cfg, run, i);
    hide IsRun, Inv, Emit;
    FreshId(run.states[i], run.steps[i]);
    EmitJobs(run.states[i].m, j, NewJob(raw, manifest, now), StatusChange);
  }

  // Step `i` fills the crew of the job.
  ghost predicate Fills(run: Run, i: nat, j: JobId) {
    && i < |run.steps| == |run.states| - 1
    && j in run.states[i].m.jobs && run.states[i].m.jobs[j].status == Pending
    && j in run.states[i + 1].m.jobs && run.states[i + 1].m.jobs[j].status == Preparing
  }

  /**
   A job gets ready to start when, and only when, a FetchJob takes its last slot: the crew is
   frozen, the clock of the preparation starts, and so does the manifest, if there is one.
   */
  lemma LastSlotFillsTheCrew(cfg: Config, run: Run, i: nat, j: JobId)
    requires IsRun(cfg, run) && Fills(run, i, j)
    ensures run.steps[i].Fetch?
    ensures var r, r' := run.states[i].m.jobs[j], run.states[i + 1].m.jobs[j]; var w := run.steps[i].worker;
      && w !in r.slots && r'.slots == r.slots[w := |r.slots|] && |r'.slots| == r'.target && r'.run == r'.slots.Keys
      && r'.preparingSince == Some(run.steps[i].now.instant)
      && (r'.manifestStarted <==> r'.hasManifest)
  {
    hide *;
    FillsIs(run, i, j);
    StepAt(cfg, run, i);
    AlwaysInv(cfg, run, i);
    AlwaysInv(cfg, run, i + 1);
    FillingStep(run.states[i], run.steps[i], j);
  }

  lemma FillsIs(run: Run, i: nat, j: JobId)
    requires Fills(run, i, j)
    ensures i < |run.steps| == |run.states| - 1
    ensures j in run.states[i].m.jobs && run.states[i].m.jobs[j].status == Pending
    ensures j in run.states[i + 1].m.jobs && run.states[i + 1].m.jobs[j].status == Preparing
  {}

  lemma FillingStep(s: World, step: Step, j: JobId)
    requires Inv(s) && Enabled(s, step) && Inv(Apply(s, step))
    requires j in s.m.jobs && s.m.jobs[j].status == Pending
    requires j in Apply(s, step).m.jobs && Apply(s, step).m.jobs[j].status == Preparing
    ensures step.Fetch?
    ensures var r, r' := s.m.jobs[j], Apply(s, step).m.jobs[j]; var w := step.worker;
      && w !in r.slots && r'.slots == r.slots[w := |r.slots|] && |r'.slots| == r'.target && r'.run == r'.slots.Keys
      && r'.preparingSince == Some(step.now.instant) && (r'.manifestStarted <==> r'.hasManifest)
  {
    hide Inv, FetchJob, Enabled;
    KnownJob(s, j);
    KnownJob(Apply(s, step), j);
    if step.Fetch? {
      assert Apply(s, step).m == FetchJob(s.m, step.worker, step.now).0;
      hide Apply;
      if Replays(s.m, step.worker) {
        ReplayTouches(s.m, step.worker, step.now);
      } else {
        var i := FetchEffect(s, step.worker, step.now);
        TakeSlotInv(s.m.jobs[j], step.worker, step.now);
      }
    } else {
      hide Apply;
      StepFollows(s, step, j);
    }
  }

  lemma NoJobsAtFirst(cfg: Config, run: Run)
    requires IsRun(cfg, run)
    ensures run.states[0].m.jobs == map[]
  {
    hide Enabled, Apply;
  }

  // Since when a PREPARING job has been waiting for its crew.
  lemma {:induction false} PreparingSince(cfg: Config, run: Run, i: nat, j: JobId) returns (k: nat)
    requires IsRun(cfg, run) && i < |run.states| && j in run.states[i].m.jobs && run.states[i].m.jobs[j].status == Preparing
    ensures k < i && k < |run.steps| && run.steps[k].Fetch? && Fills(run, k, j)
    ensures run.states[i].m.jobs[j].preparingSince == Some(run.steps[k].now.instant)
  {
    hide *;
    NoJobsAtFirst(cfg, run);
    assert i > 0;
    StepAt(cfg, run, i - 1);
    AlwaysInv(cfg, run, i - 1);
    if j in run.states[i - 1].m.jobs && run.states[i - 1].m.jobs[j].status != Pending {
      StillPreparing(run.states[i - 1], run.steps[i - 1], j);
      k := PreparingSince(cfg, run, i - 1, j);
    } else {
      if j !in run.states[i - 1].m.jobs { NewIsPending(run.states[i - 1], run.steps[i - 1], j); }
      k := i - 1;
      IsFilling(run, k, j);
      LastSlotFillsTheCrew(cfg, run, k, j);
    }
  }

  lemma IsFilling(run: Run, i: nat, j: JobId)
    requires i + 1 < |run.states| == |run.steps| + 1
    requires j in run.states[i].m.jobs && run.states[i].m.jobs[j].status == Pending
    requires j in run.states[i + 1].m.jobs && run.states[i + 1].m.jobs[j].status == Preparing
    ensures Fills(run, i, j)
  {}

  lemma StillPreparing(s: World, step: Step, j: JobId)
    requires Inv(s) && Enabled(s, step) && j in s.m.jobs && s.m.jobs[j].status != Pending
    requires j in Apply(s, step).m.jobs && Apply(s, step).m.jobs[j].status == Preparing
    ensures s.m.jobs[j].status == Preparing && s.m.jobs[j].preparingSince == Apply(s, step).m.jobs[j].preparingSince
  {
    hide Inv, Enabled, Apply;
    StepFollows(s, step, j);
  }

  lemma NewIsPending(s: World, step: Step, j: JobId)
    requires Inv(s) && Enabled(s, step) && j !in s.m.jobs && j in Apply(s, step).m.jobs
    ensures Apply(s, step).m.jobs[j].status == Pending
  {
    Watching.OnlyCreateAdds(s, step, j);
    hide Inv, Emit;
    EmitJobs(s.m, step.job, NewJob(step.raw, step.manifest, step.now), StatusChange);
    hide Enabled;
  }

  /**
   A job timed out in its preparation has been waiting for longer than that since its crew was
   full, and not because one of them fell silent.
   */
  lemma TimeoutMeansLate(cfg: Config, run: Run, i: nat, j: JobId, now: Now) returns (k: nat)
    requires IsRun(cfg, run) && i < |run.steps| == |run.states| - 1 && run.steps[i] == TickFail(j, PrepareTimeout, now)
    ensures k < i && Fills(run, k, j) && run.steps[k].Fetch?
    ensures now.instant - run.steps[k].now.instant > run.states[i].m.cfg.prepareTimeout
    ensures j in run.states[i].m.jobs
    ensures var r := run.states[i].m.jobs[j];
      forall w | w in r.run && w in r.lastSeen :: now.instant - r.lastSeen[w] <= run.states[i].m.cfg.staleness
  {
    StepAt(cfg, run, i);
    var r, cfg0 := run.states[i].m.jobs[j], run.states[i].m.cfg;
    assert r.Overdue(cfg0.prepareTimeout, now);
    forall w | w in r.run && w in r.lastSeen ensures now.instant - r.lastSeen[w] <= cfg0.staleness {
      assert !r.StaleIn(w, cfg0.staleness, now);
    }
    hide IsRun, Apply, Fills;
    k := PreparingSince(cfg, run, i, j);
  }
}
