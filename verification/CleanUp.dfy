/**
 What is left of a job after the requests about it have run all their sections: no binding
 of its crew, no entry of a deleted job in the queue (crates/cvd-master/src/service/cli_rpc.rs:
 207-221, worker_rpc.rs:305-318, scheduler/staleness.rs:104-118).
 */
module CleanUp {
  import opened Types
  import opened Aggregation
  import opened Jobs
  import opened MasterState
  import opened Interleaving
  import opened Effects
  import opened Runs
  import Endings
  import Safety
  import QueueProofs

  ghost predicate BoundTo(m: Master, w: WorkerId, j: JobId) { w in m.active && m.active[w] == j }

  // A section still to run will drop the binding of `w` to `j`.
  ghost predicate ToBeUnbound(s: World, w: WorkerId, j: JobId) {
    (j, w) in s.clears || (j in s.closing && exists k: nat :: k < |s.closing[j]| && Clears(s.closing[j][k], w))
  }

  ghost predicate Clears(section: Section, w: WorkerId) { section.ClearBindings? && w in section.crew }

  // The job hands out no more slots, and if `w` is bound to it, not for long.
  ghost predicate Loosening(s: World, w: WorkerId, j: JobId) {
    j in s.issued && !IsPending(s.m.jobs, j) && (BoundTo(s.m, w, j) ==> ToBeUnbound(s, w, j))
  }

  lemma LooseningStays(s: World, step: Step, w: WorkerId, j: JobId)
    requires Inv(s) && Enabled(s, step) && Loosening(s, w, j)
    ensures Loosening(Apply(s, step), w, j)
  {
    hide Inv, Enabled, Apply, ToBeUnbound;
    var s' := Apply(s, step);
    IssuedStays(s, step);
    if IsPending(s'.m.jobs, j) { StillPending(s, step, j); }
    if BoundTo(s'.m, w, j) {
      BoundBefore(s, step, w, j);
      StillToBeUnbound(s, step, w, j);
    }
  }

  lemma BoundBefore(s: World, step: Step, w: WorkerId, j: JobId)
    requires Inv(s) && Enabled(s, step) && !IsPending(s.m.jobs, j) && BoundTo(Apply(s, step).m, w, j)
    ensures BoundTo(s.m, w, j)
    ensures step.Unbind? ==> !(step.job == j && step.worker == w)
    ensures step.Proceed? && step.job == j ==> !Clears(s.closing[j][0], w)
  {
    hide Inv, Emit, FetchJob, ReportReady, ReportProgress, FetchFileBatch, ReportResult, DeleteJob, FailManifest, FailStale,
      TickFails;
    if step.Fetch? {
      if Replays(s.m, step.worker) { ReplayBinds(s.m, step.worker, step.now); }
      else { var i := FetchEffect(s, step.worker, step.now); }
    } else if step.Create? {
      EmitJobs(s.m, step.job, NewJob(step.raw, step.manifest, step.now), StatusChange);
    } else if !(step.Proceed? || step.Unbind? || step.Remove? || step.Enqueue?) {
      OtherTame(s, step);
      hide Apply;
      var k :| Tame(s, Apply(s, step), k);
    }
  }

  lemma ReplayBinds(m: Master, w: WorkerId, now: Now)
    requires Replays(m, w)
    ensures FetchJob(m, w, now).0.active == m.active
  {}

  // The sections a step leaves to run.
  lemma SectionsLeft(s: World, step: Step, j: JobId)
    requires Enabled(s, step)
    ensures var s' := Apply(s, step);
      && (step.Unbind? || s.clears <= s'.clears)
      && (step.Unbind? ==> s'.clears == s.clears - multiset{(step.job, step.worker)} && s'.closing == s.closing)
      && (step.Proceed? && step.job == j ==> j in s'.closing && s'.closing[j] == s.closing[j][1..])
      && (!(step.Proceed? && step.job == j) && j in s.closing && !IsOpen(s.m.jobs, j) ==>
            j in s'.closing && s'.closing[j] == s.closing[j])
  {
    hide Emit, FetchJob, ReportProgress, FetchFileBatch, CreateRecord, RunSection, ClearActive, GcRemove, GcCollect, WatchJob,
      TakeEvent, DropClient, PushBack, Job.Close, Job.MarkReady, Job.AddResult;
  }

  lemma StillToBeUnbound(s: World, step: Step, w: WorkerId, j: JobId)
    requires Inv(s) && Enabled(s, step) && ToBeUnbound(s, w, j)
    requires step.Unbind? ==> !(step.job == j && step.worker == w)
    requires step.Proceed? && step.job == j ==> !Clears(s.closing[j][0], w)
    ensures ToBeUnbound(Apply(s, step), w, j)
  {
    hide Inv, Enabled, Apply, Clears;
    SectionsLeft(s, step, j);
    var s' := Apply(s, step);
    if (j, w) in s.clears {
      assert (j, w) in s'.clears;
    } else {
      var k: nat :| k < |s.closing[j]| && Clears(s.closing[j][k], w);
      Safety.ClosingIsOver(s, j);
      if step.Proceed? && step.job == j {
        assert k > 0 && s'.closing[j][k - 1] == s.closing[j][k];
      } else {
        assert s'.closing[j] == s.closing[j];
      }
    }
  }

  lemma {:induction false} LooseningAlong(cfg: Config, run: Run, i: nat, k: nat, w: WorkerId, j: JobId)
    requires IsRun(cfg, run) && i <= k < |run.states| && Loosening(run.states[i], w, j)
    ensures Loosening(run.states[k], w, j)
  {
    hide *;
    if i < k {
      StepAt(cfg, run, k - 1);
      LooseningAlong(cfg, run, i, k - 1, w, j);
      AlwaysInv(cfg, run, k - 1);
      LooseningStays(run.states[k - 1], run.steps[k - 1], w, j);
    }
  }

  // No section that has yet to run would drop the binding.
  ghost predicate NothingLeft(s: World, w: WorkerId, j: JobId) {
    (j, w) !in s.clears && (j in s.closing ==> forall k: nat | k < |s.closing[j]| :: !Clears(s.closing[j][k], w))
  }

  lemma Loosened(s: World, w: WorkerId, j: JobId)
    requires Loosening(s, w, j) && NothingLeft(s, w, j)
    ensures !BoundTo(s.m, w, j)
  {}

  // ------------------------------------------------------------ what an end leaves to do

  lemma DeleteUnbinds(s: World, j: JobId, now: Now, w: WorkerId)
    requires IsOpen(s.m.jobs, j) && w in s.m.jobs[j].slots
    ensures ToBeUnbound(Apply(s, Delete(j, now)), w, j)
  {
    hide CloseJob, Job.Close;
    var s' := Apply(s, Delete(j, now));
    var crew := s.m.jobs[j].slots.Keys;
    assert crew != {};
    assert s'.closing[j] == AfterDelete(crew, IsPending(s.m.jobs, j));
    assert Clears(s'.closing[j][|s'.closing[j]| - 1], w);
  }

  lemma FailureUnbinds(s: World, step: Step, j: JobId, w: WorkerId)
    requires Enabled(s, step) && IsOpen(s.m.jobs, j) && w in s.m.jobs[j].slots
    requires || (step.Ready? && step.job == j && step.failure.Some? && s.m.jobs[j].status.Preparing? && step.worker in s.m.jobs[j].slots)
             || (step.ManifestFails? && step.job == j) || (step.TickFail? && step.job == j)
    ensures ToBeUnbound(Apply(s, step), w, j)
  {
    hide CloseJob, Job.Close, TickFails;
    var s' := Apply(s, step);
    assert s'.closing[j] == [ClearBindings(s.m.jobs[j].slots.Keys), Finalize];
    assert Clears(s'.closing[j][0], w);
  }

  lemma ResultUnbinds(s: World, w: WorkerId, j: JobId, result: WorkerResult, now: Now)
    ensures ToBeUnbound(Apply(s, Result(w, j, result, now)), w, j)
  {
    hide CloseJob, Job.Close, Job.AddResult;
    var s' := Apply(s, Result(w, j, result, now));
    var c := ReportResult(s.m, w, j, result, now).2;
    if c.Closes? {
      ResultCloses(s.m, w, j, result, now);
      assert s'.closing[j] == [Finalize, ClearBindings({w})];
      assert Clears(s'.closing[j][1], w);
    } else {
      assert (j, w) in s'.clears;
    }
  }

  lemma ResultCloses(m: Master, w: WorkerId, j: JobId, result: WorkerResult, now: Now)
    ensures var c := ReportResult(m, w, j, result, now).2; c.Closes? ==> c.job == j
  {
    hide CloseJob, Job.Close, Job.AddResult;
  }

  /**
   A job that is cancelled or fails lets its crew go: once the sections its end left have run,
   none of its workers is bound to it, and none will be again.
   */
  lemma EndedJobLetsGo(cfg: Config, run: Run, i: nat, k: nat, w: WorkerId, j: JobId)
    requires IsRun(cfg, run) && i < k < |run.states| == |run.steps| + 1
    requires IsOpen(run.states[i].m.jobs, j) && w in run.states[i].m.jobs[j].slots
    requires j in run.states[i + 1].m.jobs && run.states[i + 1].m.jobs[j].status.Terminal() && !run.steps[i].Result?
    requires NothingLeft(run.states[k], w, j)
    ensures !BoundTo(run.states[k].m, w, j)
  {
    Endings.EveryEndHasItsReason(cfg, run, i, j);
    StepAt(cfg, run, i);
    AlwaysInv(cfg, run, i);
    KnownJob(run.states[i], j);
    IssuedStays(run.states[i], run.steps[i]);
    hide IsRun, Inv, Apply, JobInv, Loosening, NothingLeft, ToBeUnbound, BoundTo;
    if run.steps[i].Delete? {
      DeleteUnbinds(run.states[i], j, run.steps[i].now, w);
    } else {
      FailureUnbinds(run.states[i], run.steps[i], j, w);
    }
    hide Enabled;
    IsLoosening(run.states[i + 1], w, j);
    LooseningAlong(cfg, run, i + 1, k, w, j);
    Loosened(run.states[k], w, j);
  }

  lemma IsLoosening(s: World, w: WorkerId, j: JobId)
    requires j in s.issued && !IsPending(s.m.jobs, j) && ToBeUnbound(s, w, j)
    ensures Loosening(s, w, j)
  {}

  /** So does a worker's result for a job that hands out no more slots. */
  lemma ResultLetsGo(cfg: Config, run: Run, i: nat, k: nat, w: WorkerId, j: JobId, result: WorkerResult, now: Now)
    requires IsRun(cfg, run) && i < k < |run.states| == |run.steps| + 1 && run.steps[i] == Result(w, j, result, now)
    requires j in run.states[i].issued && !IsPending(run.states[i].m.jobs, j)
    requires NothingLeft(run.states[k], w, j)
    ensures !BoundTo(run.states[k].m, w, j)
  {
    hide *;
    StepAt(cfg, run, i);
    AlwaysInv(cfg, run, i);
    IssuedStays(run.states[i], run.steps[i]);
    ResultUnbinds(run.states[i], w, j, result, now);
    NotPendingAgain(run.states[i], run.steps[i], j);
    IsLoosening(run.states[i + 1], w, j);
    LooseningAlong(cfg, run, i + 1, k, w, j);
    Loosened(run.states[k], w, j);
  }

  lemma NotPendingAgain(s: World, step: Step, j: JobId)
    requires Inv(s) && Enabled(s, step) && j in s.issued && !IsPending(s.m.jobs, j)
    ensures !IsPending(Apply(s, step).m.jobs, j)
  {
    hide Inv, Enabled, Apply;
    if IsPending(Apply(s, step).m.jobs, j) { StillPending(s, step, j); }
  }

  // ------------------------------------------------------------------- the queue

  ghost predicate Leaving(s: World, j: JobId) {
    && j in s.issued && !IsPending(s.m.jobs, j) && j !in s.creating
    && (j in s.m.queue ==> j in s.closing && RemovePending in s.closing[j])
  }

  lemma LeavingStays(s: World, step: Step, j: JobId)
    requires Inv(s) && Enabled(s, step) && Leaving(s, j)
    ensures Leaving(Apply(s, step), j)
  {
    hide Inv, Enabled, Apply;
    var s' := Apply(s, step);
    IssuedStays(s, step);
    NotPendingAgain(s, step, j);
    CreatingShrinks(s, step, j);
    if j in s'.m.queue {
      QueuedBefore(s, step, j);
      SectionsLeft(s, step, j);
      Safety.ClosingIsOver(s, j);
      if step.Proceed? && step.job == j {
        assert s.closing[j] == [s.closing[j][0]] + s.closing[j][1..];
      }
    }
  }

  lemma CreatingShrinks(s: World, step: Step, j: JobId)
    requires Enabled(s, step) && j in s.issued && j !in s.creating
    ensures j !in Apply(s, step).creating
  {
    hide Emit, FetchJob, ReportReady, ReportProgress, FetchFileBatch, ReportResult, DeleteJob, FailManifest, FailStale,
      CreateRecord, RunSection, TickFails, GcCollect, GcRemove, WatchJob, TakeEvent, DropClient, PushBack, ClearActive;
  }

  lemma QueuedBefore(s: World, step: Step, j: JobId)
    requires Inv(s) && Enabled(s, step) && j !in s.creating && j in Apply(s, step).m.queue && !IsPending(s.m.jobs, j)
    ensures j in s.m.queue
    ensures step.Proceed? && step.job == j ==> !s.closing[j][0].RemovePending?
  {
    hide Emit, FetchJob, ReportReady, ReportProgress, FetchFileBatch, ReportResult, DeleteJob, FailManifest, FailStale,
      TickFails, Inv;
    if step.Fetch? {
      if Replays(s.m, step.worker) { ReplayQueues(s.m, step.worker, step.now); }
      else { var i := FetchEffect(s, step.worker, step.now); }
    } else if step.Create? {
      EmitJobs(s.m, step.job, NewJob(step.raw, step.manifest, step.now), StatusChange);
    } else if step.Proceed? {
      QueuedOnce(s, step.job, j);
    } else if !(step.Unbind? || step.Remove? || step.Enqueue?) {
      OtherTame(s, step);
      hide Apply;
      var k :| Tame(s, Apply(s, step), k);
    }
  }

  lemma ReplayQueues(m: Master, w: WorkerId, now: Now)
    requires Replays(m, w)
    ensures FetchJob(m, w, now).0.queue == m.queue
  {}

  lemma QueuedOnce(s: World, k: JobId, j: JobId)
    requires Inv(s)
    ensures j in RemoveFirst(s.m.queue, k) ==> j in s.m.queue && j != k
  {
    hide JobsInv, StreamInv, FlightInv, JobInv;
    var i := QueueProofs.RemoveFirstIs(s.m.queue, k);
  }

  lemma {:induction false} LeavingAlong(cfg: Config, run: Run, i: nat, k: nat, j: JobId)
    requires IsRun(cfg, run) && i <= k < |run.states| && Leaving(run.states[i], j)
    ensures Leaving(run.states[k], j)
  {
    hide *;
    if i < k {
      StepAt(cfg, run, k - 1);
      LeavingAlong(cfg, run, i, k - 1, j);
      AlwaysInv(cfg, run, k - 1);
      LeavingStays(run.states[k - 1], run.steps[k - 1], j);
    }
  }

  lemma DeleteLeaves(s: World, j: JobId, now: Now)
    requires Inv(s) && IsPending(s.m.jobs, j) && j in s.m.queue
    ensures Leaving(Apply(s, Delete(j, now)), j)
  {
    var s' := Apply(s, Delete(j, now));
    var r' := s.m.jobs[j].Close(Cancelled, s.m.jobs[j].error, now);
    QueuedIsMade(s, j);
    EmitJobs(s.m, j, r', StatusChange);
    hide Inv, Emit;
    assert RemovePending in s'.closing[j];
  }

  lemma QueuedIsMade(s: World, j: JobId)
    requires Inv(s) && j in s.m.queue
    ensures j !in s.creating && j in s.issued
  {
    hide JobsInv, StreamInv, FlightInv;
  }

  /** A queued job that is deleted leaves the queue: once the sections of that request have run, it is gone from it for good. */
  lemma DeletedJobLeavesTheQueue(cfg: Config, run: Run, i: nat, k: nat, j: JobId, now: Now)
    requires IsRun(cfg, run) && i < k < |run.states| == |run.steps| + 1 && run.steps[i] == Delete(j, now)
    requires IsPending(run.states[i].m.jobs, j) && j in run.states[i].m.queue
    requires j in run.states[k].closing ==> RemovePending !in run.states[k].closing[j]
    ensures j !in run.states[k].m.queue
  {
    StepAt(cfg, run, i);
    AlwaysInv(cfg, run, i);
    hide IsRun, Inv, Apply, Enabled, Leaving;
    DeleteLeaves(run.states[i], j, now);
    LeavingAlong(cfg, run, i + 1, k, j);
    HasLeft(run.states[k], j);
  }

  lemma HasLeft(s: World, j: JobId)
    requires Leaving(s, j) && (j in s.closing ==> RemovePending !in s.closing[j])
    ensures j !in s.m.queue
  {}
}
