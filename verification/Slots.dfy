/**
 Worker slots.  These promises need workers that follow their life cycle
 (crates/cvd-worker/src/lifecycle.rs): one that was told to shut down fetches no
 more, and a result is sent only for a granted job, after its start time or its
 end was announced, or because of a shutdown.
 */
module Slots {
  import opened Types
  import opened Aggregation
  import opened Jobs
  import opened MasterState
  import opened Interleaving
  import opened Effects
  import opened Runs

  /** What a worker that follows its life cycle may send in state `s`. */
  ghost predicate Disciplined(s: World, step: Step) {
    match step
    case Fetch(w, _) => w !in s.down
    case Ready(w, j, _, _) => (w, j) in s.granted
    case Report(w, j, _, _) => (w, j) in s.granted
    case Batch(w, j, _) => (w, j) in s.granted
    case Result(w, j, _, _) => (w, j) in s.granted && ((w, j) in s.told || w in s.down)
    case _ => true
  }

  ghost predicate HasIndex(slots: map<WorkerId, int>, i: int) { exists w :: w in slots && slots[w] == i }

  // Indices are exactly 0..n-1, one worker each.
  ghost predicate Dense(slots: map<WorkerId, int>) {
    && (forall w | w in slots :: 0 <= slots[w] < |slots|)
    && (forall v, w | v in slots && w in slots && v != w :: slots[v] != slots[w])
    && (forall i | 0 <= i < |slots| :: HasIndex(slots, i))
  }

  ghost predicate Owes(s: World, w: WorkerId, j: JobId) {
    IsOpen(s.m.jobs, j) && w in s.m.jobs[j].slots && w !in s.m.jobs[j].results && w !in s.down
  }

  // Nothing is expected of `w` for `j` any more, and never will be again.
  ghost predicate Settled(s: World, w: WorkerId, j: JobId) {
    j in s.issued && !Owes(s, w, j) && (w in s.down || !IsOpen(s.m.jobs, j) || w in s.m.jobs[j].results)
  }

  ghost predicate Bound(s: World, w: WorkerId, j: JobId) { w in s.m.active && s.m.active[w] == j }

  ghost predicate SlotInv(s: World) {
    && (forall j | j in s.m.jobs :: Dense(s.m.jobs[j].slots))
    && (forall w, j | Owes(s, w, j) :: Bound(s, w, j))
    && (forall j, w | (j, w) in s.clears :: Settled(s, w, j))
    && (forall w, j | (w, j) in s.granted :: j in s.issued && (j in s.m.jobs ==> w in s.m.jobs[j].slots))
    && (forall w, j | (w, j) in s.told :: j in s.issued
          && (j in s.m.jobs ==> !s.m.jobs[j].status.Pending? && !s.m.jobs[j].status.Preparing?))
  }

  // ------------------------------------------------------------ handing out a slot

  /**
   A new index keeps the numbering dense exactly when the worker has no slot of
   the job yet.  `try_assign` does not look, so it relies on its caller.
   */
  lemma AssignKeepsDenseIff(r: Job, w: WorkerId, now: Now)
    requires Dense(r.slots)
    ensures Dense(r.Assign(w, now).slots) <==> w !in r.slots
  {
    NextIndexDense(r.slots, w);
  }

  lemma NextIndexDense(slots: map<WorkerId, int>, w: WorkerId)
    requires Dense(slots)
    ensures Dense(slots[w := |slots|]) <==> w !in slots
  {
    var next := slots[w := |slots|];
    assert next.Keys == slots.Keys + {w} && |next| == |next.Keys| && |slots| == |slots.Keys|;
    if w in slots {
      assert next.Keys == slots.Keys;
      assert next[w] == |next|;
    } else {
      assert |next| == |slots| + 1;
      assert HasIndex(next, |slots|) by { assert next[w] == |slots|; }
      forall i | 0 <= i < |slots| ensures HasIndex(next, i) {
        assert HasIndex(slots, i);
        var v :| v in slots && slots[v] == i;
        assert next[v] == i;
      }
    }
  }

  ghost function Last(run: Run): World
    requires run.states != []
  {
    run.states[|run.states| - 1]
  }

  lemma Extend(cfg: Config, run: Run, step: Step) returns (run': Run)
    requires IsRun(cfg, run) && run.states != [] && Enabled(Last(run), step)
    ensures IsRun(cfg, run') && run'.states != [] && Last(run') == Apply(Last(run), step)
  {
    hide Enabled, Apply;
    run' := Run(run.states + [Apply(Last(run), step)], run.steps + [step]);
    forall i | 0 <= i < |run'.steps|
      ensures Enabled(run'.states[i], run'.steps[i]) && run'.states[i + 1] == Apply(run'.states[i], run'.steps[i])
    {
      if i < |run.steps| { assert run'.states[i + 1] == run.states[i + 1]; }
    }
  }

  // Job 7, for two workers, has been created and queued, and worker 1 has index 0 of it.
  ghost predicate OneWorker(s: World, r: Job) {
    s.m.queue == [7] && s.m.active == map[1 := 7] && 7 in s.m.jobs && s.m.jobs[7] == r
  }

  lemma FirstSlot(cfg: Config, now: Now) returns (run: Run)
    ensures IsRun(cfg, run) && run.states != []
    ensures OneWorker(Last(run), NewJob(2, false, now).Assign(1, now))
  {
    run := Run([Start(cfg)], []);
    assert IsRun(cfg, run);
    hide CreateRecord, FetchJob, IsRun, Job.Assign;
    run := Extend(cfg, run, Create(7, 2, false, now));
    CreateSets(Start(cfg).m, 7, 2, false, now);
    run := Extend(cfg, run, Enqueue(7));
    var m2 := Last(run).m;
    FetchOne(m2, NewJob(2, false, now), now);
    run := Extend(cfg, run, Fetch(1, now));
    assert Last(run).m == FetchJob(m2, 1, now).0;
  }

  /**
   The discipline is needed: if worker 1 sends a result for job 7 while that is
   PENDING, its binding is dropped, its second FetchJob gets a second index of the
   same job, and the job's only worker is left with index 1.
   */
  lemma UndisciplinedWorkerBreaksNumbering(cfg: Config, result: WorkerResult, now: Now) returns (run: Run)
    ensures IsRun(cfg, run) && run.states != []
    ensures 7 in Last(run).m.jobs && Last(run).m.jobs[7].slots == map[1 := 1] && !Dense(Last(run).m.jobs[7].slots)
  {
    run := EarlyResult(cfg, result, now);
    var r3 := NewJob(2, false, now).Assign(1, now);
    hide FetchJob, Dense, IsRun;
    var m5 := Last(run).m;
    FetchOne(m5, r3, now);
    run := Extend(cfg, run, Fetch(1, now));
    assert Last(run).m == FetchJob(m5, 1, now).0;
    OnlyZero();
    AssignKeepsDenseIff(r3, 1, now);
  }

  // Worker 1 has sent a result at once, and is bound to nothing.
  lemma EarlyResult(cfg: Config, result: WorkerResult, now: Now) returns (run: Run)
    ensures IsRun(cfg, run) && run.states != []
    ensures var m := Last(run).m;
      m.queue == [7] && m.active == map[] && 7 in m.jobs && m.jobs[7] == NewJob(2, false, now).Assign(1, now)
  {
    run := FirstSlot(cfg, now);
    var s3 := Last(run);
    ResultOnPending(s3.m, result, now);
    hide FetchJob, Dense, IsRun, ReportResult, Job.Assign, NewJob;
    run := Extend(cfg, run, Result(1, 7, result, now));
    run := Extend(cfg, run, Unbind(7, 1));
    assert Last(run).m.active == map[];
  }

  lemma CreateSets(m: Master, j: JobId, raw: int, manifest: bool, now: Now)
    ensures var m' := CreateRecord(m, j, raw, manifest, now);
      m'.jobs == m.jobs[j := NewJob(raw, manifest, now)] && m'.queue == m.queue && m'.active == m.active
  {
    EmitJobs(m, j, NewJob(raw, manifest, now), StatusChange);
    hide Emit;
  }

  lemma OnlyZero()
    ensures Dense(map[1 := 0])
  {
    var slots: map<WorkerId, int> := map[1 := 0];
    assert slots[1] == 0;
    assert HasIndex(slots, 0);
  }

  lemma ResultOnPending(m: Master, result: WorkerResult, now: Now)
    requires 7 in m.jobs && m.jobs[7].run == {}
    ensures ReportResult(m, 1, 7, result, now) == (m, ResultReply(true), Stays)
  {}

  // FetchJob by worker 1 when job 7, with room for two, heads the queue and nobody is bound.
  lemma FetchOne(m: Master, r: Job, now: Now)
    requires m.queue == [7] && m.active == map[] && 7 in m.jobs && m.jobs[7] == r
    requires r.status.Pending? && r.target == 2 && (r.slots == map[] || r.slots == map[1 := 0])
    ensures var m' := FetchJob(m, 1, now).0;
      && m'.queue == [7] && m'.active == map[1 := 7]
      && m'.jobs == m.jobs[7 := r.Assign(1, now)]
      && r.Assign(1, now).slots == map[1 := |r.slots|]
  {
    hide Emit;
    assert m.active - {1} == map[];
    assert r.slots[1 := |r.slots|] == map[1 := |r.slots|];
    assert |map[1 := |r.slots|]| == 1;
  }

  // ------------------------------------------------------------------ one step

  /** Nothing reopens: once settled, settled. */
  lemma SettledStays(s: World, step: Step, w: WorkerId, j: JobId)
    requires Inv(s) && Enabled(s, step) && Settled(s, w, j)
    ensures Settled(Apply(s, step), w, j)
  {
    hide Inv, Apply, Enabled;
    IssuedStays(s, step);
    DownGrows(s, step);
    if j in s.m.jobs {
      if j in Apply(s, step).m.jobs { StepFollows(s, step, j); }
    } else {
      NoReturnStep(s, step, j);
    }
  }

  lemma DownGrows(s: World, step: Step)
    requires Enabled(s, step)
    ensures s.down <= Apply(s, step).down
  {}

  // A worker owing a result owed it before, or has just been given its slot.
  lemma OwedBefore(s: World, step: Step, w: WorkerId, j: JobId)
    requires Inv(s) && Enabled(s, step) && Owes(Apply(s, step), w, j)
    requires step.Fetch? ==> j in s.m.jobs && w in s.m.jobs[j].slots
    ensures Owes(s, w, j)
  {
    DownGrows(s, step);
    if j in s.m.jobs {
      StepFollows(s, step, j);
    } else {
      NewRecord(s, step, j);
    }
    hide Inv, Apply;
  }

  // Steps that leave the bindings alone.
  lemma SameActive(s: World, step: Step)
    requires Inv(s) && Enabled(s, step) && !step.Fetch? && !step.Proceed? && !step.Unbind?
    ensures Apply(s, step).m.active == s.m.active
  {
    if step.Create? {
      EmitJobs(s.m, step.job, NewJob(step.raw, step.manifest, step.now), StatusChange);
      hide Inv, Emit;
    } else if step.Remove? || step.Enqueue? {
      hide Inv;
    } else {
      OtherTame(s, step);
      hide Inv, Apply;
      var k :| Tame(s, Apply(s, step), k);
    }
  }

  /** No cleanup, however late, takes a binding the worker still needs. */
  lemma BindingsKept(s: World, step: Step, w: WorkerId, j: JobId)
    requires Inv(s) && SlotInv(s) && Enabled(s, step) && !step.Fetch? && Owes(Apply(s, step), w, j)
    ensures Bound(Apply(s, step), w, j)
  {
    OwedBefore(s, step, w, j);
    assert Bound(s, w, j);
    if step.Proceed? {
      assert step.job != j by { assert !IsOpen(s.m.jobs, step.job); }
      hide Inv, SlotInv, Owes;
      SectionKeepsBinding(s, step.job, w, j);
    } else if step.Unbind? {
      assert Settled(s, step.worker, step.job);
      hide Inv, SlotInv;
    } else {
      hide Inv, SlotInv, Apply, Owes;
      SameActive(s, step);
    }
  }

  lemma SectionKeepsBinding(s: World, k: JobId, w: WorkerId, j: JobId)
    requires k in s.closing && s.closing[k] != [] && k != j && Bound(s, w, j)
    ensures Bound(Apply(s, Proceed(k)), w, j)
  {}

  lemma DenseKept(s: World, step: Step, j: JobId)
    requires Inv(s) && SlotInv(s) && Enabled(s, step) && !step.Fetch? && j in Apply(s, step).m.jobs
    ensures Dense(Apply(s, step).m.jobs[j].slots)
  {
    if j in s.m.jobs {
      StepFollows(s, step, j);
    } else {
      NewRecord(s, step, j);
    }
    assert j in s.m.jobs ==> Dense(s.m.jobs[j].slots);
    hide Inv, SlotInv, Apply;
  }

  /** A disciplined result leaves nothing to expect of its sender. */
  lemma ResultSettles(s: World, step: Step)
    requires Inv(s) && SlotInv(s) && Enabled(s, step) && Disciplined(s, step) && step.Result?
    ensures Settled(Apply(s, step), step.worker, step.job)
  {
    hide Inv, SlotInv, JobInv, ReportResult;
    var w, j, s' := step.worker, step.job, Apply(s, step);
    IssuedStays(s, step);
    DownGrows(s, step);
    OldGrant(s, w, j);
    assert s'.m == ReportResult(s.m, w, j, step.result, step.now).0;
    hide Apply;
    if w !in s.down && j in s.m.jobs && j in s'.m.jobs {
      KnownJob(s, j);
      OldTold(s, w, j);
      StepFollows(s, step, j);
      if s.m.jobs[j].status.Running? {
        RunningCrew(s.m.jobs[j], w);
        ResultRecorded(s.m, w, j, step.result, step.now);
      }
    } else if j !in s.m.jobs {
      NoReturnStep(s, step, j);
    }
  }

  lemma RunningCrew(r: Job, w: WorkerId)
    requires JobInv(r) && r.status.Running? && w in r.slots
    ensures w in r.run
  {}

  lemma ResultRecorded(m: Master, w: WorkerId, j: JobId, result: WorkerResult, now: Now)
    requires j in m.jobs && m.jobs[j].status.Running? && w in m.jobs[j].run
    ensures var m' := ReportResult(m, w, j, result, now).0;
      j in m'.jobs && w in m'.jobs[j].results
  {
    hide CloseJob, Summarize;
    var r := m.jobs[j];
    var a := r.AddResult(w, result, now);
    if w !in r.results {
      CloseSets(m, j, a.Close(Failed, Some(r.FailureOf(w, result)), now));
      CloseSets(m, j, a.Close(Completed, a.error, now));
      assert w in a.results;
    }
  }

  lemma CloseSets(m: Master, j: JobId, r: Job)
    ensures CloseJob(m, j, r).jobs == m.jobs[j := r]
  {
    EmitJobs(m, j, r, StatusChange);
  }

  // What the master's replies establish about the job.
  lemma ToldIsTrue(s: World, step: Step, w: WorkerId, j: JobId)
    requires Inv(s) && SlotInv(s) && Enabled(s, step) && Disciplined(s, step)
    requires (w, j) in Apply(s, step).told
    ensures j in Apply(s, step).issued
    ensures j in Apply(s, step).m.jobs ==>
      !Apply(s, step).m.jobs[j].status.Pending? && !Apply(s, step).m.jobs[j].status.Preparing?
  {
    hide Inv, Apply, SlotInv, Enabled, Disciplined;
    IssuedStays(s, step);
    if (w, j) in s.told {
      OldTold(s, w, j);
      if j in s.m.jobs {
        if j in Apply(s, step).m.jobs { StepFollows(s, step, j); }
      } else {
        NoReturnStep(s, step, j);
      }
    } else {
      NewlyTold(s, step, w, j);
    }
  }

  lemma OldTold(s: World, w: WorkerId, j: JobId)
    requires SlotInv(s) && (w, j) in s.told
    ensures j in s.issued
    ensures j in s.m.jobs ==> !s.m.jobs[j].status.Pending? && !s.m.jobs[j].status.Preparing?
  {
    hide Dense, Owes, Bound, Settled;
  }

  lemma OldGrant(s: World, w: WorkerId, j: JobId)
    requires SlotInv(s) && (w, j) in s.granted
    ensures j in s.issued && (j in s.m.jobs ==> w in s.m.jobs[j].slots)
  {
    hide Dense, Owes, Bound, Settled;
  }

  lemma NewlyTold(s: World, step: Step, w: WorkerId, j: JobId)
    requires Inv(s) && SlotInv(s) && Enabled(s, step) && Disciplined(s, step)
    requires (w, j) in Apply(s, step).told && (w, j) !in s.told
    ensures j in s.issued
    ensures j in Apply(s, step).m.jobs ==>
      !Apply(s, step).m.jobs[j].status.Pending? && !Apply(s, step).m.jobs[j].status.Preparing?
  {
    hide Inv, SlotInv, JobInv, Emit;
    TellingStep(s, step, w, j);
    OldGrant(s, w, j);
    if j in s.m.jobs {
      KnownJob(s, j);
      if step.Ready? {
        ReadyTold(s.m, w, j, step.now);
      } else if step.Report? {
        ReportTold(s.m, w, j, step.progress, step.now);
      } else {
        BatchTold(s.m, w, j, step.now);
      }
    } else {
      NoReturnStep(s, step, j);
    }
  }

  lemma TellingStep(s: World, step: Step, w: WorkerId, j: JobId)
    requires Enabled(s, step) && Disciplined(s, step) && (w, j) in Apply(s, step).told && (w, j) !in s.told
    ensures (step.Ready? || step.Report? || step.Batch?) && step.worker == w && step.job == j && (w, j) in s.granted
    ensures step.Ready? ==>
      && var (m', reply, _) := ReportReady(s.m, w, j, None, step.now);
         step.failure.None? && (reply.cancelled || reply.startAt != 0) && Apply(s, step).m == m'
    ensures step.Report? ==>
      && var (m', ack) := ReportProgress(s.m, w, j, step.progress, step.now);
         (ack.cancelled || ack.unknown) && Apply(s, step).m == m'
    ensures step.Batch? ==>
      && var (m', gate) := FetchFileBatch(s.m, w, j, step.now);
         gate.GateCancelled? && Apply(s, step).m == m'
  {
    hide ReportReady, ReportProgress, FetchFileBatch, FetchJob, ReportResult, DeleteJob, FailManifest, FailStale,
      GcRemove, RunSection, ClearActive, CreateRecord, PushBack, TickFails, GcCollect, WatchJob, TakeEvent, DropClient;
  }

  lemma ReportTold(m: Master, w: WorkerId, j: JobId, p: Progress, now: Now)
    requires j in m.jobs && w in m.jobs[j].slots
    ensures var (m', ack) := ReportProgress(m, w, j, p, now);
      ack.cancelled || ack.unknown ==>
        j in m'.jobs ==> !m'.jobs[j].status.Pending? && !m'.jobs[j].status.Preparing?
  {
    hide Emit;
  }

  lemma BatchTold(m: Master, w: WorkerId, j: JobId, now: Now)
    requires j in m.jobs
    ensures var (m', gate) := FetchFileBatch(m, w, j, now);
      gate.GateCancelled? ==> j in m'.jobs && !m'.jobs[j].status.Pending? && !m'.jobs[j].status.Preparing?
  {}

  lemma ReadyTold(m: Master, w: WorkerId, j: JobId, now: Now)
    requires j in m.jobs && JobInv(m.jobs[j]) && w in m.jobs[j].slots
    ensures var (m', reply, _) := ReportReady(m, w, j, None, now);
      reply.cancelled || reply.startAt != 0 ==>
        j in m'.jobs && !m'.jobs[j].status.Pending? && !m'.jobs[j].status.Preparing?
  {
    var r' := m.jobs[j].Touch(w, now).MarkReady(w, m.cfg.startDelay, now);
    EmitJobs(m, j, r', StatusChange);
    hide Emit;
  }

  lemma GrantsKept(s: World, step: Step, w: WorkerId, j: JobId)
    requires Inv(s) && SlotInv(s) && Enabled(s, step) && !step.Fetch? && (w, j) in Apply(s, step).granted
    ensures j in Apply(s, step).issued && (j in Apply(s, step).m.jobs ==> w in Apply(s, step).m.jobs[j].slots)
  {
    IssuedStays(s, step);
    GrantedBefore(s, step, w, j);
    assert j in s.issued && (j in s.m.jobs ==> w in s.m.jobs[j].slots);
    hide Inv, SlotInv, Apply, Enabled;
    if j in s.m.jobs {
      if j in Apply(s, step).m.jobs { StepFollows(s, step, j); }
    } else {
      NoReturnStep(s, step, j);
    }
  }

  lemma GrantedBefore(s: World, step: Step, w: WorkerId, j: JobId)
    requires Enabled(s, step) && !step.Fetch? && (w, j) in Apply(s, step).granted
    ensures (w, j) in s.granted
  {
    hide FetchJob, ReportReady, ReportProgress, FetchFileBatch, ReportResult, DeleteJob, FailManifest, FailStale,
      GcRemove, RunSection, ClearActive, CreateRecord, PushBack, TickFails, GcCollect, WatchJob, TakeEvent, DropClient;
  }

  lemma ClearsSettled(s: World, step: Step, w: WorkerId, j: JobId)
    requires Inv(s) && SlotInv(s) && Enabled(s, step) && Disciplined(s, step) && (j, w) in Apply(s, step).clears
    ensures Settled(Apply(s, step), w, j)
  {
    hide Inv, SlotInv, Settled;
    if (j, w) in s.clears {
      OldClear(s, w, j);
      SettledStays(s, step, w, j);
    } else {
      ClearingStep(s, step, w, j);
      ResultSettles(s, step);
    }
  }

  lemma OldClear(s: World, w: WorkerId, j: JobId)
    requires SlotInv(s) && (j, w) in s.clears
    ensures Settled(s, w, j)
  {
    hide Dense, Owes, Bound, Settled;
  }

  lemma ClearingStep(s: World, step: Step, w: WorkerId, j: JobId)
    requires Enabled(s, step) && (j, w) in Apply(s, step).clears && (j, w) !in s.clears
    ensures step.Result? && step.worker == w && step.job == j
  {
    hide ReportReady, ReportProgress, FetchFileBatch, FetchJob, ReportResult, DeleteJob, FailManifest, FailStale,
      GcRemove, RunSection, ClearActive, CreateRecord, PushBack, TickFails, GcCollect, WatchJob, TakeEvent, DropClient;
  }

  lemma AllSlots(s: World)
    requires forall j | j in s.m.jobs :: Dense(s.m.jobs[j].slots)
    requires forall w, j | Owes(s, w, j) :: Bound(s, w, j)
    requires forall j, w | (j, w) in s.clears :: Settled(s, w, j)
    requires forall w, j | (w, j) in s.granted :: j in s.issued && (j in s.m.jobs ==> w in s.m.jobs[j].slots)
    requires forall w, j | (w, j) in s.told ::
      j in s.issued && (j in s.m.jobs ==> !s.m.jobs[j].status.Pending? && !s.m.jobs[j].status.Preparing?)
    ensures SlotInv(s)
  {
    hide Dense, Owes, Bound, Settled;
  }

  lemma OtherKeepsSlots(s: World, step: Step)
    requires Inv(s) && SlotInv(s) && Enabled(s, step) && Disciplined(s, step) && !step.Fetch?
    ensures SlotInv(Apply(s, step))
  {
    var s' := Apply(s, step);
    hide *;
    forall j | j in s'.m.jobs ensures Dense(s'.m.jobs[j].slots) { DenseKept(s, step, j); }
    forall w, j | Owes(s', w, j) ensures Bound(s', w, j) { BindingsKept(s, step, w, j); }
    forall j, w | (j, w) in s'.clears ensures Settled(s', w, j) { ClearsSettled(s, step, w, j); }
    forall w, j | (w, j) in s'.granted ensures j in s'.issued && (j in s'.m.jobs ==> w in s'.m.jobs[j].slots) {
      GrantsKept(s, step, w, j);
    }
    forall w, j | (w, j) in s'.told
      ensures j in s'.issued && (j in s'.m.jobs ==> !s'.m.jobs[j].status.Pending? && !s'.m.jobs[j].status.Preparing?)
    {
      ToldIsTrue(s, step, w, j);
    }
    AllSlots(s');
  }

  // -------------------------------------------------------------- FetchJob's step

  /** A worker that still owes a result is answered with the same job and index, and uses no slot. */
  lemma FetchRepeats(s: World, w: WorkerId, j: JobId, now: Now)
    requires Inv(s) && SlotInv(s) && Owes(s, w, j)
    ensures var (m', reply) := FetchJob(s.m, w, now);
      && reply == Assigned(j, WireIndex(s.m.jobs[j].slots[w]))
      && m' == SetJob(s.m, j, s.m.jobs[j].Touch(w, now))
  {
    assert Bound(s, w, j);
    hide Inv, SlotInv;
  }

  lemma FetchKeepsSlots(s: World, w: WorkerId, now: Now)
    requires Inv(s) && SlotInv(s) && w !in s.down
    ensures SlotInv(Apply(s, Fetch(w, now)))
  {
    hide Inv, SlotInv, FetchJob, JobInv, Dense, Settled, Owes, Bound;
    var step := Fetch(w, now);
    var s' := Apply(s, step);
    var (m', reply) := FetchJob(s.m, w, now);
    assert s'.m == m' && s'.told == s.told && s'.clears == s.clears && s'.down == s.down && s'.issued == s.issued;
    assert s'.granted == if reply.Assigned? then s.granted + {(w, reply.job)} else s.granted;
    hide Apply;
    FetchKeepsRest(s, w, now);
    if Replays(s.m, w) {
      ReplayReply(s.m, w, now);
      FetchReplayed(s, s', w, now);
    } else {
      var i := FetchEffect(s, w, now);
      if i < |s.m.queue| {
        KnownJob(s, s.m.queue[i]);
        FetchServes(s, s', s.m.queue[i], w, now);
      } else {
        FetchFindsNothing(s, s', w);
      }
    }
    AllSlots(s');
  }

  lemma ReplayReply(m: Master, w: WorkerId, now: Now)
    requires Replays(m, w)
    ensures FetchJob(m, w, now).1.Assigned? && FetchJob(m, w, now).1.job == m.active[w]
  {}

  // What FetchJob says nothing about.
  lemma FetchKeepsRest(s: World, w: WorkerId, now: Now)
    requires Inv(s) && SlotInv(s) && w !in s.down
    ensures var s' := Apply(s, Fetch(w, now));
      && (forall j, v | (j, v) in s'.clears :: Settled(s', v, j))
      && (forall v, j | (v, j) in s'.told :: j in s'.issued
            && (j in s'.m.jobs ==> !s'.m.jobs[j].status.Pending? && !s'.m.jobs[j].status.Preparing?))
  {
    var step := Fetch(w, now);
    assert Enabled(s, step) && Disciplined(s, step);
    hide *;
    var s' := Apply(s, step);
    forall j, v | (j, v) in s'.clears ensures Settled(s', v, j) { ClearsSettled(s, step, v, j); }
    forall v, j | (v, j) in s'.told
      ensures j in s'.issued && (j in s'.m.jobs ==> !s'.m.jobs[j].status.Pending? && !s'.m.jobs[j].status.Preparing?)
    {
      ToldIsTrue(s, step, v, j);
    }
  }

  lemma FetchFindsNothing(s: World, s': World, w: WorkerId)
    requires SlotInv(s) && !Replays(s.m, w)
    requires s'.m.jobs == s.m.jobs && s'.m.active == s.m.active - {w} && s'.down == s.down
    requires s'.issued == s.issued && s'.granted == s.granted
    ensures forall k | k in s'.m.jobs :: Dense(s'.m.jobs[k].slots)
    ensures forall v, k | Owes(s', v, k) :: Bound(s', v, k)
    ensures forall v, k | (v, k) in s'.granted :: k in s'.issued && (k in s'.m.jobs ==> v in s'.m.jobs[k].slots)
  {
    OwesNothing(s, w);
    hide Dense, Settled;
    forall v, k | Owes(s', v, k) ensures Bound(s', v, k) { assert Owes(s, v, k); assert Bound(s, v, k); }
  }

  lemma FetchReplayed(s: World, s': World, w: WorkerId, now: Now)
    requires Inv(s) && SlotInv(s) && Replays(s.m, w)
    requires s'.m == FetchJob(s.m, w, now).0 && s'.issued == s.issued && s'.down == s.down
    requires s'.granted == s.granted + {(w, s.m.active[w])}
    ensures forall k | k in s'.m.jobs :: Dense(s'.m.jobs[k].slots)
    ensures forall v, k | Owes(s', v, k) :: Bound(s', v, k)
    ensures forall v, k | (v, k) in s'.granted :: k in s'.issued && (k in s'.m.jobs ==> v in s'.m.jobs[k].slots)
  {
    assert s.m.active[w] in s.issued;
    hide Inv, Dense;
    forall v, k | Owes(s', v, k) ensures Bound(s', v, k) { assert Owes(s, v, k); assert Bound(s, v, k); }
  }

  // A live worker that is not replayed owes nothing.
  lemma OwesNothing(s: World, w: WorkerId)
    requires SlotInv(s) && !Replays(s.m, w)
    ensures forall j :: !Owes(s, w, j)
  {
    forall j ensures !Owes(s, w, j) { assert Owes(s, w, j) ==> Bound(s, w, j); }
  }

  lemma FetchServes(s: World, s': World, j: JobId, w: WorkerId, now: Now)
    requires SlotInv(s) && w !in s.down && !Replays(s.m, w) && IsPending(s.m.jobs, j) && j in s.issued
    requires JobInv(s.m.jobs[j])
    requires s'.m.jobs == s.m.jobs[j := s.m.jobs[j].TakeSlot(w, now)]
    requires s'.m.active == (s.m.active - {w})[w := j]
    requires s'.granted == s.granted + {(w, j)} && s'.issued == s.issued && s'.down == s.down
    ensures forall k | k in s'.m.jobs :: Dense(s'.m.jobs[k].slots)
    ensures forall v, k | Owes(s', v, k) :: Bound(s', v, k)
    ensures forall v, k | (v, k) in s'.granted :: k in s'.issued && (k in s'.m.jobs ==> v in s'.m.jobs[k].slots)
  {
    hide SlotInv, JobInv, Dense, Owes, Bound, Job.TakeSlot;
    var r := s.m.jobs[j];
    OwesNothing(s, w);
    NoResultsYet(s, w, j);
    TakeSlotInv(r, w, now);
    SlotsTaken(r, w, now);
    ServedOwes(s, s', j, w, now);
    ServedDense(s, s', j, w, now);
    forall v, k | (v, k) in s'.granted ensures k in s'.issued && (k in s'.m.jobs ==> v in s'.m.jobs[k].slots) {
      if (v, k) in s.granted { OldGrant(s, v, k); }
    }
  }

  lemma NoResultsYet(s: World, w: WorkerId, j: JobId)
    requires IsPending(s.m.jobs, j) && JobInv(s.m.jobs[j])
    ensures s.m.jobs[j].results == map[]
    ensures w !in s.down && !Owes(s, w, j) ==> w !in s.m.jobs[j].slots
  {}

  lemma SlotsTaken(r: Job, w: WorkerId, now: Now)
    ensures r.TakeSlot(w, now).slots == r.slots[w := |r.slots|] == r.Assign(w, now).slots
  {}

  lemma ServedDense(s: World, s': World, j: JobId, w: WorkerId, now: Now)
    requires SlotInv(s) && j in s.m.jobs && w !in s.m.jobs[j].slots
    requires s'.m.jobs == s.m.jobs[j := s.m.jobs[j].TakeSlot(w, now)]
    ensures forall k | k in s'.m.jobs :: Dense(s'.m.jobs[k].slots)
  {
    hide Dense, Owes, Bound, Settled, Job.TakeSlot, Job.Assign;
    SlotsTaken(s.m.jobs[j], w, now);
    AssignKeepsDenseIff(s.m.jobs[j], w, now);
  }

  // The worker just served owes that job only; the others owe what they did.
  lemma ServedOwes(s: World, s': World, j: JobId, w: WorkerId, now: Now)
    requires SlotInv(s) && !Replays(s.m, w) && j in s.m.jobs && w !in s.down
    requires s'.m.jobs == s.m.jobs[j := s.m.jobs[j].TakeSlot(w, now)]
    requires s.m.jobs[j].status.Pending? && s.m.jobs[j].results == map[]
    requires s'.m.active == (s.m.active - {w})[w := j] && s'.down == s.down
    ensures forall v, k | Owes(s', v, k) :: Bound(s', v, k)
  {
    OwesNothing(s, w);
    forall v, k | Owes(s', v, k) ensures Bound(s', v, k) {
      if v != w {
        assert Owes(s, v, k);
        assert Bound(s, v, k);
      } else {
        assert k != j ==> !Owes(s, w, k);
      }
    }
  }

  /** Every disciplined step keeps the slots in order. */
  lemma StepKeepsSlots(s: World, step: Step)
    requires Inv(s) && SlotInv(s) && Enabled(s, step) && Disciplined(s, step)
    ensures SlotInv(Apply(s, step))
  {
    if step.Fetch? { FetchKeepsSlots(s, step.worker, step.now); } else { OtherKeepsSlots(s, step); }
  }

  // ------------------------------------------------------------------------ runs

  ghost predicate IsDisciplinedRun(cfg: Config, run: Run) {
    IsRun(cfg, run) && forall i | 0 <= i < |run.steps| :: Disciplined(run.states[i], run.steps[i])
  }

  lemma {:induction false} AlwaysSlots(cfg: Config, run: Run, i: nat)
    requires IsDisciplinedRun(cfg, run) && i < |run.states|
    ensures SlotInv(run.states[i])
  {
    if i > 0 {
      AlwaysSlots(cfg, run, i - 1);
      AlwaysInv(cfg, run, i - 1);
      hide SlotInv, Inv;
      StepKeepsSlots(run.states[i - 1], run.steps[i - 1]);
    }
  }

  /**
   In every run of workers that follow their life cycle: a job's indices are
   exactly 0..n-1 with n at most the target, and no live worker owes a result to
   two unfinished jobs.
   */
  lemma SlotsInEveryRun(cfg: Config, run: Run, i: nat)
    requires IsDisciplinedRun(cfg, run) && i < |run.states|
    ensures forall j | j in run.states[i].m.jobs ::
      Dense(run.states[i].m.jobs[j].slots) && |run.states[i].m.jobs[j].slots| <= run.states[i].m.jobs[j].target
    ensures forall w, j, k | Owes(run.states[i], w, j) && Owes(run.states[i], w, k) :: j == k
  {
    AlwaysSlots(cfg, run, i);
    AlwaysInv(cfg, run, i);
    var s := run.states[i];
    forall j | j in s.m.jobs ensures |s.m.jobs[j].slots| <= s.m.jobs[j].target {
      assert JobInv(s.m.jobs[j]);
    }
    forall w, j, k | Owes(s, w, j) && Owes(s, w, k) ensures j == k {
      assert Bound(s, w, j) && Bound(s, w, k);
    }
  }

  // A slot once given keeps its index.
  lemma {:induction false} SlotStays(cfg: Config, run: Run, i: nat, k: nat, w: WorkerId, j: JobId)
    requires IsDisciplinedRun(cfg, run) && i <= k < |run.states|
    requires j in run.states[i].m.jobs && w in run.states[i].m.jobs[j].slots && j in run.states[k].m.jobs
    ensures w in run.states[k].m.jobs[j].slots
    ensures run.states[k].m.jobs[j].slots[w] == run.states[i].m.jobs[j].slots[w]
  {
    hide Inv, SlotInv, Enabled, Apply, Disciplined;
    if i < k {
      RunStep(cfg, run, k - 1);
      hide IsDisciplinedRun, IsRun;
      KnownBefore(cfg, run, i, k - 1, j);
      SlotStays(cfg, run, i, k - 1, w, j);
      AlwaysSlots(cfg, run, k - 1);
      SlotStaysStep(run.states[k - 1], run.steps[k - 1], w, j);
    }
  }

  lemma RunStep(cfg: Config, run: Run, i: nat)
    requires IsDisciplinedRun(cfg, run) && i + 1 < |run.states|
    ensures |run.states| == |run.steps| + 1 && IsRun(cfg, run) && Inv(run.states[i])
    ensures Enabled(run.states[i], run.steps[i]) && Disciplined(run.states[i], run.steps[i])
    ensures run.states[i + 1] == Apply(run.states[i], run.steps[i])
  {
    AlwaysInv(cfg, run, i);
  }

  lemma SlotStaysStep(s: World, step: Step, w: WorkerId, j: JobId)
    requires Inv(s) && SlotInv(s) && Enabled(s, step) && Disciplined(s, step)
    requires j in s.m.jobs && w in s.m.jobs[j].slots && j in Apply(s, step).m.jobs
    ensures w in Apply(s, step).m.jobs[j].slots && Apply(s, step).m.jobs[j].slots[w] == s.m.jobs[j].slots[w]
  {
    hide Inv, SlotInv, FetchJob, Follows;
    if step.Fetch? {
      FetchKeepsIndex(s, step.worker, step.now, w, j);
    } else {
      hide Apply;
      StepFollows(s, step, j);
    }
  }

  lemma FetchKeepsIndex(s: World, v: WorkerId, now: Now, w: WorkerId, j: JobId)
    requires Inv(s) && SlotInv(s) && v !in s.down && j in s.m.jobs && w in s.m.jobs[j].slots
    ensures var m' := FetchJob(s.m, v, now).0;
      j in m'.jobs && w in m'.jobs[j].slots && m'.jobs[j].slots[w] == s.m.jobs[j].slots[w]
  {
    if !Replays(s.m, v) {
      var i := FetchEffect(s, v, now);
      OwesNothing(s, v);
      assert !Owes(s, v, j);
      assert JobInv(s.m.jobs[j]);
      hide Inv, SlotInv, FetchJob;
    } else {
      hide Inv, SlotInv;
    }
  }

  /**
   FetchJob is idempotent over a whole run: if a worker was answered (j, index)
   and later fetches again while it still owes j a result, it is answered (j,
   index) again and no slot is used, whatever happened in between.
   */
  lemma RepeatedFetchSameSlot(cfg: Config, run: Run, i: nat, k: nat, w: WorkerId, now: Now, now': Now)
    requires IsDisciplinedRun(cfg, run) && i < k < |run.steps|
    requires run.steps[i] == Fetch(w, now) && run.steps[k] == Fetch(w, now')
    requires FetchJob(run.states[i].m, w, now).1.Assigned?
    requires Owes(run.states[k], w, FetchJob(run.states[i].m, w, now).1.job)
    ensures FetchJob(run.states[k].m, w, now').1 == FetchJob(run.states[i].m, w, now).1
    ensures forall j | j in run.states[k].m.jobs ::
      j in run.states[k + 1].m.jobs && run.states[k + 1].m.jobs[j].slots == run.states[k].m.jobs[j].slots
  {
    hide Inv, SlotInv, FetchJob, Enabled;
    var s, t := run.states[i], run.states[k];
    var reply := FetchJob(s.m, w, now).1;
    AlwaysInv(cfg, run, i);
    AlwaysInv(cfg, run, k);
    AlwaysSlots(cfg, run, k);
    FetchRepeats(t, w, reply.job, now');
    ReplyIsRecorded(s, w, now);
    assert run.states[i + 1].m == FetchJob(s.m, w, now).0;
    assert run.states[k + 1].m == FetchJob(t.m, w, now').0;
    hide Apply, Owes;
    assert reply.job in t.m.jobs by { OwesKnown(t, w, reply.job); }
    SlotStays(cfg, run, i + 1, k, w, reply.job);
  }

  lemma OwesKnown(s: World, w: WorkerId, j: JobId)
    requires Owes(s, w, j)
    ensures j in s.m.jobs
  {}

  lemma ReplyIsRecorded(s: World, w: WorkerId, now: Now)
    requires Inv(s)
    ensures var (m', reply) := FetchJob(s.m, w, now);
      reply.Assigned? ==>
        && reply.job in m'.jobs && w in m'.jobs[reply.job].slots
        && reply.index == WireIndex(m'.jobs[reply.job].slots[w])
  {
    if !Replays(s.m, w) {
      var i := FetchEffect(s, w, now);
      hide Inv, FetchJob;
    } else {
      hide Inv;
    }
  }
}
