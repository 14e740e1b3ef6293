/** How one step changes one record, the bindings and the queue. */
module Effects {
  import opened Types
  import opened Aggregation
  import opened Jobs
  import opened MasterState
  import opened Interleaving
  import StreamProofs
  import QueueProofs

  /** The transitions a job may make. */
  predicate NextStatus(a: Status, b: Status) {
    match a
    case Pending => b.Preparing? || b.Cancelled?
    case Preparing => b.Running? || b.Failed? || b.Cancelled?
    case Running => b.Completed? || b.Failed? || b.Cancelled?
    case _ => false
  }

  ghost predicate Frozen(r: Job, r': Job) {
    && r'.status == r.status && r'.error == r.error && r'.results == r.results
    && r'.terminalAt == r.terminalAt && r'.summary == r.summary
  }

  /** What any step leaves true of a record that it does not remove. */
  ghost predicate Follows(r: Job, r': Job) {
    && (r'.status == r.status || NextStatus(r.status, r'.status))
    && (r.startAt != 0 ==> r'.startAt == r.startAt)
    && (r.status.Terminal() ==> Frozen(r, r'))
    && (!r.status.Pending? ==> r'.slots == r.slots && r'.run == r.run)
    && r.slots.Keys <= r'.slots.Keys
    && r.ready <= r'.ready
    && r.results.Keys <= r'.results.Keys
    && (!r.status.Pending? ==> r'.preparingSince == r.preparingSince)
    && (r.manifestStarted ==> r'.manifestStarted)
    && r'.target == r.target && r'.created == r.created && r'.hasManifest == r.hasManifest
  }

  // A step that rewrites the record of `j` to `r` and no other.
  ghost predicate Rewrites(s: World, s': World, j: JobId, r: Job) {
    s'.m.jobs == s.m.jobs[j := r] && s'.m.active == s.m.active && s'.m.queue == s.m.queue
  }

  ghost predicate Untouched(s: World, s': World) {
    s'.m.jobs == s.m.jobs && s'.m.active == s.m.active && s'.m.queue == s.m.queue
  }

  // The change `s'` makes to `j`: nothing, or a well-behaved rewrite keeping the slots.
  ghost predicate Tame(s: World, s': World, j: JobId) {
    || Untouched(s, s')
    || (j in s.m.jobs && exists r :: Rewrites(s, s', j, r) && Follows(s.m.jobs[j], r) && r.slots == s.m.jobs[j].slots)
  }

  lemma EmitJobs(m: Master, j: JobId, r: Job, kind: EventKind)
    ensures var m' := Emit(SetJob(m, j, r), j, kind);
      m'.jobs == m.jobs[j := r] && m'.active == m.active && m'.queue == m.queue
  {
    StreamProofs.EmitFacts(m, j, r, kind);
  }

  lemma RewriteIsTame(s: World, s': World, j: JobId, r: Job)
    requires j in s.m.jobs && Follows(s.m.jobs[j], r) && r.slots == s.m.jobs[j].slots
    requires s'.m == SetJob(s.m, j, r) || exists kind :: s'.m == Emit(SetJob(s.m, j, r), j, kind)
    ensures Tame(s, s', j)
  {
    if s'.m != SetJob(s.m, j, r) {
      var kind :| s'.m == Emit(SetJob(s.m, j, r), j, kind);
      EmitJobs(s.m, j, r, kind);
    }
    assert Rewrites(s, s', j, r);
  }

  lemma ReadyTame(s: World, w: WorkerId, j: JobId, failure: Option<string>, now: Now)
    requires Inv(s)
    ensures Tame(s, Apply(s, Ready(w, j, failure, now)), j)
  {
    hide Inv, Emit, Follows, Tame, JobInv;
    var s' := Apply(s, Ready(w, j, failure, now));
    assert s'.m == ReportReady(s.m, w, j, failure, now).0;
    hide Apply;
    if j in s.m.jobs { KnownJob(s, j); }
    if j in s.m.jobs && !s.m.jobs[j].status.Terminal() && w in s.m.jobs[j].slots {
      var r := s.m.jobs[j];
      var t := r.Touch(w, now);
      var r' := match failure
        case Some(reason) => if r.status.Preparing? then t.Close(Failed, Some(ReadyFailure(w, reason)), now) else t
        case None => t.MarkReady(w, s.m.cfg.startDelay, now);
      assert Follows(r, r') by { FollowsReady(r, w, s.m.cfg.startDelay, now, failure); }
      RewriteIsTame(s, s', j, r');
    } else {
      UntouchedIsTame(s, s', j);
    }
  }

  lemma UntouchedIsTame(s: World, s': World, j: JobId)
    requires Untouched(s, s')
    ensures Tame(s, s', j)
  {}

  lemma FollowsReady(r: Job, w: WorkerId, delay: int, now: Now, failure: Option<string>)
    requires JobInv(r) && !r.status.Terminal() && w in r.slots
    ensures Follows(r, r.Touch(w, now).MarkReady(w, delay, now))
    ensures Follows(r, r.Touch(w, now))
    ensures failure.Some? && r.status.Preparing? ==>
      Follows(r, r.Touch(w, now).Close(Failed, Some(ReadyFailure(w, failure.value)), now))
  {}

  lemma ReportTame(s: World, w: WorkerId, j: JobId, p: Progress, now: Now)
    requires Inv(s)
    ensures Tame(s, Apply(s, Report(w, j, p, now)), j)
  {
    var s' := Apply(s, Report(w, j, p, now));
    assert s'.m == ReportProgress(s.m, w, j, p, now).0;
    hide Inv, Emit, Apply, Tame;
    if j in s.m.jobs && s.m.jobs[j].status.Cancelled? {
      RewriteIsTame(s, s', j, s.m.jobs[j].Touch(w, now));
    } else if j in s.m.jobs && !s.m.jobs[j].status.Terminal() && w in s.m.jobs[j].slots {
      RewriteIsTame(s, s', j, s.m.jobs[j].Touch(w, now).(progress := s.m.jobs[j].progress[w := SanitizeProgress(p)]));
    } else {
      UntouchedIsTame(s, s', j);
    }
  }

  lemma BatchTame(s: World, w: WorkerId, j: JobId, now: Now)
    ensures Tame(s, Apply(s, Batch(w, j, now)), j)
  {
    var s' := Apply(s, Batch(w, j, now));
    assert s'.m == FetchFileBatch(s.m, w, j, now).0;
    hide Apply, Tame;
    if s'.m == s.m {
      UntouchedIsTame(s, s', j);
    } else {
      RewriteIsTame(s, s', j, s.m.jobs[j].Touch(w, now));
    }
  }

  lemma FollowsResult(r: Job, w: WorkerId, result: WorkerResult, now: Now)
    requires JobInv(r) && w in r.run && (r.status.Running? || r.status.Cancelled?)
    ensures var r' := r.AddResult(w, result, now);
      && Follows(r, r.Touch(w, now))
      && (r.status.Cancelled? || w !in r.results ==> Follows(r, r'))
      && (r.status.Running? ==> Follows(r, r'.Close(Failed, Some(r.FailureOf(w, result)), now)))
      && (r.status.Running? ==> Follows(r, r'.Close(Completed, r'.error, now)))
  {}

  lemma ResultTame(s: World, w: WorkerId, j: JobId, result: WorkerResult, now: Now)
    requires Inv(s)
    ensures Tame(s, Apply(s, Result(w, j, result, now)), j)
  {
    var s' := Apply(s, Result(w, j, result, now));
    assert s'.m == ReportResult(s.m, w, j, result, now).0;
    if j in s.m.jobs { KnownJob(s, j); }
    hide Inv, Emit, Follows, Apply, Tame, JobInv;
    if j in s.m.jobs && w in s.m.jobs[j].run && (s.m.jobs[j].status.Running? || s.m.jobs[j].status.Cancelled?) {
      var r := s.m.jobs[j];
      FollowsResult(r, w, result, now);
      var a := r.AddResult(w, result, now);
      var r' :=
        if w in r.results then r.Touch(w, now)
        else if r.status.Cancelled? then a
        else if !result.success then a.Close(Failed, Some(r.FailureOf(w, result)), now)
        else if |a.results| == |a.run| then a.Close(Completed, a.error, now)
        else a;
      RewriteIsTame(s, s', j, r');
    } else {
      UntouchedIsTame(s, s', j);
    }
  }

  lemma AbortTame(s: World, step: Step)
    requires Inv(s) && Enabled(s, step) && (step.Delete? || step.ManifestFails? || step.TickFail?)
    ensures Tame(s, Apply(s, step), step.job)
  {
    hide Inv, Emit, Tame, JobInv, Follows, TickFails, Job.Close;
    var j := step.job;
    var s' := Apply(s, step);
    if IsOpen(s.m.jobs, j) {
      KnownJob(s, j);
      var r := s.m.jobs[j];
      FollowsAbort(s.m.cfg, r, step);
      RewriteIsTame(s, s', j, Aborted(r, step));
    } else {
      ClosedIsOver(s, step);
      UntouchedIsTame(s, s', j);
    }
  }

  // The record a DeleteJob, a manifest failure or the staleness tick leaves.
  ghost function Aborted(r: Job, step: Step): Job
    requires step.Delete? || step.ManifestFails? || step.TickFail?
  {
    match step
    case Delete(_, now) => r.Close(Cancelled, r.error, now)
    case ManifestFails(_, reason, now) => r.Close(Failed, Some(ManifestFailure(reason)), now)
    case TickFail(_, why, now) => r.Close(Failed, Some(why), now)
  }

  lemma FollowsAbort(cfg: Config, r: Job, step: Step)
    requires JobInv(r) && !r.status.Terminal()
    requires step.Delete? || (step.ManifestFails? && r.manifestStarted) || (step.TickFail? && TickFails(cfg, r, step.why, step.now))
    ensures Follows(r, Aborted(r, step)) && Aborted(r, step).slots == r.slots
  {}

  // A tick fails only open jobs.
  lemma ClosedIsOver(s: World, step: Step)
    requires Enabled(s, step) && (step.Delete? || step.ManifestFails? || step.TickFail?)
    ensures step.TickFail? ==> IsOpen(s.m.jobs, step.job)
  {}

  // Steps that leave records, bindings and queue alone.
  predicate Plain(step: Step) { step.Watch? || step.Collect? || step.Take? || step.HangUp? || step.Shutdown? }

  lemma PlainTame(s: World, step: Step)
    requires Enabled(s, step) && Plain(step)
    ensures Untouched(s, Apply(s, step))
  {
    hide FetchJob, ReportReady, ReportProgress, FetchFileBatch, ReportResult, DeleteJob, FailManifest, FailStale,
      GcRemove, RunSection, ClearActive, CreateRecord, PushBack, TickFails, GcCollect;
  }

  /** Every step that is not CreateJob, FetchJob or a removal: at most one record changes, tamely. */
  lemma OtherTame(s: World, step: Step)
    requires Inv(s) && Enabled(s, step)
    requires !step.Create? && !step.Fetch? && !step.Remove? && !step.Enqueue? && !step.Proceed? && !step.Unbind?
    ensures exists j :: Tame(s, Apply(s, step), j)
  {
    hide Inv, Apply, Tame;
    if Plain(step) { PlainTame(s, step); UntouchedIsTame(s, Apply(s, step), 0); }
    else if step.Ready? { ReadyTame(s, step.worker, step.job, step.failure, step.now); }
    else if step.Report? { ReportTame(s, step.worker, step.job, step.progress, step.now); }
    else if step.Batch? { BatchTame(s, step.worker, step.job, step.now); }
    else if step.Result? { ResultTame(s, step.worker, step.job, step.result, step.now); }
    else { AbortTame(s, step); }
  }

  // ------------------------------------------------------------------- FetchJob

  /**
   FetchJob in a good state: replay, or nothing to hand out, or a slot of the
   first PENDING job of the queue.
   */
  lemma FetchEffect(s: World, w: WorkerId, now: Now) returns (i: nat)
    requires Inv(s) && !Replays(s.m, w)
    ensures var (m', reply) := FetchJob(s.m, w, now);
      && i <= |s.m.queue|
      && (forall a | 0 <= a < i :: !IsPending(s.m.jobs, s.m.queue[a]))
      && (i == |s.m.queue| ==>
           reply.NoJob? && m'.jobs == s.m.jobs && m'.queue == [] && m'.active == s.m.active - {w})
      && (i < |s.m.queue| ==>
           var j := s.m.queue[i];
           && IsPending(s.m.jobs, j)
           && reply == Assigned(j, WireIndex(|s.m.jobs[j].slots|))
           && m'.jobs == s.m.jobs[j := s.m.jobs[j].TakeSlot(w, now)]
           && m'.active == (s.m.active - {w})[w := j]
           && m'.queue == if m'.jobs[j].status.Pending? then s.m.queue[i..] else s.m.queue[i + 1..])
  {
    hide Emit, TakeEvent, Job.TakeSlot, Inv, JobInv;
    forall j | j in s.m.jobs ensures JobInv(s.m.jobs[j]) { KnownJob(s, j); }
    var m1 := s.m.(active := s.m.active - {w});
    QueueProofs.FetchLoopIs(m1, w, now);
    i := QueueProofs.FirstPending(s.m.jobs, s.m.queue);
    if i < |s.m.queue| {
      var j := s.m.queue[i];
      KnownJob(s, j);
      hide FetchLoop;
      AssignEffect(m1.(queue := s.m.queue[i..]), w, now);
      assert s.m.queue[i..][1..] == s.m.queue[i + 1..];
    }
  }

  lemma AssignEffect(m: Master, w: WorkerId, now: Now)
    requires m.queue != [] && IsPending(m.jobs, m.queue[0]) && JobInv(m.jobs[m.queue[0]])
    ensures var (m', reply) := AssignHead(m, w, now);
      var j := m.queue[0];
      && reply == Assigned(j, WireIndex(|m.jobs[j].slots|))
      && m'.jobs == m.jobs[j := m.jobs[j].TakeSlot(w, now)]
      && m'.active == m.active[w := j]
      && m'.queue == if m'.jobs[j].status.Pending? then m.queue else m.queue[1..]
  {
    var j := m.queue[0];
    var r := m.jobs[j].TakeSlot(w, now);
    TakeSlotInv(m.jobs[j], w, now);
    var m1 := m.(active := m.active[w := j]);
    EmitJobs(m1, j, r, StatusChange);
    assert SetJob(m, j, r).(active := m.active[w := j]) == SetJob(m1, j, r);
    assert r.slots[w] == |m.jobs[j].slots|;
    hide Emit, JobInv;
  }

  lemma FollowsTakeSlot(r: Job, w: WorkerId, now: Now)
    requires JobInv(r) && r.status.Pending?
    ensures Follows(r, r.TakeSlot(w, now))
  {
    TakeSlotInv(r, w, now);
  }

  /** A record that survives a step follows its former self. */
  lemma StepFollows(s: World, step: Step, j: JobId)
    requires Inv(s) && Enabled(s, step)
    requires j in s.m.jobs && j in Apply(s, step).m.jobs
    ensures Follows(s.m.jobs[j], Apply(s, step).m.jobs[j])
    ensures !step.Fetch? ==> Apply(s, step).m.jobs[j].slots == s.m.jobs[j].slots
  {
    if step.Fetch? {
      FetchFollows(s, step.worker, step.now, j);
      hide Inv, FetchJob;
    } else if step.Create? || step.Remove? || step.Enqueue? || step.Proceed? || step.Unbind? {
      SameRecord(s, step, j);
      hide Inv, Apply;
    } else {
      OtherTame(s, step);
      hide Inv, Apply;
      TameFollows(s, Apply(s, step), j);
    }
  }

  // Steps that add or drop records, or touch only the queue, bindings or watchers.
  lemma SameRecord(s: World, step: Step, j: JobId)
    requires Enabled(s, step) && s.m.jobs.Keys <= s.issued
    requires step.Create? || step.Remove? || step.Enqueue? || step.Proceed? || step.Unbind?
    requires j in s.m.jobs && j in Apply(s, step).m.jobs
    ensures Apply(s, step).m.jobs[j] == s.m.jobs[j]
  {
    if step.Create? {
      EmitJobs(s.m, step.job, NewJob(step.raw, step.manifest, step.now), StatusChange);
      hide Emit;
    }
  }

  lemma TameFollows(s: World, s': World, j: JobId)
    requires exists k :: Tame(s, s', k)
    requires j in s.m.jobs
    ensures j in s'.m.jobs && Follows(s.m.jobs[j], s'.m.jobs[j]) && s'.m.jobs[j].slots == s.m.jobs[j].slots
  {
    var k :| Tame(s, s', k);
  }

  lemma FetchFollows(s: World, w: WorkerId, now: Now, j: JobId)
    requires Inv(s) && j in s.m.jobs
    ensures var m' := FetchJob(s.m, w, now).0;
      j in m'.jobs && Follows(s.m.jobs[j], m'.jobs[j])
  {
    hide Inv, JobInv;
    KnownJob(s, j);
    if !Replays(s.m, w) {
      var i := FetchEffect(s, w, now);
      hide FetchJob;
      if i < |s.m.queue| && s.m.queue[i] == j {
        FollowsTakeSlot(s.m.jobs[j], w, now);
      }
    }
  }
}
