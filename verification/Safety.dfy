/** The master's invariant holds initially and after every step of every interleaving. */
module Safety {
  import opened Types
  import opened Aggregation
  import opened Jobs
  import opened MasterState
  import opened Interleaving
  import StreamProofs
  import QueueProofs

  lemma StartInv(cfg: Config)
    ensures Inv(Start(cfg))
  {}

  // Only these fields matter to the invariant.
  lemma InvFrame(s: World, s': World)
    requires Inv(s)
    requires s'.m == s.m && s'.creating == s.creating && s'.closing == s.closing && s'.gc == s.gc && s'.issued == s.issued
    ensures Inv(s')
  {}

  // ------------------------------------------------- the kinds of record change

  ghost predicate SameShape(r: Job, r': Job) {
    r'.status == r.status && r'.slots == r.slots && r'.terminalAt == r.terminalAt && r'.created == r.created
  }

  // How one record changes: the invariant on records, and on RPCs past their closing section.
  lemma JobsChange(s: World, s': World, j: JobId, r: Job)
    requires JobsInv(s) && JobInv(r) && j in s'.issued && s.issued <= s'.issued
    requires s'.m.jobs == s.m.jobs[j := r]
    ensures JobsInv(s')
  {
    hide JobInv;
  }

  lemma FlightChange(s: World, s': World, j: JobId, r: Job)
    requires FlightInv(s) && s.issued <= s'.issued
    requires s'.m.jobs == s.m.jobs[j := r] && s'.m.cfg == s.m.cfg && s'.gc == s.gc
    requires forall k :: Watchers(s'.m, k) <= Watchers(s.m, k)
    requires IsOpen(s.m.jobs, j) || (j in s.m.jobs && SameShape(s.m.jobs[j], r)) || j !in s.issued
    requires !r.status.Terminal() ==> s'.closing == s.closing && (IsOpen(s.m.jobs, j) || j !in s.issued)
    requires r.status.Terminal() ==>
      || (s'.closing == s.closing && !IsOpen(s.m.jobs, j))
      || (j in s.issued && exists rest :: Finalize in rest && s'.closing == s.closing[j := rest])
    ensures FlightInv(s')
  {
    assert forall k | k != j :: IsOpen(s'.m.jobs, k) <==> IsOpen(s.m.jobs, k);
  }

  lemma EmitIn(s: World, j: JobId, r: Job, kind: EventKind)
    requires Inv(s) && IsOpen(s.m.jobs, j)
    ensures var m' := Emit(SetJob(s.m, j, r), j, kind);
      && StreamInv(m', s.issued) && j in s.issued
      && m'.jobs == s.m.jobs[j := r] && m'.queue == s.m.queue && m'.cfg == s.m.cfg
      && forall k :: Watchers(m', k) <= Watchers(s.m, k)
  {
    hide StreamInv, QueueInv, FlightInv, JobInv, JobsInv, Emit, Deliver, Log;
    KnownJob(s, j);
    StreamProofs.Emitted(s.m, j, r, kind, s.issued);
    assert s.issued + {j} == s.issued;
    StreamProofs.EmitFacts(s.m, j, r, kind);
  }

  lemma QueueIn(s: World, s': World)
    requires Inv(s) && QueueProofs.Quiet(s.m.jobs, s'.m.jobs)
    requires s'.m.queue == s.m.queue && s'.creating == s.creating && s'.issued == s.issued
    ensures QueueInv(s'.m.jobs, s'.m.queue, s'.creating, s'.issued)
  {
    hide StreamInv, QueueInv, FlightInv, JobsInv;
    QueueProofs.QueueFrame(s.m.jobs, s'.m.jobs, s.m.queue, s.creating, s.issued);
  }

  /** Rewriting a record in place: liveness stamps, early ready marks, results. */
  lemma Updating(s: World, j: JobId, r: Job)
    requires Inv(s) && j in s.m.jobs && JobInv(r) && SameShape(s.m.jobs[j], r)
    ensures Inv(s.(m := SetJob(s.m, j, r)))
  {
    hide StreamInv, QueueInv, FlightInv, JobInv, JobsInv;
    var s' := s.(m := SetJob(s.m, j, r));
    KnownJob(s, j);
    assert forall k :: Watchers(s'.m, k) == Watchers(s.m, k);
    StreamProofs.QuietUpdate(s.m, j, r, s.issued);
    QueueIn(s, s');
    FlightChange(s, s', j, r);
    assert JobsInv(s') by { JobsChange(s, s', j, r); }
  }

  /** Announcing a change of an open job that leaves it open. */
  lemma Announcing(s: World, j: JobId, r: Job, kind: EventKind)
    requires Inv(s) && IsOpen(s.m.jobs, j) && JobInv(r) && !r.status.Terminal()
    requires r.status.Pending? ==> SameShape(s.m.jobs[j], r)
    ensures Inv(s.(m := Emit(SetJob(s.m, j, r), j, kind)))
  {
    hide StreamInv, QueueInv, FlightInv, JobInv, JobsInv, Watchers;
    EmitIn(s, j, r, kind);
    var s' := s.(m := Emit(SetJob(s.m, j, r), j, kind));
    hide Emit, SetJob;
    QueueIn(s, s');
    FlightChange(s, s', j, r);
    JobsChange(s, s', j, r);
  }

  /** A transition into a final state, with the rest of its RPC still to run. */
  lemma ClosingOne(s: World, j: JobId, r: Job, rest: seq<Section>)
    requires Inv(s) && IsOpen(s.m.jobs, j) && JobInv(r) && r.status.Terminal() && Finalize in rest
    ensures Inv(s.(m := CloseJob(s.m, j, r), closing := s.closing[j := rest]))
  {
    hide StreamInv, QueueInv, FlightInv, JobInv, JobsInv, Watchers;
    EmitIn(s, j, r, StatusChange);
    var s' := s.(m := CloseJob(s.m, j, r), closing := s.closing[j := rest]);
    hide Emit, SetJob;
    QueueIn(s, s');
    FlightChange(s, s', j, r);
    JobsChange(s, s', j, r);
  }

  // --------------------------------------------------------------- one per step

  lemma CreateKeeps(s: World, step: Step)
    requires Inv(s) && step.Create? && Enabled(s, step)
    ensures Inv(Apply(s, step))
  {
    hide StreamInv, FlightInv, JobInv, JobsInv, QueueInv, Watchers;
    var j := step.job;
    var r := NewJob(step.raw, step.manifest, step.now);
    NewJobInv(step.raw, step.manifest, step.now);
    var s' := Apply(s, step);
    assert s'.m == Emit(SetJob(s.m, j, r), j, StatusChange);
    FreshId(s, step);
    hide CreateRecord;
    StreamProofs.Emitted(s.m, j, r, StatusChange, s.issued);
    StreamProofs.EmitFacts(s.m, j, r, StatusChange);
    StreamProofs.NoLog(s.m, s.issued, j);
    hide Emit, SetJob;
    QueueProofs.QueueCreate(s.m.jobs, j, r, s.m.queue, s.creating, s.issued);
    JobsChange(s, s', j, r);
    FlightChange(s, s', j, r);
  }

  lemma EnqueueKeeps(s: World, j: JobId)
    requires Inv(s) && j in s.creating
    ensures Inv(Apply(s, Enqueue(j)))
  {
    var s' := Apply(s, Enqueue(j));
    StreamProofs.StreamFrame(s.m, s'.m, s.issued);
    QueueProofs.QueueEnqueue(s.m.jobs, j, s.m.queue, s.creating, s.issued);
  }

  // What `FetchJob` does when it serves a pending job: slots are left ...
  lemma AssignStaysPending(s: World, w: WorkerId, now: Now)
    requires Inv(s) && s.m.queue != [] && IsPending(s.m.jobs, s.m.queue[0])
    requires s.m.jobs[s.m.queue[0]].TakeSlot(w, now).status.Pending?
    ensures Inv(s.(m := AssignHead(s.m, w, now).0))
  {
    var j := s.m.queue[0];
    hide StreamInv, QueueInv, FlightInv, JobInv, JobsInv, Job.TakeSlot, Emit;
    var r := s.m.jobs[j].TakeSlot(w, now);
    KnownJob(s, j);
    TakeSlotInv(s.m.jobs[j], w, now);
    var s' := s.(m := SetJob(s.m, j, r).(active := s.m.active[w := j]));
    NotFull(s.m.jobs[j], w, now);
    assert AssignHead(s.m, w, now).0 == s'.m;
    assert forall k :: Watchers(s'.m, k) == Watchers(s.m, k);
    hide AssignHead;
    QueueProofs.QueueAssign(s.m.jobs, r, s.m.queue, s.creating, s.issued);
    StreamProofs.QuietUpdate(s.m, j, r, s.issued);
    StreamProofs.StreamFrame(SetJob(s.m, j, r), s'.m, s.issued);
    hide Watchers;
    JobsChange(s, s', j, r);
    FlightChange(s, s', j, r);
  }

  // A pending record leaves PENDING exactly with its last slot.
  lemma NotFull(r: Job, w: WorkerId, now: Now)
    requires JobInv(r) && r.status.Pending?
    ensures r.TakeSlot(w, now).SlotsRemaining() == 0 <==> !r.TakeSlot(w, now).status.Pending?
  {
    TakeSlotInv(r, w, now);
  }

  // ... or the job is now full.
  lemma AssignFills(s: World, w: WorkerId, now: Now)
    requires Inv(s) && s.m.queue != [] && IsPending(s.m.jobs, s.m.queue[0])
    requires !s.m.jobs[s.m.queue[0]].TakeSlot(w, now).status.Pending?
    ensures Inv(s.(m := AssignHead(s.m, w, now).0))
  {
    var j := s.m.queue[0];
    hide StreamInv, QueueInv, FlightInv, JobInv, JobsInv, Job.TakeSlot, Emit;
    var r := s.m.jobs[j].TakeSlot(w, now);
    KnownJob(s, j);
    TakeSlotInv(s.m.jobs[j], w, now);
    var active' := s.m.active[w := j];
    var e := Emit(SetJob(s.m, j, r), j, StatusChange);
    var s' := s.(m := e.(active := active', queue := s.m.queue[1..]));
    NotFull(s.m.jobs[j], w, now);
    EmitActive(s.m, j, r, active');
    assert AssignHead(s.m, w, now).0 == s'.m;
    assert forall k :: Watchers(s'.m, k) == Watchers(e, k);
    hide AssignHead;
    QueueProofs.QueueAssign(s.m.jobs, r, s.m.queue, s.creating, s.issued);
    EmitIn(s, j, r, StatusChange);
    StreamProofs.StreamFrame(e, s'.m, s.issued);
    hide Watchers, SetJob;
    JobsChange(s, s', j, r);
    FlightChange(s, s', j, r);
  }

  lemma EmitActive(m: Master, j: JobId, r: Job, active: map<WorkerId, JobId>)
    ensures Emit(SetJob(m, j, r).(active := active), j, StatusChange)
         == Emit(SetJob(m, j, r), j, StatusChange).(active := active)
  {
    var m0 := SetJob(m, j, r);
    var m1 := m0.(active := active);
    var e := EventFor(m0, j, StatusChange);
    assert Watchers(m1, j) == Watchers(m0, j);
    assert Log(m1, j) == Log(m0, j);
    var a := m0.(nextSeq := m0.nextSeq + 1, log := m0.log[j := Log(m0, j) + [e]]);
    var b := m1.(nextSeq := m1.nextSeq + 1, log := m1.log[j := Log(m1, j) + [e]]);
    assert b == a.(active := active);
    assert Accepting(a, Watchers(a, j)) == Accepting(b, Watchers(b, j));
    assert Broadcast(b, j, e) == Broadcast(a, j, e).(active := active);
  }

  // Dropping the worker's old binding and the stale ids at the front.
  lemma FetchSkips(s: World, w: WorkerId, i: nat)
    requires Inv(s) && i <= |s.m.queue| && forall a | 0 <= a < i :: !IsPending(s.m.jobs, s.m.queue[a])
    ensures Inv(s.(m := s.m.(active := s.m.active - {w}, queue := s.m.queue[i..])))
  {
    var s' := s.(m := s.m.(active := s.m.active - {w}, queue := s.m.queue[i..]));
    QueueProofs.QueueDrop(s.m.jobs, i, s.m.queue, s.creating, s.issued);
    StreamProofs.StreamFrame(s.m, s'.m, s.issued);
    assert forall k :: Watchers(s'.m, k) == Watchers(s.m, k);
    hide StreamInv, QueueInv, JobInv, Watchers;
  }

  lemma FetchLoopKeeps(s: World, w: WorkerId, now: Now)
    requires Inv(s)
    ensures Inv(s.(m := FetchLoop(s.m.(active := s.m.active - {w}), w, now).0))
  {
    var m1 := s.m.(active := s.m.active - {w});
    QueueProofs.FetchLoopIs(m1, w, now);
    var i := QueueProofs.FirstPending(s.m.jobs, s.m.queue);
    hide Inv, FetchLoop, AssignHead;
    FetchSkips(s, w, i);
    var s2 := s.(m := m1.(queue := s.m.queue[i..]));
    if i == |s.m.queue| {
      assert s.m.queue[i..] == [];
    } else if s2.m.jobs[s2.m.queue[0]].TakeSlot(w, now).status.Pending? {
      AssignStaysPending(s2, w, now);
    } else {
      AssignFills(s2, w, now);
    }
  }

  lemma FetchKeeps(s: World, w: WorkerId, now: Now)
    requires Inv(s)
    ensures Inv(Apply(s, Fetch(w, now)))
  {
    var m' := FetchJob(s.m, w, now).0;
    if Replays(s.m, w) {
      TouchInv(s.m.jobs[s.m.active[w]], w, now);
      Updating(s, s.m.active[w], s.m.jobs[s.m.active[w]].Touch(w, now));
    } else {
      FetchLoopKeeps(s, w, now);
    }
    hide Inv, FetchLoop;
    InvFrame(s.(m := m'), Apply(s, Fetch(w, now)));
  }

  lemma ReadyKeeps(s: World, w: WorkerId, j: JobId, failure: Option<string>, now: Now)
    requires Inv(s)
    ensures Inv(Apply(s, Ready(w, j, failure, now)))
  {
    hide Inv, JobInv, Emit, Job.Close;
    var (m', reply, c) := ReportReady(s.m, w, j, failure, now);
    var rest := if c.Closes? then [ClearBindings(c.crew), Finalize] else [];
    var s1 := Closed(s, m', c, rest);
    if j in s.m.jobs {
      var r := s.m.jobs[j];
      var t := r.Touch(w, now);
      KnownJob(s, j);
      TouchInv(r, w, now);
      if !r.status.Terminal() && w in r.slots {
        if failure.Some? {
          if r.status.Preparing? {
            var f := t.Close(Failed, Some(ReadyFailure(w, failure.value)), now);
            PreparingIsCrewed(t);
            CloseInv(t, Failed, Some(ReadyFailure(w, failure.value)), now);
            ClosesTo(t, Failed, Some(ReadyFailure(w, failure.value)), now);
            ClosingOne(s, j, f, rest);
          } else {
            Updating(s, j, t);
          }
        } else {
          var r' := t.MarkReady(w, s.m.cfg.startDelay, now);
          MarkReadyInv(t, w, s.m.cfg.startDelay, now);
          if r'.status == r.status { Updating(s, j, r'); } else { Announcing(s, j, r', StatusChange); }
        }
      }
    }
    InvFrame(s1, Apply(s, Ready(w, j, failure, now)));
  }

  lemma ReportKeeps(s: World, w: WorkerId, j: JobId, p: Progress, now: Now)
    requires Inv(s)
    ensures Inv(Apply(s, Report(w, j, p, now)))
  {
    hide Inv, JobInv, Emit;
    var (m', ack) := ReportProgress(s.m, w, j, p, now);
    if j in s.m.jobs {
      var r := s.m.jobs[j];
      KnownJob(s, j);
      TouchInv(r, w, now);
      if r.status.Cancelled? {
        Updating(s, j, r.Touch(w, now));
      } else if !r.status.Terminal() && w in r.slots {
        ProgressInv(r, w, p, now);
        Announcing(s, j, r.Touch(w, now).(progress := r.progress[w := SanitizeProgress(p)]), ProgressEvent);
      }
    }
    InvFrame(s.(m := m'), Apply(s, Report(w, j, p, now)));
  }

  lemma PreparingIsCrewed(r: Job)
    requires JobInv(r) && r.status.Preparing?
    ensures Crewed(r)
  {}

  lemma ProgressInv(r: Job, w: WorkerId, p: Progress, now: Now)
    requires JobInv(r) && !r.status.Terminal() && w in r.slots
    ensures JobInv(r.Touch(w, now).(progress := r.progress[w := SanitizeProgress(p)]))
  {}

  lemma BatchKeeps(s: World, w: WorkerId, j: JobId, now: Now)
    requires Inv(s)
    ensures Inv(Apply(s, Batch(w, j, now)))
  {
    hide Inv, JobInv;
    var (m', gate) := FetchFileBatch(s.m, w, j, now);
    if j in s.m.jobs {
      KnownJob(s, j);
      TouchInv(s.m.jobs[j], w, now);
      Updating(s, j, s.m.jobs[j].Touch(w, now));
    }
    InvFrame(s.(m := m'), Apply(s, Batch(w, j, now)));
  }

  // A first result for a RUNNING job.
  lemma ResultCounts(s: World, w: WorkerId, j: JobId, result: WorkerResult, now: Now)
    requires Inv(s) && j in s.m.jobs
    requires s.m.jobs[j].status.Running? && w in s.m.jobs[j].run && w !in s.m.jobs[j].results
    ensures var (m', _, c) := ReportResult(s.m, w, j, result, now);
      Inv(Closed(s, m', c, [Finalize, ClearBindings({w})]))
  {
    var r := s.m.jobs[j];
    var r' := r.AddResult(w, result, now);
    var rest := [Finalize, ClearBindings({w})];
    assert JobInv(r) && SameShape(r, r');
    hide Inv, JobInv, CloseJob;
    AddResultInv(r, w, result, now);
    if !result.success {
      ClosingOne(s, j, r'.Close(Failed, Some(r.FailureOf(w, result)), now), rest);
    } else if |r'.results| == |r'.run| {
      ClosingOne(s, j, r'.Close(Completed, r'.error, now), rest);
    } else {
      Updating(s, j, r');
    }
  }

  // A repeated result, or one for a CANCELLED job.
  lemma ResultKeepsRecord(r: Job, w: WorkerId, result: WorkerResult, now: Now)
    requires JobInv(r) && r.status.Cancelled?
    ensures JobInv(r.AddResult(w, result, now)) && SameShape(r, r.AddResult(w, result, now))
  {}

  lemma ResultChangesNothing(s: World, w: WorkerId, j: JobId, result: WorkerResult, now: Now)
    requires Inv(s) && j in s.m.jobs && w in s.m.jobs[j].run
    requires s.m.jobs[j].status.Cancelled? || (s.m.jobs[j].status.Running? && w in s.m.jobs[j].results)
    ensures Inv(s.(m := ReportResult(s.m, w, j, result, now).0))
  {
    var r := s.m.jobs[j];
    assert JobInv(r);
    hide Inv, JobInv, CloseJob;
    if w in r.results {
      TouchInv(r, w, now);
      Updating(s, j, r.Touch(w, now));
    } else {
      ResultKeepsRecord(r, w, result, now);
      Updating(s, j, r.AddResult(w, result, now));
    }
  }

  // A result the master answers with `unknown_job`.
  lemma ResultRefused(s: World, w: WorkerId, j: JobId, result: WorkerResult, now: Now)
    requires j !in s.m.jobs || w !in s.m.jobs[j].run || !(s.m.jobs[j].status.Running? || s.m.jobs[j].status.Cancelled?)
    ensures ReportResult(s.m, w, j, result, now) == (s.m, ResultReply(true), Stays)
  {}

  lemma ResultStays(s: World, w: WorkerId, j: JobId, result: WorkerResult, now: Now)
    requires j in s.m.jobs && (s.m.jobs[j].status.Cancelled? || w in s.m.jobs[j].results)
    ensures ReportResult(s.m, w, j, result, now).2.Stays?
  {}

  lemma ResultKeeps(s: World, w: WorkerId, j: JobId, result: WorkerResult, now: Now)
    requires Inv(s)
    ensures Inv(Apply(s, Result(w, j, result, now)))
  {
    hide Inv, ReportResult;
    var (m', _, c) := ReportResult(s.m, w, j, result, now);
    var s1 := Closed(s, m', c, [Finalize, ClearBindings({w})]);
    if j in s.m.jobs && w in s.m.jobs[j].run && (s.m.jobs[j].status.Running? || s.m.jobs[j].status.Cancelled?) {
      if w in s.m.jobs[j].results || s.m.jobs[j].status.Cancelled? {
        ResultChangesNothing(s, w, j, result, now);
        ResultStays(s, w, j, result, now);
      } else {
        ResultCounts(s, w, j, result, now);
      }
    } else {
      ResultRefused(s, w, j, result, now);
    }
    InvFrame(s1, Apply(s, Result(w, j, result, now)));
  }

  /** DeleteJob, a manifest failure or the staleness tick closing an open job. */
  lemma AbortKeeps(s: World, step: Step)
    requires Inv(s) && Enabled(s, step) && (step.Delete? || step.ManifestFails? || step.TickFail?)
    ensures Inv(Apply(s, step))
  {
    hide Inv, JobInv, Job.Close, CloseJob, Crewed;
    var j := step.job;
    if IsOpen(s.m.jobs, j) {
      var r := s.m.jobs[j];
      KnownJob(s, j);
      MayClose(r, step);
      match step {
        case Delete(_, now) =>
          CloseInv(r, Cancelled, r.error, now);
          ClosesTo(r, Cancelled, r.error, now);
          ClosingOne(s, j, r.Close(Cancelled, r.error, now), AfterDelete(r.slots.Keys, IsPending(s.m.jobs, j)));
        case ManifestFails(_, reason, now) =>
          CloseInv(r, Failed, Some(ManifestFailure(reason)), now);
          ClosesTo(r, Failed, Some(ManifestFailure(reason)), now);
          ClosingOne(s, j, r.Close(Failed, Some(ManifestFailure(reason)), now), [ClearBindings(r.slots.Keys), Finalize]);
        case TickFail(_, why, now) =>
          CloseInv(r, Failed, Some(why), now);
          ClosesTo(r, Failed, Some(why), now);
          ClosingOne(s, j, r.Close(Failed, Some(why), now), [ClearBindings(r.slots.Keys), Finalize]);
      }
    }
  }

  lemma ClosesTo(r: Job, final: Status, why: Option<Failure>, now: Now)
    ensures r.Close(final, why, now).status == final
  {}

  // A manifest failure or a tick finds a full crew.
  lemma MayClose(r: Job, step: Step)
    requires JobInv(r) && !r.status.Terminal()
    ensures step.ManifestFails? && r.manifestStarted ==> Crewed(r)
    ensures r.status.Preparing? || r.status.Running? ==> Crewed(r)
  {}

  lemma WatchKeeps(s: World, j: JobId, c: ChanId)
    requires Inv(s) && j in s.m.jobs && c !in s.m.chans
    ensures Inv(Apply(s, Watch(j, c)))
  {
    hide StreamInv, QueueInv, JobInv, JobsInv, FlightInv, Watchers;
    var s' := Apply(s, Watch(j, c));
    KnownJob(s, j);
    StreamProofs.Subscribed(s.m, j, c, s.issued);
    StreamProofs.WatchFacts(s.m, j, c);
    assert s'.m.queue == s.m.queue && s'.m.cfg == s.m.cfg;
    hide WatchJob;
    WatchedFlight(s, s', j, c);
    SameJobs(s, s');
  }

  // Only an open job gains a watcher.
  lemma WatchedFlight(s: World, s': World, j: JobId, c: ChanId)
    requires FlightInv(s) && s'.m.jobs == s.m.jobs && s'.m.cfg == s.m.cfg
    requires s'.closing == s.closing && s'.gc == s.gc && s'.issued == s.issued
    requires forall k :: Watchers(s'.m, k) == if k == j && IsOpen(s.m.jobs, k) then Watchers(s.m, k) + {c} else Watchers(s.m, k)
    ensures FlightInv(s')
  {
    hide Watchers;
  }

  lemma SameJobs(s: World, s': World)
    requires JobsInv(s) && s'.m.jobs == s.m.jobs && s'.issued == s.issued
    ensures JobsInv(s')
  {
    hide JobInv;
  }

  lemma CollectKeeps(s: World, nowMs: int)
    requires Inv(s) && s.gc.GcIdle?
    ensures Inv(Apply(s, Collect(nowMs)))
  {
    hide StreamInv, QueueInv, JobInv;
  }

  // Steps that open no job, drop no closing RPC's `Finalize` before it has run, and add no watcher.
  lemma FlightShrinks(s: World, s': World)
    requires FlightInv(s) && s'.issued == s.issued && s'.m.cfg == s.m.cfg
    requires s'.gc.GcIdle? || (s'.gc == s.gc && s'.m.jobs == s.m.jobs)
    requires forall k :: IsOpen(s'.m.jobs, k) <==> IsOpen(s.m.jobs, k)
    requires forall k :: Watchers(s'.m, k) <= Watchers(s.m, k)
    requires s'.closing.Keys == s.closing.Keys
    requires forall k | k in s.closing && Finalize in s.closing[k] && Watchers(s'.m, k) != {} :: Finalize in s'.closing[k]
    ensures FlightInv(s')
  {
    forall k | Watchers(s'.m, k) != {} && !IsOpen(s'.m.jobs, k) ensures k in s'.closing && Finalize in s'.closing[k] {
      assert Watchers(s'.m, k) <= Watchers(s.m, k);
    }
  }

  lemma RemoveKeeps(s: World)
    requires Inv(s) && s.gc.GcPicked?
    ensures Inv(Apply(s, Remove))
  {
    var s' := Apply(s, Remove);
    assert forall k :: Watchers(s'.m, k) == Watchers(s.m, k);
    assert forall k :: IsOpen(s'.m.jobs, k) <==> IsOpen(s.m.jobs, k);
    assert JobsInv(s') by { hide JobInv; }
    hide StreamInv, QueueInv, FlightInv, JobInv, JobsInv, Watchers;
    FlightShrinks(s, s');
    assert forall j | j in s.gc.ids && j in s.m.jobs :: s.m.jobs[j].status.Terminal() by { PickedAreFinal(s); }
    StreamProofs.RemoveJobs(s.m, s.gc.ids, s.issued);
    QueueProofs.QueueFrame(s.m.jobs, s'.m.jobs, s.m.queue, s.creating, s.issued);
  }

  lemma PickedAreFinal(s: World)
    requires FlightInv(s) && s.gc.GcPicked?
    ensures forall j | j in s.gc.ids && j in s.m.jobs :: s.m.jobs[j].status.Terminal()
  {}

  lemma ProceedKeeps(s: World, j: JobId)
    requires Inv(s) && j in s.closing && s.closing[j] != []
    ensures Inv(Apply(s, Proceed(j)))
  {
    hide StreamInv, QueueInv, FlightInv, JobInv, JobsInv, IsPending;
    var s' := Apply(s, Proceed(j));
    var section := s.closing[j][0];
    assert s.closing[j] == [section] + s.closing[j][1..];
    ClosingIsOver(s, j);
    assert forall k :: Watchers(s'.m, k) == if section.Finalize? && k == j then {} else Watchers(s.m, k);
    hide Watchers, IsOpen;
    FlightShrinks(s, s');
    SameJobs(s, s');
    match section {
      case Finalize =>
        StreamProofs.Finalized(s.m, j, s.issued);
      case RemovePending =>
        StreamProofs.StreamFrame(s.m, s'.m, s.issued);
        QueueProofs.QueueRemove(s.m.jobs, j, s.m.queue, s.creating, s.issued);
      case ClearBindings(crew) =>
        StreamProofs.StreamFrame(s.m, s'.m, s.issued);
    }
  }

  lemma ClosingIsOver(s: World, j: JobId)
    requires Inv(s) && j in s.closing
    ensures !IsOpen(s.m.jobs, j) && !IsPending(s.m.jobs, j)
  {
    hide JobsInv, QueueInv, StreamInv;
  }

  lemma UnbindKeeps(s: World, j: JobId, w: WorkerId)
    requires Inv(s) && (j, w) in s.clears
    ensures Inv(Apply(s, Unbind(j, w)))
  {
    hide StreamInv, QueueInv, JobInv, JobsInv, FlightInv;
    var s' := Apply(s, Unbind(j, w));
    StreamProofs.StreamFrame(s.m, s'.m, s.issued);
    assert forall k :: Watchers(s'.m, k) == Watchers(s.m, k);
    hide Watchers;
    FlightShrinks(s, s');
    SameJobs(s, s');
  }

  lemma ClientKeeps(s: World, step: Step)
    requires Inv(s) && Enabled(s, step) && (step.Take? || step.HangUp?)
    ensures Inv(Apply(s, step))
  {
    hide StreamInv, QueueInv, JobInv, JobsInv, FlightInv;
    var s' := Apply(s, step);
    StreamProofs.ClientMoves(s.m, step.chan, s'.m.chans[step.chan], s.issued);
    assert forall k :: Watchers(s'.m, k) == Watchers(s.m, k);
    hide Watchers;
    FlightShrinks(s, s');
    SameJobs(s, s');
  }

  /** One step, any step. */
  lemma StepKeepsInv(s: World, step: Step)
    requires Inv(s) && Enabled(s, step)
    ensures Inv(Apply(s, step))
  {
    hide Inv;
    match step {
      case Create(_, _, _, _) => CreateKeeps(s, step);
      case Enqueue(j) => EnqueueKeeps(s, j);
      case Fetch(w, now) => FetchKeeps(s, w, now);
      case Ready(w, j, failure, now) => ReadyKeeps(s, w, j, failure, now);
      case Report(w, j, p, now) => ReportKeeps(s, w, j, p, now);
      case Batch(w, j, now) => BatchKeeps(s, w, j, now);
      case Result(w, j, result, now) => ResultKeeps(s, w, j, result, now);
      case Delete(_, _) => AbortKeeps(s, step);
      case ManifestFails(_, _, _) => AbortKeeps(s, step);
      case TickFail(_, _, _) => AbortKeeps(s, step);
      case Watch(j, c) => WatchKeeps(s, j, c);
      case Collect(nowMs) => CollectKeeps(s, nowMs);
      case Remove => RemoveKeeps(s);
      case Proceed(j) => ProceedKeeps(s, j);
      case Unbind(j, w) => UnbindKeeps(s, j, w);
      case Take(_) => ClientKeeps(s, step);
      case HangUp(_) => ClientKeeps(s, step);
      case Shutdown(_) => InvFrame(s, Apply(s, step));
    }
  }
}
