/**
 What the master's replies say, in terms of the records alone: the indices workers are
 told, whom FetchJob leaves without work, and when a worker hears that its job is
 cancelled or not its any more (crates/cvd-master/src/scheduler, service/worker_rpc.rs).
 */
module Answers {
  import opened Types
  import opened Aggregation
  import opened Jobs
  import opened MasterState
  import opened Interleaving
  import opened Effects
  import opened Runs
  import opened Slots
  import Endings

  // -------------------------------------------------------------------- indices

  // Indices in records are never negative.
  ghost predicate CountsUp(m: Master) { forall j, w | j in m.jobs && w in m.jobs[j].slots :: m.jobs[j].slots[w] >= 0 }

  lemma {:induction false} IndicesCountUp(cfg: Config, run: Run, i: nat)
    requires IsRun(cfg, run) && i < |run.states|
    ensures CountsUp(run.states[i].m)
  {
    if i == 0 {
      hide Enabled, Apply;
    } else {
      hide *;
      StepAt(cfg, run, i - 1);
      IndicesCountUp(cfg, run, i - 1);
      AlwaysInv(cfg, run, i - 1);
      StepCountsUp(run.states[i - 1], run.steps[i - 1]);
    }
  }

  lemma StepCountsUp(s: World, step: Step)
    requires Inv(s) && Enabled(s, step) && CountsUp(s.m)
    ensures CountsUp(Apply(s, step).m)
  {
    hide Inv, Enabled, Apply;
    var s' := Apply(s, step);
    forall j, w | j in s'.m.jobs && w in s'.m.jobs[j].slots ensures s'.m.jobs[j].slots[w] >= 0 {
      if j !in s.m.jobs {
        NewRecord(s, step, j);
      } else if step.Fetch? {
        FetchCountsUp(s, step.worker, step.now);
        FetchApplied(s, step.worker, step.now);
      } else {
        StepFollows(s, step, j);
      }
    }
  }

  lemma FetchApplied(s: World, w: WorkerId, now: Now)
    ensures Apply(s, Fetch(w, now)).m == FetchJob(s.m, w, now).0
  {
    hide FetchJob;
  }

  lemma FetchCountsUp(s: World, w: WorkerId, now: Now)
    requires Inv(s) && CountsUp(s.m)
    ensures CountsUp(FetchJob(s.m, w, now).0)
  {
    hide Inv, Job.TakeSlot;
    if !Replays(s.m, w) {
      var i := FetchEffect(s, w, now);
      hide FetchJob;
      if i < |s.m.queue| { SlotsTaken(s.m.jobs[s.m.queue[i]], w, now); }
    }
  }

  /**
   A worker is told its own index: that of the slot the record holds for it, as long as
   that fits the 32 bits of the reply.
   */
  lemma FetchTellsTheSlot(cfg: Config, run: Run, i: nat, w: WorkerId, now: Now)
    requires IsRun(cfg, run) && i < |run.steps| && run.steps[i] == Fetch(w, now)
    requires FetchJob(run.states[i].m, w, now).1.Assigned?
    ensures var reply := FetchJob(run.states[i].m, w, now).1;
      && reply.job in run.states[i + 1].m.jobs && w in run.states[i + 1].m.jobs[reply.job].slots
      && var slot := run.states[i + 1].m.jobs[reply.job].slots[w];
         slot >= 0 && (slot <= 0x7fff_ffff ==> reply.index == slot)
  {
    hide FetchJob, Apply, Enabled, Inv;
    AlwaysInv(cfg, run, i);
    IndicesCountUp(cfg, run, i + 1);
    ReplyIsRecorded(run.states[i], w, now);
    FetchApplied(run.states[i], w, now);
  }

  /** Two workers of one job are never told the same index. */
  lemma NoTwoWorkersShareAnIndex(cfg: Config, run: Run, i: nat, k: nat, v: WorkerId, w: WorkerId, t: Now, u: Now)
    requires IsDisciplinedRun(cfg, run) && i < k < |run.steps| && v != w
    requires run.steps[i] == Fetch(v, t) && run.steps[k] == Fetch(w, u)
    requires var a, b := FetchJob(run.states[i].m, v, t).1, FetchJob(run.states[k].m, w, u).1;
      a.Assigned? && b.Assigned? && a.job == b.job
      && a.job in run.states[k + 1].m.jobs && |run.states[k + 1].m.jobs[a.job].slots| <= 0x8000_0000
    ensures FetchJob(run.states[i].m, v, t).1.index != FetchJob(run.states[k].m, w, u).1.index
  {
    hide FetchJob, Apply, Enabled, Inv, Disciplined, SlotInv;
    var j := FetchJob(run.states[i].m, v, t).1.job;
    FetchTellsTheSlot(cfg, run, i, v, t);
    FetchTellsTheSlot(cfg, run, k, w, u);
    SlotStays(cfg, run, i + 1, k + 1, v, j);
    SlotsInEveryRun(cfg, run, k + 1);
    hide IsDisciplinedRun, IsRun;
    DenseApart(run.states[k + 1].m.jobs[j].slots, v, w);
  }

  lemma DenseApart(slots: map<WorkerId, int>, v: WorkerId, w: WorkerId)
    requires Dense(slots) && v in slots && w in slots && v != w
    ensures slots[v] != slots[w] && slots[v] < |slots| && slots[w] < |slots|
  {}

  // ------------------------------------------------------------- who gets work

  // The worker has a slot of an open job it is bound to.
  ghost predicate HasWork(m: Master, w: WorkerId) {
    w in m.active && m.active[w] in m.jobs && w in m.jobs[m.active[w]].slots
    && var st := m.jobs[m.active[w]].status; st.Pending? || st.Preparing? || st.Running?
  }

  /**
   FetchJob keeps a worker on the open job it is bound to. Any other worker gets a slot if
   any job that is queued wants one: it goes away empty-handed exactly when none does.
   */
  lemma FetchFindsWork(cfg: Config, run: Run, i: nat, w: WorkerId, now: Now)
    requires IsRun(cfg, run) && i < |run.states|
    ensures var m := run.states[i].m; var reply := FetchJob(m, w, now).1;
      && (HasWork(m, w) ==> reply.Assigned? && reply.job == m.active[w])
      && (!HasWork(m, w) ==> (reply.NoJob? <==> forall j | j in m.queue && j in m.jobs :: m.jobs[j].status != Pending))
      && (!HasWork(m, w) && reply.Assigned? ==> reply.job in m.jobs && m.jobs[reply.job].status == Pending)
  {
    AlwaysInv(cfg, run, i);
    var s := run.states[i];
    hide Inv, IsRun, Job.TakeSlot;
    if HasWork(s.m, w) {
      WorkIsReplayed(s.m, w, now);
    } else {
      NoWorkNoReplay(s.m, w);
      var k := FetchEffect(s, w, now);
      hide FetchJob;
      if k < |s.m.queue| { assert s.m.queue[k] in s.m.queue; }
    }
  }

  lemma WorkIsReplayed(m: Master, w: WorkerId, now: Now)
    requires HasWork(m, w)
    ensures FetchJob(m, w, now).1.Assigned? && FetchJob(m, w, now).1.job == m.active[w]
  {}

  lemma NoWorkNoReplay(m: Master, w: WorkerId)
    ensures Replays(m, w) <==> HasWork(m, w)
  {}

  // ------------------------------------------------------ cancelled, or not yours

  // The job is still to be worked on, and `w` has a slot of it.
  ghost predicate WorksOn(m: Master, w: WorkerId, j: JobId) {
    j in m.jobs && w in m.jobs[j].slots && var st := m.jobs[j].status; st.Pending? || st.Preparing? || st.Running?
  }

  ghost predicate WasCancelled(m: Master, j: JobId) { j in m.jobs && m.jobs[j].status == Cancelled }

  /**
   A worker that reports ready is told "cancelled" exactly when its job was, "unknown" exactly
   when it has no open job of that id, and otherwise the start time its job has by then.
   */
  lemma ReadyIsAnswered(cfg: Config, run: Run, i: nat, w: WorkerId, j: JobId, now: Now)
    requires IsRun(cfg, run) && i < |run.steps| == |run.states| - 1 && run.steps[i] == Ready(w, j, None, now)
    ensures ReadyReplied(run.states[i].m, run.states[i + 1].m, w, j, ReportReady(run.states[i].m, w, j, None, now).1)
  {
    hide *;
    StepAt(cfg, run, i);
    AlwaysInv(cfg, run, i);
    ReadyApplied(run.states[i], w, j, None, now);
    if j in run.states[i].m.jobs { KnownJob(run.states[i], j); }
    ReadyReplyIs(run.states[i].m, w, j, now);
  }

  ghost predicate ReadyReplied(m: Master, m': Master, w: WorkerId, j: JobId, reply: ReadyReply) {
    && (reply.cancelled <==> WasCancelled(m, j))
    && (reply.unknown <==> !WasCancelled(m, j) && !WorksOn(m, w, j))
    && (WorksOn(m, w, j) ==> j in m'.jobs && reply.startAt == m'.jobs[j].startAt && w in m'.jobs[j].ready)
    && (!WorksOn(m, w, j) ==> reply.startAt == 0)
  }

  lemma ReadyApplied(s: World, w: WorkerId, j: JobId, failure: Option<string>, now: Now)
    ensures Apply(s, Ready(w, j, failure, now)).m == ReportReady(s.m, w, j, failure, now).0
  {
    hide ReportReady;
  }

  lemma ReadyReplyIs(m: Master, w: WorkerId, j: JobId, now: Now)
    requires j in m.jobs ==> JobInv(m.jobs[j])
    ensures var (m', reply, _) := ReportReady(m, w, j, None, now); ReadyReplied(m, m', w, j, reply)
  {
    hide Emit, JobInv, Job.MarkReady;
    if j in m.jobs && WorksOn(m, w, j) {
      var r := m.jobs[j].Touch(w, now).MarkReady(w, m.cfg.startDelay, now);
      EmitJobs(m, j, r, StatusChange);
      IsMarked(m.jobs[j], w, m.cfg.startDelay, now);
    }
  }

  // In a good record a worker of a RUNNING job is marked ready already.
  lemma IsMarked(r: Job, w: WorkerId, delay: int, now: Now)
    requires JobInv(r) && w in r.slots && !r.status.Terminal()
    ensures w in r.Touch(w, now).MarkReady(w, delay, now).ready
  {}

  /** A worker reporting that it cannot start fails its PREPARING job, and no other. */
  lemma FailureToStartIsAnswered(cfg: Config, run: Run, i: nat, w: WorkerId, j: JobId, reason: string, now: Now)
    requires IsRun(cfg, run) && i < |run.steps| == |run.states| - 1 && run.steps[i] == Ready(w, j, Some(reason), now)
    ensures FailureReplied(run.states[i].m, run.states[i + 1].m, w, j, reason, ReportReady(run.states[i].m, w, j, Some(reason), now).1)
  {
    hide *;
    StepAt(cfg, run, i);
    ReadyApplied(run.states[i], w, j, Some(reason), now);
    FailureReplyIs(run.states[i].m, w, j, reason, now);
  }

  ghost predicate FailureReplied(m: Master, m': Master, w: WorkerId, j: JobId, reason: string, reply: ReadyReply) {
    && (reply.cancelled <==> WasCancelled(m, j))
    && (reply.unknown <==> !WasCancelled(m, j) && !(WorksOn(m, w, j) && m.jobs[j].status == Preparing))
    && (WorksOn(m, w, j) && m.jobs[j].status == Preparing ==>
          j in m'.jobs && m'.jobs[j].status == Failed && m'.jobs[j].error == Some(ReadyFailure(w, reason)))
    && reply.startAt == 0
  }

  lemma FailureReplyIs(m: Master, w: WorkerId, j: JobId, reason: string, now: Now)
    ensures var (m', reply, _) := ReportReady(m, w, j, Some(reason), now); FailureReplied(m, m', w, j, reason, reply)
  {
    hide Emit, Summarize, Values;
    if j in m.jobs { EmitJobs(m, j, m.jobs[j].Touch(w, now).Close(Failed, Some(ReadyFailure(w, reason)), now), StatusChange); }
  }

  /**
   Progress is kept, under the worker's own name and with metrics only for the warm-up and the
   measurement, exactly while the worker works on the job; else it is told why not.
   */
  lemma ProgressIsAnswered(cfg: Config, run: Run, i: nat, w: WorkerId, j: JobId, p: Progress, now: Now)
    requires IsRun(cfg, run) && i < |run.steps| == |run.states| - 1 && run.steps[i] == Report(w, j, p, now)
    ensures var m := run.states[i].m; var ack := ReportProgress(m, w, j, p, now).1;
      && (ack.cancelled <==> WasCancelled(m, j))
      && (ack.unknown <==> !WasCancelled(m, j) && !WorksOn(m, w, j))
    ensures forall k | k in run.states[i].m.jobs ::
      && k in run.states[i + 1].m.jobs
      && if k == j && WorksOn(run.states[i].m, w, j)
         then ProgressKept(run.states[i].m.jobs[k].progress, run.states[i + 1].m.jobs[k].progress, w, p)
         else run.states[i + 1].m.jobs[k].progress == run.states[i].m.jobs[k].progress
  {
    hide *;
    StepAt(cfg, run, i);
    ReportApplied(run.states[i], w, j, p, now);
    ProgressReplyIs(run.states[i].m, w, j, p, now);
  }

  ghost predicate ProgressKept(before: map<WorkerId, Progress>, after: map<WorkerId, Progress>, w: WorkerId, p: Progress) {
    w in after && after - {w} == before - {w} && Kept(p, after[w])
  }

  lemma ReportApplied(s: World, w: WorkerId, j: JobId, p: Progress, now: Now)
    ensures Apply(s, Report(w, j, p, now)).m == ReportProgress(s.m, w, j, p, now).0
  {
    hide ReportProgress;
  }

  lemma ProgressReplyIs(m: Master, w: WorkerId, j: JobId, p: Progress, now: Now)
    ensures var (m', ack) := ReportProgress(m, w, j, p, now);
      && (ack.cancelled <==> WasCancelled(m, j))
      && (ack.unknown <==> !WasCancelled(m, j) && !WorksOn(m, w, j))
      && forall k | k in m.jobs ::
           && k in m'.jobs
           && if k == j && WorksOn(m, w, j) then ProgressKept(m.jobs[k].progress, m'.jobs[k].progress, w, p)
              else m'.jobs[k].progress == m.jobs[k].progress
  {
    hide Emit, ProgressKept;
    if j in m.jobs {
      var r := m.jobs[j].Touch(w, now).(progress := m.jobs[j].progress[w := SanitizeProgress(p)]);
      EmitJobs(m, j, r, ProgressEvent);
      SanitizedIsKept(m.jobs[j].progress, w, p);
    }
  }

  lemma SanitizedIsKept(before: map<WorkerId, Progress>, w: WorkerId, p: Progress)
    ensures ProgressKept(before, before[w := SanitizeProgress(p)], w, p)
  {
    assert before[w := SanitizeProgress(p)] - {w} == before - {w};
  }

  ghost predicate Kept(p: Progress, kept: Progress) {
    && kept.elapsed == p.elapsed && kept.phase == p.phase
    && kept.perOp == if p.phase == Warmup || p.phase == Measuring then p.perOp else map[]
  }

  /** Only a run worker is let through to the files, and only while its job with a manifest is RUNNING. */
  lemma BatchIsAnswered(m: Master, w: WorkerId, j: JobId, now: Now)
    ensures var gate := FetchFileBatch(m, w, j, now).1;
      && (gate == GateCancelled <==> WasCancelled(m, j) && w in m.jobs[j].run)
      && (gate == GateOpen <==> j in m.jobs && w in m.jobs[j].run && m.jobs[j].status == Running && m.jobs[j].manifestStarted)
  {}

  /**
   A result counts for a RUNNING job once per run worker; for a cancelled job it is accepted and
   not recorded; for any other it is refused.
   */
  lemma ResultIsAnswered(cfg: Config, run: Run, i: nat, w: WorkerId, j: JobId, result: WorkerResult, now: Now)
    requires IsRun(cfg, run) && i < |run.steps| == |run.states| - 1 && run.steps[i] == Result(w, j, result, now)
    ensures var m := run.states[i].m; var reply := ReportResult(m, w, j, result, now).1;
      reply.unknown <==> !(j in m.jobs && w in m.jobs[j].run && (m.jobs[j].status == Running || m.jobs[j].status == Cancelled))
    ensures var m, m' := run.states[i].m, run.states[i + 1].m;
      j in m.jobs ==> j in m'.jobs && ResultKept(m.jobs[j], m'.jobs[j], w, result)
  {
    hide *;
    StepAt(cfg, run, i);
    ResultApplied(run.states[i], w, j, result, now);
    ResultReplyIs(run.states[i].m, w, j, result, now);
    AlwaysInv(cfg, run, i);
    if j in run.states[i].m.jobs {
      KnownJob(run.states[i], j);
      ResultsAfter(run.states[i].m, w, j, result, now);
    }
  }

  lemma ResultApplied(s: World, w: WorkerId, j: JobId, result: WorkerResult, now: Now)
    ensures Apply(s, Result(w, j, result, now)).m == ReportResult(s.m, w, j, result, now).0
  {
    hide ReportResult;
  }

  // A first result is recorded unless the job was cancelled, and shown as the worker's progress in any case.
  ghost predicate ResultKept(r: Job, r': Job, w: WorkerId, result: WorkerResult) {
    && r'.results == Recorded(r, w, result)
    && (w in r.run && w !in r.results && (r.status == Running || r.status == Cancelled) ==>
          LastSeenAs(r.progress, r'.progress, w, result))
  }

  // The worker's last progress is what its result says.
  ghost predicate LastSeenAs(before: map<WorkerId, Progress>, after: map<WorkerId, Progress>, w: WorkerId, result: WorkerResult) {
    && w in after && after - {w} == before - {w}
    && after[w] == Progress(result.duration, if result.success then Finished else Unspecified, result.perOp)
  }

  lemma ResultsAfter(m: Master, w: WorkerId, j: JobId, result: WorkerResult, now: Now)
    requires j in m.jobs && JobInv(m.jobs[j])
    ensures var m' := ReportResult(m, w, j, result, now).0;  j in m'.jobs && ResultKept(m.jobs[j], m'.jobs[j], w, result)
  {
    hide ReportResult, ResultKept, Endings.AfterResult;
    Endings.ResultRewrites(m, w, j, result, now);
    if w in m.jobs[j].run && (m.jobs[j].status == Running || m.jobs[j].status == Cancelled) {
      RecordKeepsResult(m.jobs[j], w, result, now);
    }
    NothingToKeep(m.jobs[j], w, result);
  }

  lemma RecordKeepsResult(r: Job, w: WorkerId, result: WorkerResult, now: Now)
    requires JobInv(r) && w in r.run && (r.status == Running || r.status == Cancelled)
    ensures ResultKept(r, Endings.AfterResult(r, w, result, now), w, result)
  {
    hide Summarize, Values, JobInv, LastSeenAs;
    AddResultShows(r, w, result, now);
  }

  lemma AddResultShows(r: Job, w: WorkerId, result: WorkerResult, now: Now)
    ensures LastSeenAs(r.progress, r.AddResult(w, result, now).progress, w, result)
  {
    var last := r.AddResult(w, result, now).progress[w];
    assert r.progress[w := last] - {w} == r.progress - {w};
  }

  lemma NothingToKeep(r: Job, w: WorkerId, result: WorkerResult)
    ensures w !in r.run || !(r.status == Running || r.status == Cancelled) ==> ResultKept(r, r, w, result)
  {}

  // The results after one more, of a RUNNING job and a run worker without one.
  function Recorded(r: Job, w: WorkerId, result: WorkerResult): map<WorkerId, WorkerResult> {
    if r.status == Running && w in r.run && w !in r.results then r.results[w := result] else r.results
  }

  lemma ResultReplyIs(m: Master, w: WorkerId, j: JobId, result: WorkerResult, now: Now)
    ensures ReportResult(m, w, j, result, now).1.unknown
       <==> !(j in m.jobs && w in m.jobs[j].run && (m.jobs[j].status == Running || m.jobs[j].status == Cancelled))
  {
    hide Emit, Job.Close;
  }
}
