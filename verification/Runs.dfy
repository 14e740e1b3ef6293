/** What every run of the master guarantees, from one moment of it to another. */
module Runs {
  import opened Types
  import opened Aggregation
  import opened Jobs
  import opened MasterState
  import opened Interleaving
  import opened Effects
  import Safety
  import StreamProofs
  import QueueProofs

  // A run: the states passed through and the steps taken between them.
  datatype Run = Run(states: seq<World>, steps: seq<Step>)

  ghost predicate IsRun(cfg: Config, run: Run) {
    && |run.states| == |run.steps| + 1
    && run.states[0] == Start(cfg)
    && forall i | 0 <= i < |run.steps| ::
         Enabled(run.states[i], run.steps[i]) && run.states[i + 1] == Apply(run.states[i], run.steps[i])
  }

  lemma StepAt(cfg: Config, run: Run, i: nat)
    requires IsRun(cfg, run) && i + 1 < |run.states|
    ensures |run.states| == |run.steps| + 1
    ensures Enabled(run.states[i], run.steps[i]) && run.states[i + 1] == Apply(run.states[i], run.steps[i])
  {
    hide Enabled, Apply;
  }

  /** The invariant holds all along every run. */
  lemma {:induction false} AlwaysInv(cfg: Config, run: Run, i: nat)
    requires IsRun(cfg, run) && i < |run.states|
    ensures Inv(run.states[i])
  {
    if i == 0 {
      Safety.StartInv(cfg);
    } else {
      hide *;
      StepAt(cfg, run, i - 1);
      AlwaysInv(cfg, run, i - 1);
      Safety.StepKeepsInv(run.states[i - 1], run.steps[i - 1]);
    }
  }

  // -------------------------------------------------------- ids never come back

  lemma IssuedStays(s: World, step: Step)
    requires Enabled(s, step)
    ensures s.issued <= Apply(s, step).issued
  {}

  lemma NoReturnStep(s: World, step: Step, j: JobId)
    requires Inv(s) && Enabled(s, step) && j in s.issued && j !in s.m.jobs
    ensures j !in Apply(s, step).m.jobs && j in Apply(s, step).issued
  {
    hide Inv, Emit;
    IssuedStays(s, step);
    if step.Fetch? {
      if !Replays(s.m, step.worker) { var i := FetchEffect(s, step.worker, step.now); }
      hide FetchJob;
    } else if step.Create? {
      EmitJobs(s.m, step.job, NewJob(step.raw, step.manifest, step.now), StatusChange);
    } else if !(step.Remove? || step.Enqueue? || step.Proceed? || step.Unbind?) {
      hide Apply;
      OtherTame(s, step);
      var k :| Tame(s, Apply(s, step), k);
    }
  }

  lemma {:induction false} NoReturn(cfg: Config, run: Run, i: nat, k: nat, j: JobId)
    requires IsRun(cfg, run) && i <= k < |run.states|
    requires j in run.states[i].issued && j !in run.states[i].m.jobs
    ensures j !in run.states[k].m.jobs
    ensures j in run.states[k].issued
  {
    hide *;
    if i < k {
      StepAt(cfg, run, k - 1);
      NoReturn(cfg, run, i, k - 1, j);
      AlwaysInv(cfg, run, k - 1);
      NoReturnStep(run.states[k - 1], run.steps[k - 1], j);
    }
  }

  // --------------------------------------------------- what a record keeps for good

  // The lasting part of `Follows`, which composes along a run.
  ghost predicate Keeps(r: Job, r': Job) {
    && (r.startAt != 0 ==> r'.startAt == r.startAt)
    && (r.status.Terminal() ==> Frozen(r, r'))
    && (r'.status.Pending? ==> r.status.Pending?)
    && (!r.status.Pending? ==> r'.slots == r.slots)
    && r.slots.Keys <= r'.slots.Keys && r.ready <= r'.ready && r.results.Keys <= r'.results.Keys
    && r'.target == r.target
  }

  lemma KeepsSelf(r: Job)
    ensures Keeps(r, r)
  {}

  lemma KeepsOn(r: Job, r': Job, r'': Job)
    requires Keeps(r, r') && Follows(r', r'')
    ensures Keeps(r, r'')
  {}

  lemma KnownBefore(cfg: Config, run: Run, i: nat, k: nat, j: JobId)
    requires IsRun(cfg, run) && i <= k && k + 1 < |run.states|
    requires j in run.states[i].m.jobs && j in run.states[k + 1].m.jobs
    ensures j in run.states[k].m.jobs
  {
    AlwaysInv(cfg, run, i);
    if j !in run.states[k].m.jobs {
      IssuedAlong(cfg, run, i, k, j);
      NoReturn(cfg, run, k, k + 1, j);
    }
  }

  lemma {:induction false} RecordKeeps(cfg: Config, run: Run, i: nat, k: nat, j: JobId)
    requires IsRun(cfg, run) && i <= k < |run.states|
    requires j in run.states[i].m.jobs && j in run.states[k].m.jobs
    ensures Keeps(run.states[i].m.jobs[j], run.states[k].m.jobs[j])
  {
    hide *;
    if i == k {
      KeepsSelf(run.states[i].m.jobs[j]);
    } else {
      StepAt(cfg, run, k - 1);
      KnownBefore(cfg, run, i, k - 1, j);
      RecordKeeps(cfg, run, i, k - 1, j);
      AlwaysInv(cfg, run, k - 1);
      StepFollows(run.states[k - 1], run.steps[k - 1], j);
      KeepsOn(run.states[i].m.jobs[j], run.states[k - 1].m.jobs[j], run.states[k].m.jobs[j]);
    }
  }

  lemma {:induction false} IssuedAlong(cfg: Config, run: Run, i: nat, k: nat, j: JobId)
    requires IsRun(cfg, run) && i <= k < |run.states| && j in run.states[i].issued
    ensures j in run.states[k].issued
  {
    hide *;
    if i < k {
      StepAt(cfg, run, k - 1);
      IssuedAlong(cfg, run, i, k - 1, j);
      IssuedStays(run.states[k - 1], run.steps[k - 1]);
    }
  }

  /**
   A final state is final: until the job is collected its status, error, results,
   stamp and summary never change again, and the summary is the aggregation of
   exactly those results.
   */
  lemma TerminalIsFrozen(cfg: Config, run: Run, i: nat, k: nat, j: JobId)
    requires IsRun(cfg, run) && i <= k < |run.states|
    requires j in run.states[i].m.jobs && run.states[i].m.jobs[j].status.Terminal()
    ensures j in run.states[k].m.jobs ==>
      var r, r' := run.states[i].m.jobs[j], run.states[k].m.jobs[j];
      Frozen(r, r') && r'.summary == Some(Summarize(Values(r.results)))
  {
    AlwaysInv(cfg, run, i);
    assert JobInv(run.states[i].m.jobs[j]);
    if j in run.states[k].m.jobs { RecordKeeps(cfg, run, i, k, j); }
  }

  /** Statuses only move along the documented transitions. */
  lemma OnlyDocumentedTransitions(cfg: Config, run: Run, i: nat, j: JobId)
    requires IsRun(cfg, run) && i < |run.steps|
    requires j in run.states[i].m.jobs && j in run.states[i + 1].m.jobs
    ensures var a, b := run.states[i].m.jobs[j].status, run.states[i + 1].m.jobs[j].status;
      a == b || NextStatus(a, b)
  {
    AlwaysInv(cfg, run, i);
    StepFollows(run.states[i], run.steps[i], j);
  }

  /** The counts the handlers compare stand for the sets they mean. */
  lemma CountTestsAreSound(cfg: Config, run: Run, i: nat, j: JobId)
    requires IsRun(cfg, run) && i < |run.states| && j in run.states[i].m.jobs
    ensures var r := run.states[i].m.jobs[j];
      && (r.status.Preparing? ==> r.ready < r.run && r.run == r.slots.Keys && |r.slots| == r.target)
      && (r.status.Running? ==>
           r.ready == r.run == r.slots.Keys && |r.slots| == r.target
           && r.results.Keys < r.run && forall w | w in r.results :: r.results[w].success)
      && (r.status.Completed? ==> r.results.Keys == r.run && forall w | w in r.results :: r.results[w].success)
  {
    AlwaysInv(cfg, run, i);
    assert JobInv(run.states[i].m.jobs[j]);
  }

  // -------------------------------------------------------------- start barrier

  // The start time that step `i` of the run answers to a ready worker; 0 for none.
  ghost function StartReply(run: Run, i: nat, j: JobId): int
    requires i < |run.steps| && i < |run.states|
  {
    match run.steps[i]
    case Ready(w, k, failure, now) => if k == j then ReportReady(run.states[i].m, w, j, failure, now).1.startAt else 0
    case _ => 0
  }

  lemma StartReplyIsRecorded(cfg: Config, run: Run, i: nat, j: JobId)
    requires IsRun(cfg, run) && i < |run.steps| && StartReply(run, i, j) != 0
    ensures j in run.states[i + 1].m.jobs && run.states[i + 1].m.jobs[j].startAt == StartReply(run, i, j)
  {
    var step := run.steps[i];
    var s := run.states[i];
    var r := s.m.jobs[j];
    EmitJobs(s.m, j, r.Touch(step.worker, step.now).MarkReady(step.worker, s.m.cfg.startDelay, step.now), StatusChange);
    hide Emit;
  }

  // A start time is answered only when every slot is filled and all its workers are marked ready.
  lemma StartFindsAllReady(cfg: Config, run: Run, i: nat, j: JobId)
    requires IsRun(cfg, run) && i < |run.steps| && StartReply(run, i, j) != 0
    ensures j in run.states[i + 1].m.jobs
    ensures var r := run.states[i + 1].m.jobs[j];
      r.ready == r.run == r.slots.Keys && |r.slots| == r.target
  {
    StartReplyIsRecorded(cfg, run, i, j);
    AlwaysInv(cfg, run, i + 1);
    assert JobInv(run.states[i + 1].m.jobs[j]);
  }

  /** All start times ever answered for a job are the same. */
  lemma OneStartTime(cfg: Config, run: Run, i: nat, k: nat, j: JobId)
    requires IsRun(cfg, run) && i <= k < |run.steps|
    requires StartReply(run, i, j) != 0 && StartReply(run, k, j) != 0
    ensures StartReply(run, i, j) == StartReply(run, k, j)
  {
    StartReplyIsRecorded(cfg, run, i, j);
    StartReplyIsRecorded(cfg, run, k, j);
    RecordKeeps(cfg, run, i + 1, k + 1, j);
  }

  // ------------------------------------------------------------------------ GC

  /**
   The collector's second phase removes only jobs that were final, and had been
   so for the whole retention by the clock reading of its first phase, even
   though any number of RPCs may run between the two.
   */
  lemma GcIsPatient(cfg: Config, run: Run, i: nat, j: JobId)
    requires IsRun(cfg, run) && i < |run.steps|
    requires j in run.states[i].m.jobs && j !in run.states[i + 1].m.jobs
    ensures run.steps[i].Remove? && run.states[i].gc.GcPicked?
    ensures var r := run.states[i].m.jobs[j];
      r.status.Terminal() && r.terminalAt.Some?
      && r.terminalAt.value + run.states[i].m.cfg.retention <= run.states[i].gc.nowMs
  {
    AlwaysInv(cfg, run, i);
    var s, step := run.states[i], run.steps[i];
    assert JobInv(s.m.jobs[j]);
    if !step.Remove? {
      OnlyRemoveRemoves(s, step, j);
    }
  }

  lemma OnlyRemoveRemoves(s: World, step: Step, j: JobId)
    requires Inv(s) && Enabled(s, step) && j in s.m.jobs && !step.Remove?
    ensures j in Apply(s, step).m.jobs
  {
    hide Inv, FetchJob, Follows;
    if step.Fetch? {
      FetchFollows(s, step.worker, step.now, j);
    } else if step.Create? {
      EmitJobs(s.m, step.job, NewJob(step.raw, step.manifest, step.now), StatusChange);
      hide Emit;
    } else if step.Enqueue? || step.Proceed? || step.Unbind? {
    } else {
      OtherTame(s, step);
      hide Apply;
      var k :| Tame(s, Apply(s, step), k);
    }
  }

  /**
   The collector is thorough: its first phase picks exactly the final jobs whose whole
   retention has passed, and its second phase removes exactly the picked ones.
   */
  lemma GcIsThorough(cfg: Config, run: Run, i: nat, j: JobId)
    requires IsRun(cfg, run) && i < |run.steps| == |run.states| - 1
    ensures run.steps[i].Collect? ==>
      && run.states[i + 1].gc.GcPicked?
      && (j in run.states[i + 1].gc.ids <==>
            && j in run.states[i].m.jobs
            && var r := run.states[i].m.jobs[j];
               && (r.status.Completed? || r.status.Failed? || r.status.Cancelled?)
               && r.terminalAt.Some? && r.terminalAt.value + run.states[i].m.cfg.retention <= run.steps[i].nowMs)
    ensures run.steps[i].Remove? ==>
      && run.states[i].gc.GcPicked?
      && (j in run.states[i + 1].m.jobs <==> j in run.states[i].m.jobs && j !in run.states[i].gc.ids)
      && (j in run.states[i + 1].m.jobs ==> run.states[i + 1].m.jobs[j] == run.states[i].m.jobs[j])
  {
    hide *;
    StepAt(cfg, run, i);
    AlwaysInv(cfg, run, i);
    if j in run.states[i].m.jobs {
      KnownJob(run.states[i], j);
      FinalIsStamped(run.states[i].m.jobs[j]);
    }
    CollectPicks(run.states[i], run.steps[i], j);
    RemoveTakes(run.states[i], run.steps[i], j);
  }

  lemma CollectPicks(s: World, step: Step, j: JobId)
    requires Enabled(s, step)
    requires j in s.m.jobs ==> s.m.jobs[j].status.Terminal() ==> s.m.jobs[j].terminalAt.Some?
    ensures step.Collect? ==>
      && Apply(s, step).gc.GcPicked?
      && (j in Apply(s, step).gc.ids <==>
            && j in s.m.jobs
            && var r := s.m.jobs[j];
               && (r.status.Completed? || r.status.Failed? || r.status.Cancelled?)
               && r.terminalAt.Some? && r.terminalAt.value + s.m.cfg.retention <= step.nowMs)
  {}

  lemma RemoveTakes(s: World, step: Step, j: JobId)
    requires Enabled(s, step)
    ensures step.Remove? ==>
      && s.gc.GcPicked?
      && (j in Apply(s, step).m.jobs <==> j in s.m.jobs && j !in s.gc.ids)
      && (j in Apply(s, step).m.jobs ==> Apply(s, step).m.jobs[j] == s.m.jobs[j])
  {}

  lemma FinalIsStamped(r: Job)
    requires JobInv(r)
    ensures r.status.Terminal() ==> r.terminalAt.Some?
  {}

  // ---------------------------------------------------------------------- FIFO

  /**
   Every PENDING job waits in the queue exactly once, or its CreateJob is about
   to append it; it always has a free slot; and if it holds slots nobody PENDING
   is ahead of it.
   */
  lemma QueueIsFifo(cfg: Config, run: Run, i: nat, j: JobId)
    requires IsRun(cfg, run) && i < |run.states| && IsPending(run.states[i].m.jobs, j)
    ensures var s := run.states[i];
      && s.m.jobs[j].SlotsRemaining() > 0
      && ((j in s.m.queue && j !in s.creating) || (j in s.creating && j !in s.m.queue))
      && (forall a, b | 0 <= a < |s.m.queue| && 0 <= b < |s.m.queue| && s.m.queue[a] == s.m.queue[b] == j :: a == b)
      && (s.m.jobs[j].slots != map[] ==>
           j in s.m.queue && forall a, b | 0 <= a < b < |s.m.queue| && s.m.queue[b] == j :: !IsPending(s.m.jobs, s.m.queue[a]))
  {
    AlwaysInv(cfg, run, i);
    var s := run.states[i];
    assert JobInv(s.m.jobs[j]);
    hide StreamInv;
  }

  // `a` is ahead of `b` if it is still waiting: in the queue, before any `b`, and `b` unserved.
  ghost predicate Ahead(s: World, a: JobId, b: JobId) {
    IsPending(s.m.jobs, a) ==>
      && a in s.m.queue
      && (b in s.m.jobs ==> s.m.jobs[b].slots == map[])
      && Precedes(s.m.queue, a, b)
  }

  ghost predicate Precedes(q: seq<JobId>, a: JobId, b: JobId) {
    forall y | 0 <= y < |q| && q[y] == b :: exists x :: 0 <= x < y && q[x] == a
  }

  lemma AheadMeans(s: World, a: JobId, b: JobId)
    requires Ahead(s, a, b)
    ensures b in s.m.jobs && s.m.jobs[b].slots != map[] ==> !IsPending(s.m.jobs, a)
  {}

  lemma AheadStep(s: World, step: Step, a: JobId, b: JobId)
    requires Inv(s) && Enabled(s, step) && Ahead(s, a, b) && a in s.issued && a != b
    ensures Ahead(Apply(s, step), a, b)
  {
    hide Inv, Follows, FetchJob, Enabled;
    if IsPending(Apply(s, step).m.jobs, a) {
      StillPending(s, step, a);
      if step.Fetch? {
        AheadFetch(s, step.worker, step.now, a, b);
      } else {
        AheadOther(s, step, a, b);
      }
    }
  }

  lemma StillPending(s: World, step: Step, a: JobId)
    requires Inv(s) && Enabled(s, step) && a in s.issued && IsPending(Apply(s, step).m.jobs, a)
    ensures IsPending(s.m.jobs, a)
  {
    hide Inv, Enabled, Apply;
    if a in s.m.jobs { StepFollows(s, step, a); } else { NoReturnStep(s, step, a); }
  }

  lemma AheadOther(s: World, step: Step, a: JobId, b: JobId)
    requires Inv(s) && Enabled(s, step) && Ahead(s, a, b) && a != b && !step.Fetch? && IsPending(s.m.jobs, a)
    ensures Ahead(Apply(s, step), a, b)
  {
    hide Inv, Enabled, Apply, Precedes;
    var s' := Apply(s, step);
    if b in s.m.jobs && b in s'.m.jobs { StepFollows(s, step, b); }
    if b in s'.m.jobs && b !in s.m.jobs { NewRecord(s, step, b); }
    AheadQueue(s, step, a, b);
  }

  lemma ReplayAddsNothing(m: Master, w: WorkerId, now: Now)
    ensures Replays(m, w) ==> FetchJob(m, w, now).0.jobs.Keys == m.jobs.Keys
  {}

  lemma SectionKeepsJobs(m: Master, j: JobId, section: Section)
    ensures RunSection(m, j, section).jobs == m.jobs
  {}

  lemma NewRecord(s: World, step: Step, b: JobId)
    requires Inv(s) && Enabled(s, step) && b !in s.m.jobs && b in Apply(s, step).m.jobs
    ensures Apply(s, step).m.jobs[b].slots == map[]
  {
    hide Inv, Emit, FetchJob, RunSection, ReportReady, ReportProgress, FetchFileBatch, ReportResult, DeleteJob, FailManifest,
      FailStale;
    if b in s.issued { NoReturnStep(s, step, b); }
    if step.Create? {
      EmitJobs(s.m, step.job, NewJob(step.raw, step.manifest, step.now), StatusChange);
    } else if step.Fetch? {
      ReplayAddsNothing(s.m, step.worker, step.now);
      if !Replays(s.m, step.worker) { var i := FetchEffect(s, step.worker, step.now); }
    } else if step.Proceed? {
      SectionKeepsJobs(s.m, step.job, s.closing[step.job][0]);
    } else if step.Remove? || step.Enqueue? || step.Unbind? {
    } else {
      OtherTame(s, step);
      hide Apply;
      var k :| Tame(s, Apply(s, step), k);
    }
  }

  lemma AheadQueue(s: World, step: Step, a: JobId, b: JobId)
    requires Inv(s) && Enabled(s, step) && !step.Fetch?
    requires IsPending(s.m.jobs, a) && a in s.m.queue && Precedes(s.m.queue, a, b) && a != b
    ensures a in Apply(s, step).m.queue && Precedes(Apply(s, step).m.queue, a, b)
  {
    hide Inv, Emit, Precedes;
    if step.Enqueue? {
      AppendKeepsOrder(s.m.queue, step.job, a, b);
    } else if step.Proceed? {
      if s.closing[step.job][0].RemovePending? {
        Safety.ClosingIsOver(s, step.job);
        RemoveKeepsOrder(s.m.queue, step.job, a, b);
      }
    } else if step.Create? {
      EmitJobs(s.m, step.job, NewJob(step.raw, step.manifest, step.now), StatusChange);
    } else if !step.Remove? && !step.Unbind? {
      OtherTame(s, step);
      hide Apply;
      var k :| Tame(s, Apply(s, step), k);
    }
  }

  lemma AppendKeepsOrder(q: seq<JobId>, j: JobId, a: JobId, b: JobId)
    requires a in q && Precedes(q, a, b)
    ensures a in q + [j] && Precedes(q + [j], a, b)
  {
    var q' := q + [j];
    var x :| 0 <= x < |q| && q[x] == a;
    assert q'[x] == a;
    forall y | 0 <= y < |q'| && q'[y] == b ensures exists x :: 0 <= x < y && q'[x] == a {
      if y < |q| {
        assert q[y] == b;
        var x0 :| 0 <= x0 < y && q[x0] == a;
        assert q'[x0] == a;
      }
    }
  }

  lemma RemoveKeepsOrder(q: seq<JobId>, j: JobId, a: JobId, b: JobId)
    requires a in q && Precedes(q, a, b) && j != a
    ensures a in RemoveFirst(q, j) && Precedes(RemoveFirst(q, j), a, b)
  {
    var i := QueueProofs.RemoveFirstIs(q, j);
    var q' := RemoveFirst(q, j);
    if i < |q| {
      var x :| 0 <= x < |q| && q[x] == a;
      assert q'[if x < i then x else x - 1] == a;
      forall y | 0 <= y < |q'| && q'[y] == b ensures exists x :: 0 <= x < y && q'[x] == a {
        var y0 := if y < i then y else y + 1;
        assert q[y0] == b;
        var x0 :| 0 <= x0 < y0 && q[x0] == a;
        assert q'[if x0 < i then x0 else x0 - 1] == a;
      }
    }
  }

  lemma AheadFetch(s: World, w: WorkerId, now: Now, a: JobId, b: JobId)
    requires Inv(s) && IsPending(s.m.jobs, a) && Ahead(s, a, b) && a != b
    requires IsPending(FetchJob(s.m, w, now).0.jobs, a)
    ensures Ahead(s.(m := FetchJob(s.m, w, now).0), a, b)
  {
    hide Inv, Precedes, Job.TakeSlot;
    var m' := FetchJob(s.m, w, now).0;
    if !Replays(s.m, w) {
      var i := FetchEffect(s, w, now);
      hide FetchJob;
      var q := s.m.queue;
      WaitingIsKept(s.m.jobs, q, i, a, b);
      var d := if m'.jobs[q[i]].status.Pending? then i else i + 1;
      assert m'.queue == q[d..];
      assert d == i + 1 ==> q[i] != a;
      SuffixKeepsOrder(q, i, d, a, b) by { assert forall x | 0 <= x < i :: q[x] != a; }
    }
  }

  // A PENDING job is never among the skipped ids, and the job served precedes what waits behind it.
  lemma WaitingIsKept(jobs: map<JobId, Job>, q: seq<JobId>, i: nat, a: JobId, b: JobId)
    requires i <= |q| && IsPending(jobs, a) && a in q && Precedes(q, a, b)
    requires forall x | 0 <= x < i :: !IsPending(jobs, q[x])
    ensures i < |q| && q[i] != b
  {
    var x :| 0 <= x < |q| && q[x] == a;
    assert forall y | 0 <= y < i :: q[y] != a;
  }

  lemma SuffixKeepsOrder(q: seq<JobId>, i: nat, d: nat, a: JobId, b: JobId)
    requires i <= d <= i + 1 <= |q| && (forall x | 0 <= x < i :: q[x] != a) && (d == i + 1 ==> q[i] != a)
    requires a in q && Precedes(q, a, b)
    ensures a in q[d..] && Precedes(q[d..], a, b)
  {
    var x :| 0 <= x < |q| && q[x] == a;
    assert q[d..][x - d] == a;
    forall y | 0 <= y < |q[d..]| && q[d..][y] == b ensures exists x :: 0 <= x < y && q[d..][x] == a {
      assert q[y + d] == b;
      var x0 :| 0 <= x0 < y + d && q[x0] == a;
      assert q[d..][x0 - d] == a;
    }
  }

  /** First come, first served: whoever queued behind a waiting job gets no slot while it waits. */
  lemma {:induction false} NoOvertaking(cfg: Config, run: Run, i: nat, k: nat, a: JobId, b: JobId)
    requires IsRun(cfg, run) && i <= k < |run.states| && a != b
    requires a in run.states[i].issued && Ahead(run.states[i], a, b)
    ensures Ahead(run.states[k], a, b)
    ensures b in run.states[k].m.jobs && run.states[k].m.jobs[b].slots != map[] ==> !IsPending(run.states[k].m.jobs, a)
  {
    hide *;
    if i == k {
      AheadMeans(run.states[i], a, b);
    } else {
      StepAt(cfg, run, k - 1);
      NoOvertaking(cfg, run, i, k - 1, a, b);
      IssuedAlong(cfg, run, i, k - 1, a);
      AlwaysInv(cfg, run, k - 1);
      AheadStep(run.states[k - 1], run.steps[k - 1], a, b);
      AheadMeans(run.states[k], a, b);
    }
  }

  /**
   First queued, first served: while a job waits PENDING in the queue, no job that
   is behind it there, or comes later, gets a single slot.
   */
  lemma FirstQueuedFirstServed(cfg: Config, run: Run, i: nat, k: nat, a: JobId, b: JobId, x: nat)
    requires IsRun(cfg, run) && i <= k < |run.states| && a != b
    requires IsPending(run.states[i].m.jobs, a)
    requires x < |run.states[i].m.queue| && run.states[i].m.queue[x] == a && b !in run.states[i].m.queue[..x]
    requires b in run.states[i].m.jobs ==> IsPending(run.states[i].m.jobs, b)
    ensures b in run.states[k].m.jobs && run.states[k].m.jobs[b].slots != map[] ==> !IsPending(run.states[k].m.jobs, a)
  {
    hide *;
    AlwaysInv(cfg, run, i);
    StandsAhead(run.states[i], a, b, x);
    NoOvertaking(cfg, run, i, k, a, b);
  }

  lemma StandsAhead(s: World, a: JobId, b: JobId, x: nat)
    requires Inv(s) && IsPending(s.m.jobs, a) && x < |s.m.queue| && s.m.queue[x] == a && b !in s.m.queue[..x]
    requires a != b && (b in s.m.jobs ==> IsPending(s.m.jobs, b))
    ensures Ahead(s, a, b) && a in s.issued
  {
    hide JobInv, StreamInv, FlightInv;
    var q := s.m.queue;
    forall y | 0 <= y < x ensures q[y] != b { assert q[..x][y] == q[y]; }
    assert !HoldsSlots(s.m.jobs, b) by {
      assert forall y | 0 <= y < |q| && q[y] == b :: x < y;
      assert b in q ==> exists y :: 0 <= y < |q| && q[y] == b;
    }
  }

  // ------------------------------------------------------------------- watching

  ghost predicate StrictlyIncreasing(events: seq<Event>) {
    forall a, b | 0 <= a < b < |events| :: events[a].seqNo < events[b].seqNo
  }

  /**
   What a watcher has been sent: its snapshot, then every event the job emitted
   after it without a gap, in strictly increasing order.  Unless it was evicted
   nothing is missing, and once the job is final its last event, and no other,
   says so.
   */
  ghost predicate FullStory(m: Master, ch: Chan) {
    var log, n := Log(m, ch.job), |ch.stream| - 1;
    && n >= 0 && ch.since + n <= |log|
    && ch.stream[1..] == log[ch.since..ch.since + n]
    && StrictlyIncreasing(ch.stream)
    && (!ch.evicted ==> ch.since + n == |log|)
    && (forall a | 0 <= a < n :: !ch.stream[a].status.Terminal())
    && (!ch.evicted ==> (ch.stream[n].status.Terminal() <==> !IsOpen(m.jobs, ch.job)))
  }

  lemma WatcherSeesEverything(cfg: Config, run: Run, i: nat, c: ChanId)
    requires IsRun(cfg, run) && i < |run.states| && c in run.states[i].m.chans
    ensures FullStory(run.states[i].m, run.states[i].m.chans[c])
  {
    hide *;
    AlwaysInv(cfg, run, i);
    WatchedIsSound(run.states[i], c);
    ChannelStory(run.states[i].m, run.states[i].m.chans[c]);
  }

  lemma WatchedIsSound(s: World, c: ChanId)
    requires Inv(s) && c in s.m.chans
    ensures ChanOk(s.m, s.m.chans[c]) && LogOk(s.m, s.m.chans[c].job)
  {
    hide ChanOk, LogOk, JobsInv, QueueInv, FlightInv;
  }

  // Every entry of a channel after the snapshot is an entry of the log.
  lemma ChannelEntry(m: Master, ch: Chan, a: nat)
    requires ChanOk(m, ch) && 0 < a < |ch.stream|
    ensures ch.since + a - 1 < |Log(m, ch.job)| && ch.stream[a] == Log(m, ch.job)[ch.since + a - 1]
  {
    var log, n := Log(m, ch.job), |ch.stream| - 1;
    assert ch.stream[1..][a - 1] == log[ch.since..ch.since + n][a - 1];
  }

  lemma ChannelIncreases(m: Master, ch: Chan)
    requires ChanOk(m, ch) && LogOk(m, ch.job)
    ensures StrictlyIncreasing(ch.stream)
  {
    forall a, b | 0 <= a < b < |ch.stream| ensures ch.stream[a].seqNo < ch.stream[b].seqNo {
      ChannelEntry(m, ch, b);
      if a > 0 { ChannelEntry(m, ch, a); }
    }
  }

  lemma ChannelStory(m: Master, ch: Chan)
    requires ChanOk(m, ch) && LogOk(m, ch.job)
    ensures FullStory(m, ch)
  {
    ChannelIncreases(m, ch);
    hide StrictlyIncreasing;
    var n := |ch.stream| - 1;
    forall a | 0 <= a < n ensures !ch.stream[a].status.Terminal() {
      if a > 0 { ChannelEntry(m, ch, a); }
    }
    if n > 0 { ChannelEntry(m, ch, n); }
  }

  /** Once the closing RPC has finalised a job's stream, no watcher of it stays registered. */
  lemma NoWatcherOutlivesItsJob(cfg: Config, run: Run, i: nat, j: JobId)
    requires IsRun(cfg, run) && i < |run.states|
    requires !IsOpen(run.states[i].m.jobs, j)
    requires j in run.states[i].closing ==> Finalize !in run.states[i].closing[j]
    ensures Watchers(run.states[i].m, j) == {}
  {
    AlwaysInv(cfg, run, i);
  }

  /** A status never changes silently: the change is the last event of the job's log. */
  lemma EveryChangeIsAnnounced(cfg: Config, run: Run, i: nat, j: JobId)
    requires IsRun(cfg, run) && i < |run.states| && j in run.states[i].m.jobs
    ensures var m := run.states[i].m;
      Log(m, j) != [] && Log(m, j)[|Log(m, j)| - 1].status == m.jobs[j].status
  {
    AlwaysInv(cfg, run, i);
    assert LogOk(run.states[i].m, j);
  }
}
