/**
 What the replies make of a worker, in terms of the master's records alone, and what
 becomes of a run once it has begun (crates/cvd-worker/src/lifecycle.rs:101-123,
 132-147, 264-560, 905-920, 996-1075, runner/read.rs:161-177).
 */
module WorkerMoves {
  import opened Types
  import opened Jobs
  import opened MasterState
  import opened Interleaving
  import opened Effects
  import opened Runs
  import opened Slots
  import opened WorkerLife
  import opened Answers

  // Some queued job wants a worker.
  ghost predicate JobWaits(m: Master) { exists j :: j in m.queue && j in m.jobs && m.jobs[j].status == Pending }

  // The master lets the worker have files of this job.
  ghost predicate Served(m: Master, w: WorkerId, j: JobId) {
    j in m.jobs && w in m.jobs[j].run && m.jobs[j].status == Running && m.jobs[j].manifestStarted
  }

  // Where a worker at `at` is once it has heard the answer to `r`, which took the master from `m` to `m'`.
  ghost predicate Heard(m: Master, m': Master, r: Request, at: Where, at': Where) {
    match r
    case FetchRequest(w) =>
      if HasWork(m, w) then at' == Busy(m.active[w], Preflight, false, false)
      else if JobWaits(m) then
        && at'.Busy? && at' == Busy(at'.job, Preflight, false, false)
        && at'.job in m.jobs && m.jobs[at'.job].status == Pending && WorksOn(m', w, at'.job)
      else at' == AtTop
    case ReadyRequest(w, j, failure) =>
      if failure.Some? then at' == AtTop
      else if WasCancelled(m, j) then at.Busy? && at' == at.(stage := Quitting)
      else if !WorksOn(m, w, j) then at' == AtTop
      else j in m'.jobs && w in m'.jobs[j].ready && at.Busy? && at' == if m'.jobs[j].startAt > 0 then at.(stage := Working) else at
    case ProgressRequest(w, j, _) =>
      at.Busy? && at' == Flagged(at, !WorksOn(m, w, j), !WasCancelled(m, j) && !WorksOn(m, w, j))
    case BatchRequest(w, j) =>
      at.Busy? && at' == Flagged(at, !Served(m, w, j), !Served(m, w, j) && !(WasCancelled(m, j) && w in m.jobs[j].run))
    case ResultRequest(_, _, _) => at' == AtTop
  }

  function Flagged(at: Where, cancelled: bool, unknown: bool): Where
    requires at.Busy?
  {
    at.(cancelled := at.cancelled || cancelled, unknown := at.unknown || unknown)
  }

  // The master executes the request, and the worker hears what it answers.
  lemma AnswerArrives(s: System, a: Act, s': System)
    requires Moves(s, a, s') && a.Serve? && a.delivered
    ensures s'.world.m == Apply(s.world, Execute(a.r, a.now)).m && At(s', a.r.w).at == Told(s, a.r, a.now)
  {
    var step := Execute(a.r, a.now);
    hide Enabled, Told, Apply;
    if Steps(s, a) == [step] {
      One(s.world, step);
    } else {
      assert Steps(s, a) == [step, Shutdown(a.r.w)];
      Two(s.world, step, Shutdown(a.r.w));
      ShutdownIsQuiet(Apply(s.world, step), a.r.w);
    }
  }

  lemma ShutdownIsQuiet(s: World, w: WorkerId)
    ensures Apply(s, Shutdown(w)).m == s.m
  {}

  lemma FetchMoves(cfg: Config, run: Run, n: nat, s: System, w: WorkerId, now: Now)
    requires IsRun(cfg, run) && n < |run.states| && run.states[n] == s.world && At(s, w).at.Fetching?
    ensures Heard(s.world.m, Apply(s.world, Fetch(w, now)).m, FetchRequest(w), At(s, w).at, Told(s, FetchRequest(w), now))
  {
    FetchFindsWork(cfg, run, n, w, now);
    FetchApplied(s.world, w, now);
    AlwaysInv(cfg, run, n);
    hide FetchJob, Apply, IsRun;
    if FetchJob(s.world.m, w, now).1.Assigned? { GrantedWork(s.world, w, now); }
  }

  // What is handed out is open and has the worker on it.
  lemma GrantedWork(s: World, w: WorkerId, now: Now)
    requires Inv(s) && FetchJob(s.m, w, now).1.Assigned?
    ensures WorksOn(FetchJob(s.m, w, now).0, w, FetchJob(s.m, w, now).1.job)
  {
    hide Inv, Job.TakeSlot;
    if !Replays(s.m, w) {
      var i := FetchEffect(s, w, now);
      hide FetchJob;
      TakenIsOpen(s.m.jobs[s.m.queue[i]], w, now);
    }
  }

  lemma TakenIsOpen(r: Job, w: WorkerId, now: Now)
    requires r.status.Pending?
    ensures var r' := r.TakeSlot(w, now); w in r'.slots && (r'.status.Pending? || r'.status.Preparing?)
  {}

  lemma ReadyMoves(s: System, w: WorkerId, j: JobId, failure: Option<string>, now: Now)
    requires Inv(s.world)
    requires var r := ReadyRequest(w, j, failure); Awaits(s, r)
    ensures var r := ReadyRequest(w, j, failure);
      Heard(s.world.m, Apply(s.world, Ready(w, j, failure, now)).m, r, At(s, w).at, Told(s, r, now))
  {
    ReadyApplied(s.world, w, j, failure, now);
    if failure.None? {
      if j in s.world.m.jobs { KnownJob(s.world, j); }
      ReadyReplyIs(s.world.m, w, j, now);
    }
    hide ReportReady, Apply, Inv;
  }

  lemma ProgressMoves(s: System, w: WorkerId, j: JobId, p: Progress, now: Now)
    requires var r := ProgressRequest(w, j, p); Awaits(s, r)
    ensures var r := ProgressRequest(w, j, p);
      Heard(s.world.m, Apply(s.world, Report(w, j, p, now)).m, r, At(s, w).at, Told(s, r, now))
  {
    ProgressReplyIs(s.world.m, w, j, p, now);
    hide ReportProgress, Apply;
  }

  lemma BatchMoves(s: System, w: WorkerId, j: JobId, now: Now)
    requires var r := BatchRequest(w, j); Awaits(s, r)
    ensures var r := BatchRequest(w, j);
      Heard(s.world.m, Apply(s.world, Batch(w, j, now)).m, r, At(s, w).at, Told(s, r, now))
  {
    BatchIsAnswered(s.world.m, w, j, now);
    hide FetchFileBatch, Apply;
  }

  lemma ServedWorkerMoves(cfg: Config, run: Run, n: nat, s: System, a: Act, s': System)
    requires IsRun(cfg, run) && n < |run.states| && run.states[n] == s.world
    requires Moves(s, a, s') && a.Serve? && a.delivered
    ensures Heard(s.world.m, s'.world.m, a.r, At(s, a.r.w).at, At(s', a.r.w).at)
  {
    AnswerArrives(s, a, s');
    AlwaysInv(cfg, run, n);
    hide Inv, IsRun, Apply, Told, Heard, ApplyAll, AllEnabled;
    match a.r {
      case FetchRequest(w) => FetchMoves(cfg, run, n, s, w, a.now);
      case ReadyRequest(w, j, failure) => ReadyMoves(s, w, j, failure, a.now);
      case ProgressRequest(w, j, p) => ProgressMoves(s, w, j, p, a.now);
      case BatchRequest(w, j) => BatchMoves(s, w, j, a.now);
      case ResultRequest(w, j, result) => ResultMoves(s, a.r, a.now, s'.world.m);
    }
  }

  lemma ResultMoves(s: System, r: Request, now: Now, m': Master)
    requires r.ResultRequest? && Awaits(s, r)
    ensures Heard(s.world.m, m', r, At(s, r.w).at, Told(s, r, now))
  {}

  /**
   A worker does what the records say: it takes the work there is, starts when its job has a
   start time, stops when its job was cancelled and drops a job that is not its any more.
   */
  lemma ReplyMovesTheWorker(cfg: Config, states: seq<System>, acts: seq<Act>, i: nat)
    requires IsHistory(cfg, states, acts) && i < |acts| == |states| - 1 && acts[i].Serve? && acts[i].delivered
    ensures var w := acts[i].r.w;
      Heard(states[i].world.m, states[i + 1].world.m, acts[i].r, At(states[i], w).at, At(states[i + 1], w).at)
  {
    var run, at := LifeIsDisciplined(cfg, states, acts, i);
    hide Enabled, Apply, Disciplined, Heard, Moves;
    assert Moves(states[i], acts[i], states[i + 1]);
    ServedWorkerMoves(cfg, run, at[i], states[i], acts[i], states[i + 1]);
  }

  // ------------------------------------------------------------- a run once begun

  // The worker is told that the job is no longer its own.
  ghost predicate IsDisowned(s: System, a: Act, w: WorkerId, j: JobId) {
    && a.Serve? && a.delivered
    && (|| (a.r.ProgressRequest? && a.r.w == w && a.r.j == j && !WasCancelled(s.world.m, j) && !WorksOn(s.world.m, w, j))
        || (a.r.BatchRequest? && a.r.w == w && a.r.j == j && !Served(s.world.m, w, j)
             && !(WasCancelled(s.world.m, j) && w in s.world.m.jobs[j].run)))
  }

  ghost predicate Underway(s: System, w: WorkerId, j: JobId) { On(s, w, j) && IsBusy(s, w, Working) && !At(s, w).at.unknown }

  predicate HasResult(s: System, w: WorkerId, j: JobId) { On(s, w, j) && IsBusy(s, w, Reporting) }

  /**
   A worker that runs a job goes on running it until it has a result to report or is told
   that the job is not its any more: no signal, cancellation or failed call makes it skip the report.
   */
  lemma {:induction false} EveryRunIsReported(cfg: Config, states: seq<System>, acts: seq<Act>, i: nat, k: nat, w: WorkerId, j: JobId)
    requires IsHistory(cfg, states, acts) && i <= k < |states| == |acts| + 1
    requires Underway(states[i], w, j)
    requires forall n | i <= n < k :: !IsDisowned(states[n], acts[n], w, j)
    ensures Underway(states[k], w, j) || exists n | i < n <= k :: HasResult(states[n], w, j)
  {
    hide *;
    if i < k {
      EveryRunIsReported(cfg, states, acts, i, k - 1, w, j);
      if Underway(states[k - 1], w, j) {
        RunGoesOn(cfg, states, acts, k - 1, w, j);
      }
    }
  }

  lemma RunGoesOn(cfg: Config, states: seq<System>, acts: seq<Act>, i: nat, w: WorkerId, j: JobId)
    requires IsHistory(cfg, states, acts) && i < |acts| == |states| - 1
    requires Underway(states[i], w, j) && !IsDisowned(states[i], acts[i], w, j)
    ensures Underway(states[i + 1], w, j) || HasResult(states[i + 1], w, j)
  {
    hide Apply, ApplyAll, AllEnabled, Told, Heard;
    var s, a, s' := states[i], acts[i], states[i + 1];
    assert Moves(s, a, s');
    if a.Serve? && a.delivered && a.r.w == w {
      ReplyMovesTheWorker(cfg, states, acts, i);
      AnswerKeepsRunning(s, a, s', w, j);
    }
  }

  lemma AnswerKeepsRunning(s: System, a: Act, s': System, w: WorkerId, j: JobId)
    requires a.Serve? && a.delivered && a.r.w == w && CanAct(s, a)
    requires Heard(s.world.m, s'.world.m, a.r, At(s, w).at, At(s', w).at)
    requires Underway(s, w, j) && !IsDisowned(s, a, w, j)
    ensures Underway(s', w, j)
  {}

  /**
   Workers start together: one begins to run a job only on the answer to its own ready report,
   and by then every slot of the job is filled and every worker holding one is marked ready.
   */
  lemma WorkersStartTogether(cfg: Config, states: seq<System>, acts: seq<Act>, i: nat, w: WorkerId, j: JobId)
    requires IsHistory(cfg, states, acts) && i < |acts| == |states| - 1
    requires On(states[i + 1], w, j) && IsBusy(states[i + 1], w, Working)
    requires !(On(states[i], w, j) && IsBusy(states[i], w, Working))
    ensures acts[i].Serve? && acts[i].delivered && acts[i].r == ReadyRequest(w, j, None)
    ensures j in states[i + 1].world.m.jobs
    ensures var r := states[i + 1].world.m.jobs[j];
      r.ready == r.run == r.slots.Keys && |r.slots| == r.target && w in r.slots
  {
    hide Apply, ApplyAll, AllEnabled, Told, Heard, Inv, JobInv, Enabled;
    var s, a, s' := states[i], acts[i], states[i + 1];
    assert Moves(s, a, s');
    assert a.Serve? && a.delivered && a.r.w == w;
    ReplyMovesTheWorker(cfg, states, acts, i);
    StartWasHeard(s, a, s', w, j);
    InvInHistory(cfg, states, acts, i + 1);
    KnownJob(s'.world, j);
    StartedCrew(s'.world.m.jobs[j]);
  }

  lemma StartWasHeard(s: System, a: Act, s': System, w: WorkerId, j: JobId)
    requires a.Serve? && a.delivered && a.r.w == w && CanAct(s, a)
    requires Heard(s.world.m, s'.world.m, a.r, At(s, w).at, At(s', w).at)
    requires On(s', w, j) && IsBusy(s', w, Working) && !(On(s, w, j) && IsBusy(s, w, Working))
    ensures a.r == ReadyRequest(w, j, None)
    ensures j in s'.world.m.jobs && s'.world.m.jobs[j].startAt > 0 && w in s'.world.m.jobs[j].ready
  {}

  // A good record with a start time has its whole crew ready.
  lemma StartedCrew(r: Job)
    requires JobInv(r) && r.startAt != 0
    ensures r.ready == r.run == r.slots.Keys && |r.slots| == r.target
  {}

  lemma InvInHistory(cfg: Config, states: seq<System>, acts: seq<Act>, i: nat)
    requires IsHistory(cfg, states, acts) && i < |states|
    ensures Inv(states[i].world)
  {
    hide Inv, Enabled, Apply, Disciplined;
    var run, at := LifeIsDisciplined(cfg, states, acts, i);
    AlwaysInv(cfg, run, at[i]);
  }

  // The answer to this request is the last the worker wants to hear about the job.
  ghost predicate Closes(m: Master, r: Request, j: JobId) {
    || (r.ResultRequest? && r.j == j)
    || (r.ReadyRequest? && r.j == j && (r.failure.Some? || !(WasCancelled(m, j) || WorksOn(m, r.w, j))))
  }

  /**
   A worker lets go of a job only when it has delivered its result or the reason it cannot
   start, is told that the job is not its any more, or has tried its calls often enough.
   */
  lemma JobsAreFollowedThrough(cfg: Config, states: seq<System>, acts: seq<Act>, i: nat, w: WorkerId, j: JobId)
    requires IsHistory(cfg, states, acts) && i < |acts| == |states| - 1
    requires On(states[i], w, j) && !On(states[i + 1], w, j)
    ensures var a, m := acts[i], states[i].world.m;
      || (a.Serve? && a.delivered && a.r.w == w && Closes(m, a.r, j))
      || (a.RunEnds? && At(states[i], w).at.unknown)
      || (a.GiveUp? && !(At(states[i], w).at.stage in {Preflight, AtBarrier, Working}))
  {
    hide Apply, ApplyAll, AllEnabled, Told, Heard;
    var s, a, s' := states[i], acts[i], states[i + 1];
    assert Moves(s, a, s');
    if a.Serve? && a.delivered && a.r.w == w {
      ReplyMovesTheWorker(cfg, states, acts, i);
      LeftOnAnswer(s, a, s', w, j);
    }
  }

  lemma LeftOnAnswer(s: System, a: Act, s': System, w: WorkerId, j: JobId)
    requires a.Serve? && a.delivered && a.r.w == w && CanAct(s, a)
    requires Heard(s.world.m, s'.world.m, a.r, At(s, w).at, At(s', w).at)
    requires On(s, w, j) && !On(s', w, j)
    ensures Closes(s.world.m, a.r, j)
  {}

  // ----------------------------------------------------------- failing and stopping

  // The worker has something to tell the master about this job and does not ask to start it.
  predicate TellsFailure(s: System, w: WorkerId, j: JobId, reason: string) {
    On(s, w, j) && At(s, w).at.stage == Failing(reason)
  }

  /** A worker whose preflight failed does nothing for the job but tell the reason, until it lets go of the job. */
  lemma {:induction false} FailureIsReported(cfg: Config, states: seq<System>, acts: seq<Act>, i: nat, k: nat,
                                             w: WorkerId, j: JobId, reason: string)
    requires IsHistory(cfg, states, acts) && i < k < |states| == |acts| + 1
    requires On(states[i], w, j) && acts[i] == PreflightEnds(w, Some(reason))
    requires forall n | i < n <= k :: On(states[n], w, j)
    ensures TellsFailure(states[k], w, j, reason) && Awaits(states[k], ReadyRequest(w, j, Some(reason)))
  {
    if k == i + 1 {
      hide Apply, ApplyAll, AllEnabled, Told;
      assert Moves(states[i], acts[i], states[k]);
    } else {
      FailureIsReported(cfg, states, acts, i, k - 1, w, j, reason);
      FailureStays(cfg, states, acts, k - 1, w, j, reason);
    }
  }

  lemma FailureStays(cfg: Config, states: seq<System>, acts: seq<Act>, i: nat, w: WorkerId, j: JobId, reason: string)
    requires IsHistory(cfg, states, acts) && i < |acts| == |states| - 1
    requires TellsFailure(states[i], w, j, reason) && On(states[i + 1], w, j)
    ensures TellsFailure(states[i + 1], w, j, reason)
  {
    hide Apply, ApplyAll, AllEnabled;
    assert Moves(states[i], acts[i], states[i + 1]);
    hide FetchJob, ReportReady, ReportProgress, FetchFileBatch;
  }

  predicate ToldToStop(s: System, w: WorkerId, j: JobId) { On(s, w, j) && At(s, w).at.cancelled }

  /**
   A shutdown mirrored into a job stays with it: from then on the worker sends no progress, and
   one that waits at the barrier can leave it whatever the master answers.
   */
  lemma {:induction false} StopStays(cfg: Config, states: seq<System>, acts: seq<Act>, i: nat, k: nat, w: WorkerId, j: JobId)
    requires IsHistory(cfg, states, acts) && i < k < |states| == |acts| + 1
    requires On(states[i], w, j) && acts[i] == Bridge(w)
    requires forall n | i < n <= k :: On(states[n], w, j)
    ensures ToldToStop(states[k], w, j)
    ensures IsBusy(states[k], w, AtBarrier) ==> CanAct(states[k], LeaveBarrier(w))
    ensures forall p :: !CanAct(states[k], Send(ProgressRequest(w, j, p)))
  {
    if k == i + 1 {
      hide Apply, ApplyAll, AllEnabled, Told;
      assert Moves(states[i], acts[i], states[k]);
    } else {
      StopStays(cfg, states, acts, i, k - 1, w, j);
      StopStaysOn(cfg, states, acts, k - 1, w, j);
    }
  }

  lemma StopStaysOn(cfg: Config, states: seq<System>, acts: seq<Act>, i: nat, w: WorkerId, j: JobId)
    requires IsHistory(cfg, states, acts) && i < |acts| == |states| - 1
    requires ToldToStop(states[i], w, j) && On(states[i + 1], w, j)
    ensures ToldToStop(states[i + 1], w, j)
  {
    hide Apply, ApplyAll, AllEnabled;
    assert Moves(states[i], acts[i], states[i + 1]);
    hide FetchJob, ReportReady, ReportProgress, FetchFileBatch;
  }
}
