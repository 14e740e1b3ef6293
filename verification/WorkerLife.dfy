/**
 The workers themselves (crates/cvd-worker/src/lifecycle.rs:78-124, 264-560,
 986-1070): the polling loop, the stages of one job, the tasks that mirror the
 shutdown flag and report progress. Together with the master's state machine they
 form a system in which a request, once sent, may be executed at any later time, any
 number of times or never, whether or not its sender still waits, and every reply may
 be lost. In that system the workers' good behaviour, which Slots.dfy takes as a
 hypothesis, is a theorem. A process that dies just stops acting: a restarted one
 draws a new id (crates/cvd-worker/src/main.rs:29), so it is another worker.
 */
module WorkerLife {
  import opened Types
  import opened Aggregation
  import opened Jobs
  import opened MasterState
  import opened Interleaving
  import opened Runs
  import opened Slots
  import Answers

  datatype Stage =
    | Preflight
    | Failing(reason: string)      // preflight failed, ReportReady(error) is being sent
    | AtBarrier
    | Quitting                     // cancelled at the barrier: one ReportResult, no retry
    | Working
    | Reporting

  // `cancelled` and `unknown` are the flags the job's tasks share.
  datatype Where =
    | AtTop
    | Fetching                     // the shutdown flag was seen unset, FetchJob is under way
    | Busy(job: JobId, stage: Stage, cancelled: bool, unknown: bool)
    | Gone

  datatype Local = Local(shutdown: bool, at: Where)

  datatype Request =
    | FetchRequest(w: WorkerId)
    | ReadyRequest(w: WorkerId, j: JobId, failure: Option<string>)
    | ProgressRequest(w: WorkerId, j: JobId, p: Progress)
    | BatchRequest(w: WorkerId, j: JobId)
    | ResultRequest(w: WorkerId, j: JobId, result: WorkerResult)

  // The master's step when it executes a request.
  function Execute(r: Request, now: Now): Step {
    match r
    case FetchRequest(w) => Fetch(w, now)
    case ReadyRequest(w, j, failure) => Ready(w, j, failure, now)
    case ProgressRequest(w, j, p) => Report(w, j, p, now)
    case BatchRequest(w, j) => Batch(w, j, now)
    case ResultRequest(w, j, result) => Result(w, j, result, now)
  }

  datatype System = System(world: World, workers: map<WorkerId, Local>, sent: set<Request>)

  function At(s: System, w: WorkerId): Local { if w in s.workers then s.workers[w] else Local(false, AtTop) }

  predicate IsBusy(s: System, w: WorkerId, stage: Stage) { At(s, w).at.Busy? && At(s, w).at.stage == stage }

  predicate On(s: System, w: WorkerId, j: JobId) { At(s, w).at.Busy? && At(s, w).at.job == j }

  // The worker is where it makes this request and listens to the answer.
  predicate Awaits(s: System, r: Request) {
    match r
    case FetchRequest(w) => At(s, w).at.Fetching?
    case ReadyRequest(w, j, failure) =>
      On(s, w, j) && At(s, w).at.stage == if failure.Some? then Failing(failure.value) else AtBarrier
    case ProgressRequest(w, j, _) => On(s, w, j) && (IsBusy(s, w, Preflight) || IsBusy(s, w, Working))
    case BatchRequest(w, j) => On(s, w, j) && IsBusy(s, w, Working)
    case ResultRequest(w, j, _) => On(s, w, j) && (IsBusy(s, w, Quitting) || IsBusy(s, w, Reporting))
  }

  datatype Act =
    | Other(step: Step)                                        // anything no worker does
    | Signal(w: WorkerId)                                      // SIGINT or SIGTERM arrives
    | CheckTop(w: WorkerId)
    | Send(r: Request)
    | Serve(r: Request, now: Now, delivered: bool)             // the master executes a request
    | FetchFails(w: WorkerId)                                  // an error instead of a reply
    | Bridge(w: WorkerId)                                      // the flag is mirrored into the job
    | PreflightEnds(w: WorkerId, failure: Option<string>)
    | LeaveBarrier(w: WorkerId)
    | RunEnds(w: WorkerId)
    | GiveUp(w: WorkerId)                                      // out of retries, or nothing to report

  ghost predicate CanAct(s: System, a: Act) {
    match a
    case Other(step) =>
      Enabled(s.world, step)
      && !(step.Fetch? || step.Ready? || step.Report? || step.Batch? || step.Result? || step.Shutdown?)
    case Signal(w) => true
    case CheckTop(w) => At(s, w).at.AtTop?
    case Send(r) => Awaits(s, r) && (r.ProgressRequest? ==> !At(s, r.w).at.cancelled && !At(s, r.w).at.unknown)
    case Serve(r, _, delivered) =>
      // a FetchJob is not executed after its worker, signalled, is done with it
      r in s.sent && (delivered ==> Awaits(s, r)) && (r.FetchRequest? ==> r.w !in s.world.down)
    case FetchFails(w) => At(s, w).at.Fetching?
    case Bridge(w) => At(s, w).shutdown && At(s, w).at.Busy?
    case PreflightEnds(w, _) => IsBusy(s, w, Preflight)
    case LeaveBarrier(w) => IsBusy(s, w, AtBarrier) && At(s, w).at.cancelled
    case RunEnds(w) => IsBusy(s, w, Working)
    case GiveUp(w) => At(s, w).at.Busy? && (At(s, w).at.stage.Failing? || At(s, w).at.stage.Quitting? || At(s, w).at.stage.Reporting?)
  }

  function Goes(s: System, w: WorkerId, at: Where): map<WorkerId, Local> { s.workers[w := At(s, w).(at := at)] }

  // A worker whose fetch is over and whose flag is set will not fetch again.
  function AfterFetch(s: System, w: WorkerId): seq<Step> { if At(s, w).shutdown then [Shutdown(w)] else [] }

  // Where a worker goes on the reply the master computes for its request.
  ghost function Told(s: System, r: Request, now: Now): Where
    requires Awaits(s, r)
  {
    var b := At(s, r.w).at;
    match r
    case FetchRequest(w) =>
      var reply := FetchJob(s.world.m, w, now).1;
      if reply.Assigned? then Busy(reply.job, Preflight, false, false) else AtTop
    case ReadyRequest(w, j, failure) =>
      var reply := ReportReady(s.world.m, w, j, failure, now).1;
      if failure.Some? then AtTop
      else if reply.cancelled then b.(stage := Quitting)
      else if reply.unknown then AtTop
      else if reply.startAt > 0 then b.(stage := Working)
      else b
    case ProgressRequest(w, j, p) =>
      var ack := ReportProgress(s.world.m, w, j, p, now).1;
      if ack.unknown then b.(unknown := true, cancelled := true)
      else if ack.cancelled then b.(cancelled := true)
      else b
    case BatchRequest(w, j) =>
      var gate := FetchFileBatch(s.world.m, w, j, now).1;
      if gate.GateUnknown? then b.(unknown := true, cancelled := true)
      else if gate.GateCancelled? then b.(cancelled := true)
      else b
    case ResultRequest(_, _, _) => AtTop
  }

  // The worker's side of an act.
  ghost function Workers(s: System, a: Act): map<WorkerId, Local>
    requires CanAct(s, a)
  {
    match a
    case Other(_) => s.workers
    case Signal(w) => s.workers[w := At(s, w).(shutdown := true)]
    case CheckTop(w) => Goes(s, w, if At(s, w).shutdown then Gone else Fetching)
    case Send(_) => s.workers
    case Serve(r, now, delivered) => if delivered then Goes(s, r.w, Told(s, r, now)) else s.workers
    case FetchFails(w) => Goes(s, w, AtTop)
    case Bridge(w) => Goes(s, w, At(s, w).at.(cancelled := true))
    case PreflightEnds(w, failure) =>
      Goes(s, w, At(s, w).at.(stage := if failure.Some? then Failing(failure.value) else AtBarrier))
    case LeaveBarrier(w) => Goes(s, w, At(s, w).at.(stage := Quitting))
    case RunEnds(w) => Goes(s, w, if At(s, w).at.unknown then AtTop else At(s, w).at.(stage := Reporting))
    case GiveUp(w) => Goes(s, w, AtTop)
  }

  // The master's side: the steps of Interleaving.dfy that an act makes.
  ghost function Steps(s: System, a: Act): seq<Step>
    requires CanAct(s, a)
  {
    match a
    case Other(step) => [step]
    case Signal(w) => if At(s, w).at.Fetching? then [] else [Shutdown(w)]
    case Serve(r, now, delivered) => [Execute(r, now)] + if r.FetchRequest? && delivered then AfterFetch(s, r.w) else []
    case FetchFails(w) => AfterFetch(s, w)
    case _ => []
  }

  ghost predicate AllEnabled(s: World, steps: seq<Step>)
    decreases |steps|
  {
    steps == [] || (Enabled(s, steps[0]) && AllEnabled(Apply(s, steps[0]), steps[1..]))
  }

  ghost function ApplyAll(s: World, steps: seq<Step>): World
    requires AllEnabled(s, steps)
    decreases |steps|
  {
    if steps == [] then s else ApplyAll(Apply(s, steps[0]), steps[1..])
  }

  ghost predicate AllDisciplined(s: World, steps: seq<Step>)
    requires AllEnabled(s, steps)
    decreases |steps|
  {
    steps == [] || (Disciplined(s, steps[0]) && AllDisciplined(Apply(s, steps[0]), steps[1..]))
  }

  ghost predicate Moves(s: System, a: Act, s': System) {
    && CanAct(s, a) && AllEnabled(s.world, Steps(s, a))
    && s' == System(ApplyAll(s.world, Steps(s, a)), Workers(s, a), if a.Send? then s.sent + {a.r} else s.sent)
  }

  // --------------------------------------------------- what a worker's stage tells

  ghost predicate Excused(s: World, w: WorkerId, j: JobId) { (w, j) in s.told || w in s.down }

  predicate NeedsExcuse(at: Where) {
    at.Busy? && (at.cancelled || at.stage.Quitting? || at.stage.Working? || at.stage.Reporting?)
  }

  // Why `w` may do what it does next.
  ghost predicate Knows(s: World, w: WorkerId, l: Local) {
    && (w in s.down <==> l.shutdown && !l.at.Fetching?)
    && (l.at.Busy? ==> (w, l.at.job) in s.granted)
    && (NeedsExcuse(l.at) ==> Excused(s, w, l.at.job))
    && (l.at.Gone? ==> l.shutdown)
  }

  // Why a request may still be executed, however late.
  ghost predicate Justified(s: World, r: Request) {
    !r.FetchRequest? ==> (r.w, r.j) in s.granted && (r.ResultRequest? ==> Excused(s, r.w, r.j))
  }

  ghost predicate Linked(s: System) {
    && (forall w :: Knows(s.world, w, At(s, w)))
    && (forall r | r in s.sent :: Justified(s.world, r))
  }

  lemma HistoryGrows(s: World, step: Step)
    requires Enabled(s, step)
    ensures var s' := Apply(s, step);
      && s.granted <= s'.granted && s.told <= s'.told && s.down <= s'.down
      && (!step.Shutdown? ==> s'.down == s.down)
      && (step.Shutdown? ==> s'.down == s.down + {step.worker})
  {
    hide FetchJob, ReportReady, ReportProgress, FetchFileBatch, ReportResult, DeleteJob, WatchJob, FailManifest, FailStale,
      GcCollect, GcRemove, RunSection, ClearActive, CreateRecord, TakeEvent, DropClient, PushBack;
  }

  // What a worker knows stays true while others act.
  lemma KnowsStays(s: World, step: Step, w: WorkerId, l: Local)
    requires Enabled(s, step) && Knows(s, w, l) && !(step.Shutdown? && step.worker == w)
    ensures Knows(Apply(s, step), w, l)
  {
    HistoryGrows(s, step);
    hide Apply, Enabled;
  }

  // ---------------------------------------------------------------- one act at a time

  // The worker an act belongs to.
  predicate ActsFor(a: Act, w: WorkerId) {
    match a
    case Other(_) => false
    case Send(_) => false
    case Serve(r, _, delivered) => delivered && r.w == w
    case _ => a.w == w
  }

  lemma OthersKeepKnowing(s: World, steps: seq<Step>, w: WorkerId, l: Local)
    requires AllEnabled(s, steps) && Knows(s, w, l)
    requires forall k | 0 <= k < |steps| :: !(steps[k].Shutdown? && steps[k].worker == w)
    ensures Knows(ApplyAll(s, steps), w, l)
    decreases |steps|
  {
    hide Knows, Enabled, Apply;
    if steps != [] {
      KnowsStays(s, steps[0], w, l);
      OthersKeepKnowing(Apply(s, steps[0]), steps[1..], w, l);
    }
  }

  lemma One(s: World, step: Step)
    ensures AllEnabled(s, [step]) <==> Enabled(s, step)
    ensures Enabled(s, step) ==> ApplyAll(s, [step]) == Apply(s, step)
    ensures Enabled(s, step) ==> (AllDisciplined(s, [step]) <==> Disciplined(s, step))
  {
    hide Enabled, Apply, Disciplined;
    assert [step][1..] == [];
  }

  lemma Two(s: World, first: Step, second: Step)
    requires Enabled(s, first) && Enabled(Apply(s, first), second)
    ensures AllEnabled(s, [first, second]) && ApplyAll(s, [first, second]) == Apply(Apply(s, first), second)
    ensures AllDisciplined(s, [first, second]) <==> Disciplined(s, first) && Disciplined(Apply(s, first), second)
  {
    assert [first, second][1..] == [second];
    One(Apply(s, first), second);
    hide Enabled, Apply, Disciplined;
  }

  // Requests can always be made, and only disciplined ones are.
  lemma ActIsDisciplined(s: System, a: Act)
    requires Linked(s) && CanAct(s, a)
    ensures AllEnabled(s.world, Steps(s, a)) && AllDisciplined(s.world, Steps(s, a))
  {
    hide Apply, AllEnabled, AllDisciplined, Knows;
    if a.Serve? {
      var step := Execute(a.r, a.now);
      ServeIsDisciplined(s, a.r, a.now);
      if Steps(s, a) == [step] {
        One(s.world, step);
      } else {
        assert Steps(s, a) == [step, Shutdown(a.r.w)];
        Two(s.world, step, Shutdown(a.r.w));
      }
    } else if Steps(s, a) != [] {
      var step := Steps(s, a)[0];
      assert Steps(s, a) == [step];
      One(s.world, step);
    } else {
      NoSteps(s.world);
    }
  }

  lemma NoSteps(s: World)
    ensures AllEnabled(s, []) && AllDisciplined(s, []) && ApplyAll(s, []) == s
  {}

  lemma ServeIsDisciplined(s: System, r: Request, now: Now)
    requires Linked(s) && r in s.sent && (r.FetchRequest? ==> r.w !in s.world.down)
    ensures Enabled(s.world, Execute(r, now)) && Disciplined(s.world, Execute(r, now))
  {
    hide Knows;
    assert Justified(s.world, r);
  }

  lemma ActKeepsOthers(s: System, a: Act, w: WorkerId)
    requires Linked(s) && CanAct(s, a) && AllEnabled(s.world, Steps(s, a)) && !ActsFor(a, w)
    ensures Knows(ApplyAll(s.world, Steps(s, a)), w, At(System(s.world, Workers(s, a), s.sent), w))
  {
    hide Apply, Enabled, ApplyAll, AllEnabled, Justified, Told;
    assert Knows(s.world, w, At(s, w));
    hide Knows;
    OthersKeepKnowing(s.world, Steps(s, a), w, At(s, w));
  }

  // Local moves: no request is executed.
  lemma QuietActKeeps(s: System, a: Act, w: WorkerId)
    requires Linked(s) && CanAct(s, a) && Steps(s, a) == [] && ActsFor(a, w)
    ensures Knows(s.world, w, At(System(s.world, Workers(s, a), s.sent), w))
  {
    assert Knows(s.world, w, At(s, w));
    hide Justified;
  }

  lemma SignalKeeps(s: System, w: WorkerId)
    requires Linked(s) && !At(s, w).at.Fetching?
    ensures Knows(Apply(s.world, Shutdown(w)), w, At(s, w).(shutdown := true))
  {
    assert Knows(s.world, w, At(s, w));
    HistoryGrows(s.world, Shutdown(w));
    hide Apply, Justified;
  }

  lemma FetchFailedKeeps(s: System, w: WorkerId)
    requires Linked(s) && At(s, w).at.Fetching? && At(s, w).shutdown
    ensures Knows(Apply(s.world, Shutdown(w)), w, At(s, w).(at := AtTop))
  {
    assert Knows(s.world, w, At(s, w));
    HistoryGrows(s.world, Shutdown(w));
    hide Apply, Justified;
  }

  lemma FetchKeeps(s: System, w: WorkerId, now: Now)
    requires Linked(s) && At(s, w).at.Fetching?
    ensures var l := At(s, w).(at := Told(s, FetchRequest(w), now));
      if At(s, w).shutdown then Knows(Apply(Apply(s.world, Fetch(w, now)), Shutdown(w)), w, l)
      else Knows(Apply(s.world, Fetch(w, now)), w, l)
  {
    assert Knows(s.world, w, At(s, w));
    var s1 := Apply(s.world, Fetch(w, now));
    GrantIsRecorded(s.world, w, now);
    HistoryGrows(s.world, Fetch(w, now));
    HistoryGrows(s1, Shutdown(w));
    hide FetchJob, Apply, Justified;
  }

  lemma GrantIsRecorded(s: World, w: WorkerId, now: Now)
    ensures var reply := FetchJob(s.m, w, now).1;
      reply.Assigned? ==> (w, reply.job) in Apply(s, Fetch(w, now)).granted
  {
    hide FetchJob;
  }

  // What a reply tells the worker, the state records.
  lemma ReplyIsTold(s: World, step: Step)
    requires Enabled(s, step)
    ensures step.Ready? && step.failure.None? ==>
      var reply := ReportReady(s.m, step.worker, step.job, None, step.now).1;
      reply.cancelled || reply.startAt != 0 ==> (step.worker, step.job) in Apply(s, step).told
    ensures step.Report? ==>
      var ack := ReportProgress(s.m, step.worker, step.job, step.progress, step.now).1;
      ack.cancelled || ack.unknown ==> (step.worker, step.job) in Apply(s, step).told
    ensures step.Batch? ==>
      var gate := FetchFileBatch(s.m, step.worker, step.job, step.now).1;
      gate.GateCancelled? ==> (step.worker, step.job) in Apply(s, step).told
  {
    hide ReportReady, ReportProgress, FetchFileBatch;
  }

  // A reply heard at once.
  lemma ReplyKeeps(s: System, r: Request, now: Now)
    requires Linked(s) && Awaits(s, r) && !r.FetchRequest?
    ensures Knows(Apply(s.world, Execute(r, now)), r.w, At(s, r.w).(at := Told(s, r, now)))
  {
    assert Knows(s.world, r.w, At(s, r.w));
    var step := Execute(r, now);
    HistoryGrows(s.world, step);
    ReplyIsTold(s.world, step);
    hide ReportReady, Apply, Justified, ReportProgress, FetchFileBatch;
  }

  lemma ServeKeeps(s: System, r: Request, now: Now)
    requires var a := Serve(r, now, true); Linked(s) && CanAct(s, a) && AllEnabled(s.world, Steps(s, a))
    ensures var a := Serve(r, now, true);
      Knows(ApplyAll(s.world, Steps(s, a)), r.w, At(System(s.world, Workers(s, a), s.sent), r.w))
  {
    var a, step := Serve(r, now, true), Execute(r, now);
    hide Knows, Apply, ApplyAll, AllEnabled, Told, Linked;
    if r.FetchRequest? { FetchKeeps(s, r.w, now); } else { ReplyKeeps(s, r, now); }
    if Steps(s, a) == [step] {
      One(s.world, step);
    } else {
      assert Steps(s, a) == [step, Shutdown(r.w)];
      Two(s.world, step, Shutdown(r.w));
    }
  }

  lemma {:induction false} AllJustified(s: World, steps: seq<Step>, r: Request)
    requires AllEnabled(s, steps) && Justified(s, r)
    ensures Justified(ApplyAll(s, steps), r)
    decreases |steps|
  {
    hide Enabled, Apply;
    if steps != [] {
      HistoryGrows(s, steps[0]);
      AllJustified(Apply(s, steps[0]), steps[1..], r);
    }
  }

  lemma SendIsJustified(s: System, r: Request)
    requires Linked(s) && Awaits(s, r)
    ensures Justified(s.world, r)
  {
    assert Knows(s.world, r.w, At(s, r.w));
  }

  lemma OwnActKeeps(s: System, a: Act, w: WorkerId)
    requires Linked(s) && CanAct(s, a) && AllEnabled(s.world, Steps(s, a)) && ActsFor(a, w)
    ensures Knows(ApplyAll(s.world, Steps(s, a)), w, At(System(s.world, Workers(s, a), s.sent), w))
  {
    hide Knows, Apply, ApplyAll, AllEnabled, Linked, Told;
    if a.Serve? {
      ServeKeeps(s, a.r, a.now);
    } else if Steps(s, a) == [] {
      NoSteps(s.world);
      QuietActKeeps(s, a, w);
    } else {
      assert Steps(s, a) == [Shutdown(w)];
      One(s.world, Shutdown(w));
      if a.Signal? { SignalKeeps(s, w); } else { FetchFailedKeeps(s, w); }
    }
  }

  lemma ActKeeps(s: System, a: Act, s': System)
    requires Linked(s) && Moves(s, a, s')
    ensures Linked(s') && AllDisciplined(s.world, Steps(s, a))
  {
    ActIsDisciplined(s, a);
    hide Knows, Apply, ApplyAll, AllEnabled, Steps, Workers, Justified, CanAct;
    forall w ensures Knows(s'.world, w, At(s', w)) {
      if ActsFor(a, w) { OwnActKeeps(s, a, w); } else { ActKeepsOthers(s, a, w); }
    }
    forall r | r in s'.sent ensures Justified(s'.world, r) {
      if r !in s.sent { SentNow(s, a); }
      AllJustified(s.world, Steps(s, a), r);
    }
  }

  lemma SentNow(s: System, a: Act)
    requires Linked(s) && CanAct(s, a) && a.Send?
    ensures Justified(s.world, a.r)
  {
    SendIsJustified(s, a.r);
  }

  // ------------------------------------------------------------------------- runs

  function Begin(cfg: Config): System { System(Start(cfg), map[], {}) }

  ghost predicate IsHistory(cfg: Config, states: seq<System>, acts: seq<Act>) {
    && |states| == |acts| + 1 && states[0] == Begin(cfg)
    && forall i | 0 <= i < |acts| :: Moves(states[i], acts[i], states[i + 1])
  }

  lemma {:induction false} AlwaysLinked(cfg: Config, states: seq<System>, acts: seq<Act>, i: nat)
    requires IsHistory(cfg, states, acts) && i < |states|
    ensures Linked(states[i])
  {
    if i > 0 {
      AlwaysLinked(cfg, states, acts, i - 1);
      ActKeeps(states[i - 1], acts[i - 1], states[i]);
    }
  }

  // `run'` is `run` with `steps` appended.
  ghost predicate Extends(run: Run, steps: seq<Step>, run': Run) {
    run.states <= run'.states && run'.steps == run.steps + steps
  }

  lemma {:induction false} ExtendAll(cfg: Config, run: Run, steps: seq<Step>) returns (run': Run)
    requires IsDisciplinedRun(cfg, run) && run.states != []
    requires AllEnabled(Last(run), steps) && AllDisciplined(Last(run), steps)
    ensures IsDisciplinedRun(cfg, run') && run'.states != [] && Last(run') == ApplyAll(Last(run), steps)
    ensures Extends(run, steps, run')
    decreases |steps|
  {
    hide Enabled, Apply, Disciplined;
    if steps == [] {
      run' := run;
      assert run.steps + steps == run.steps;
    } else {
      var one := ExtendOne(cfg, run, steps[0]);
      run' := ExtendAll(cfg, one, steps[1..]);
      assert run.steps + [steps[0]] + steps[1..] == run.steps + steps;
    }
  }

  lemma ExtendOne(cfg: Config, run: Run, step: Step) returns (run': Run)
    requires IsDisciplinedRun(cfg, run) && run.states != []
    requires Enabled(Last(run), step) && Disciplined(Last(run), step)
    ensures IsDisciplinedRun(cfg, run') && run'.states != [] && Last(run') == Apply(Last(run), step)
    ensures Extends(run, [step], run')
  {
    hide Enabled, Apply, Disciplined;
    run' := Run(run.states + [Apply(Last(run), step)], run.steps + [step]);
    forall i | 0 <= i < |run'.steps|
      ensures Enabled(run'.states[i], run'.steps[i]) && run'.states[i + 1] == Apply(run'.states[i], run'.steps[i])
      ensures Disciplined(run'.states[i], run'.steps[i])
    {
      if i < |run.steps| { assert run'.states[i + 1] == run.states[i + 1]; }
    }
  }

  // Act `n` makes the run's steps from `at[n]` to `at[n + 1]`.
  ghost predicate Makes(s: System, a: Act, run: Run, from: nat, to: nat) {
    CanAct(s, a) && from <= to <= |run.steps| && run.steps[from..to] == Steps(s, a)
  }

  /**
   The run is what the master goes through in the history up to `i`: it is in state
   `at[n]` when the system is in state `n`, and act `n` makes the steps in between.
   */
  ghost predicate Mirrors(states: seq<System>, acts: seq<Act>, i: nat, run: Run, at: seq<nat>) {
    && i < |states| == |acts| + 1 && |at| == i + 1 && at[i] == |run.steps|
    && (forall n | 0 <= n <= i :: at[n] < |run.states| && run.states[at[n]] == states[n].world)
    && (forall n | 0 <= n < i :: Makes(states[n], acts[n], run, at[n], at[n + 1]))
  }

  /** Workers that live like this are disciplined: what the master goes through is a disciplined run. */
  lemma {:induction false} LifeIsDisciplined(cfg: Config, states: seq<System>, acts: seq<Act>, i: nat)
    returns (run: Run, at: seq<nat>)
    requires IsHistory(cfg, states, acts) && i < |states|
    ensures IsDisciplinedRun(cfg, run) && Mirrors(states, acts, i, run, at)
  {
    hide Enabled, Apply, Disciplined, Steps, Linked, AllEnabled, ApplyAll, AllDisciplined, Workers, CanAct;
    if i == 0 {
      run, at := Run([Start(cfg)], []), [0];
    } else {
      var before, at0 := LifeIsDisciplined(cfg, states, acts, i - 1);
      AlwaysLinked(cfg, states, acts, i - 1);
      var s, a := states[i - 1], acts[i - 1];
      ActKeeps(s, a, states[i]);
      run := ExtendAll(cfg, before, Steps(s, a));
      at := at0 + [|run.steps|];
      hide IsDisciplinedRun;
      MirrorsOn(states, acts, i, before, at0, run);
    }
  }

  lemma MirrorsOn(states: seq<System>, acts: seq<Act>, i: nat, before: Run, at: seq<nat>, run: Run)
    requires 0 < i < |states| && Mirrors(states, acts, i - 1, before, at) && CanAct(states[i - 1], acts[i - 1])
    requires |before.states| == |before.steps| + 1 && |run.states| == |run.steps| + 1 && Last(run) == states[i].world
    requires Extends(before, Steps(states[i - 1], acts[i - 1]), run)
    ensures Mirrors(states, acts, i, run, at + [|run.steps|])
  {
    hide Steps, CanAct;
    var at' := at + [|run.steps|];
    forall n | 0 <= n < i ensures Makes(states[n], acts[n], run, at'[n], at'[n + 1]) {
      if n < i - 1 {
        assert Makes(states[n], acts[n], before, at[n], at[n + 1]);
        assert run.steps[at[n]..at[n + 1]] == before.steps[at[n]..at[n + 1]];
      }
    }
  }

  /**
   The system keeps its slots: whatever the network loses, delays or repeats and whoever is
   shut down, a job's indices are exactly 0..n-1 with n at most its target, and no worker
   still running owes a result to two unfinished jobs.
   */
  lemma SystemKeepsSlots(cfg: Config, states: seq<System>, acts: seq<Act>, i: nat)
    requires IsHistory(cfg, states, acts) && i < |states|
    ensures forall j | j in states[i].world.m.jobs ::
      Dense(states[i].world.m.jobs[j].slots) && |states[i].world.m.jobs[j].slots| <= states[i].world.m.jobs[j].target
    ensures forall w, j, k | Owes(states[i].world, w, j) && Owes(states[i].world, w, k) :: j == k
  {
    var run, at := LifeIsDisciplined(cfg, states, acts, i);
    SlotsInEveryRun(cfg, run, at[i]);
  }

  /**
   A FetchJob answered again: if the master once answered a worker's fetch with (j, index)
   and executes another fetch of that worker, be it a new one, a retry or a duplicate, while
   the worker still owes j a result, the answer is (j, index) again and no slot is used.
   */
  lemma RefetchGetsTheSameSlot(cfg: Config, states: seq<System>, acts: seq<Act>, i: nat, k: nat, w: WorkerId)
    requires IsHistory(cfg, states, acts) && i < k < |acts| == |states| - 1
    requires acts[i].Serve? && acts[i].r == FetchRequest(w) && acts[k].Serve? && acts[k].r == FetchRequest(w)
    requires FetchJob(states[i].world.m, w, acts[i].now).1.Assigned?
    requires Owes(states[k].world, w, FetchJob(states[i].world.m, w, acts[i].now).1.job)
    ensures FetchJob(states[k].world.m, w, acts[k].now).1 == FetchJob(states[i].world.m, w, acts[i].now).1
    ensures forall j | j in states[k].world.m.jobs ::
      j in states[k + 1].world.m.jobs && states[k + 1].world.m.jobs[j].slots == states[k].world.m.jobs[j].slots
  {
    hide *;
    var run, at := LifeIsDisciplined(cfg, states, acts, k + 1);
    ServedAt(states, acts, k + 1, run, at, k);
    RefetchInRun(cfg, states, acts, i, k, w, run, at);
    AfterServe(cfg, states, acts, k, run, at[k]);
  }

  lemma RefetchInRun(cfg: Config, states: seq<System>, acts: seq<Act>, i: nat, k: nat, w: WorkerId, run: Run, at: seq<nat>)
    requires IsDisciplinedRun(cfg, run) && Mirrors(states, acts, k + 1, run, at) && i < k < |acts|
    requires acts[i].Serve? && acts[i].r == FetchRequest(w) && acts[k].Serve? && acts[k].r == FetchRequest(w)
    requires FetchJob(states[i].world.m, w, acts[i].now).1.Assigned?
    requires Owes(states[k].world, w, FetchJob(states[i].world.m, w, acts[i].now).1.job)
    ensures FetchJob(states[k].world.m, w, acts[k].now).1 == FetchJob(states[i].world.m, w, acts[i].now).1
    ensures at[k] + 1 < |run.states|
    ensures forall j | j in states[k].world.m.jobs ::
      j in run.states[at[k] + 1].m.jobs && run.states[at[k] + 1].m.jobs[j].slots == states[k].world.m.jobs[j].slots
  {
    hide FetchJob, Owes, Apply, Enabled, Disciplined, Steps, CanAct;
    ServedAt(states, acts, k + 1, run, at, i);
    ServedAt(states, acts, k + 1, run, at, k);
    Ordered(states, acts, k + 1, run, at, i + 1, k);
    assert run.states[at[i]] == states[i].world && run.states[at[k]] == states[k].world;
    assert |run.states| == |run.steps| + 1;
    hide Makes, Mirrors, IsDisciplinedRun;
    RepeatedFetchSameSlot(cfg, run, at[i], at[k], w, acts[i].now, acts[k].now);
  }

  /** In the whole system two workers of one job are never told the same index. */
  lemma NoTwoWorkersShareAnIndex(cfg: Config, states: seq<System>, acts: seq<Act>, i: nat, k: nat, v: WorkerId, w: WorkerId)
    requires IsHistory(cfg, states, acts) && i < k < |acts| == |states| - 1 && v != w
    requires acts[i].Serve? && acts[i].r == FetchRequest(v) && acts[k].Serve? && acts[k].r == FetchRequest(w)
    requires var a, b := FetchJob(states[i].world.m, v, acts[i].now).1, FetchJob(states[k].world.m, w, acts[k].now).1;
      a.Assigned? && b.Assigned? && a.job == b.job
      && a.job in states[k + 1].world.m.jobs && |states[k + 1].world.m.jobs[a.job].slots| <= 0x8000_0000
    ensures FetchJob(states[i].world.m, v, acts[i].now).1.index != FetchJob(states[k].world.m, w, acts[k].now).1.index
  {
    hide *;
    var run, at := LifeIsDisciplined(cfg, states, acts, k + 1);
    ServedAt(states, acts, k + 1, run, at, i);
    ServedAt(states, acts, k + 1, run, at, k);
    Ordered(states, acts, k + 1, run, at, i + 1, k);
    AfterServe(cfg, states, acts, k, run, at[k]);
    ExecuteIs(v, acts[i].now);
    ExecuteIs(w, acts[k].now);
    RunIsLong(cfg, run);
    Answers.NoTwoWorkersShareAnIndex(cfg, run, at[i], at[k], v, w, acts[i].now, acts[k].now);
  }

  lemma ExecuteIs(w: WorkerId, now: Now)
    ensures Execute(FetchRequest(w), now) == Fetch(w, now)
  {}

  lemma RunIsLong(cfg: Config, run: Run)
    requires IsDisciplinedRun(cfg, run)
    ensures |run.states| == |run.steps| + 1
  {
    hide Enabled, Apply, Disciplined;
  }

  // Where the run executes the request.
  lemma ServedAt(states: seq<System>, acts: seq<Act>, i: nat, run: Run, at: seq<nat>, n: nat)
    requires Mirrors(states, acts, i, run, at) && n < i && n < |acts| && acts[n].Serve?
    ensures n + 1 < |at| && n < |states| && at[n] < |run.states| && run.states[at[n]] == states[n].world
    ensures at[n] < at[n + 1] <= |run.steps| && run.steps[at[n]] == Execute(acts[n].r, acts[n].now)
  {
    assert Makes(states[n], acts[n], run, at[n], at[n + 1]);
    hide CanAct;
    assert run.steps[at[n]..at[n + 1]][0] == Steps(states[n], acts[n])[0];
  }

  lemma {:induction false} Ordered(states: seq<System>, acts: seq<Act>, i: nat, run: Run, at: seq<nat>, a: nat, b: nat)
    requires Mirrors(states, acts, i, run, at) && a <= b <= i
    ensures |at| == i + 1 && at[a] <= at[b]
  {
    if a < b {
      Ordered(states, acts, i, run, at, a, b - 1);
      assert Makes(states[b - 1], acts[b - 1], run, at[b - 1], at[b]);
    }
  }

  // Executing a fetch changes the records once, whether or not a shutdown follows.
  lemma AfterServe(cfg: Config, states: seq<System>, acts: seq<Act>, k: nat, run: Run, n: nat)
    requires IsHistory(cfg, states, acts) && k < |acts| && acts[k].Serve? && acts[k].r.FetchRequest?
    requires IsDisciplinedRun(cfg, run) && n < |run.steps|
    requires run.states[n] == states[k].world && run.steps[n] == Execute(acts[k].r, acts[k].now)
    ensures states[k + 1].world.m == run.states[n + 1].m
  {
    var s, a := states[k], acts[k];
    var step := Execute(a.r, a.now);
    assert Moves(s, a, states[k + 1]) && run.states[n + 1] == Apply(s.world, step);
    if Steps(s, a) == [step] {
      One(s.world, step);
    } else {
      assert Steps(s, a) == [step, Shutdown(a.r.w)];
      Two(s.world, step, Shutdown(a.r.w));
    }
    hide FetchJob, ApplyAll, AllEnabled;
  }

  /** A worker reports a result only for a job it was given, and only once told that the job started or ended, or to stop. */
  lemma ResultsAreDue(cfg: Config, states: seq<System>, acts: seq<Act>, i: nat, w: WorkerId)
    requires IsHistory(cfg, states, acts) && i < |states|
    requires IsBusy(states[i], w, Reporting) || IsBusy(states[i], w, Quitting)
    ensures var j := At(states[i], w).at.job;
      (w, j) in states[i].world.granted && ((w, j) in states[i].world.told || w in states[i].world.down)
  {
    AlwaysLinked(cfg, states, acts, i);
    assert Knows(states[i].world, w, At(states[i], w));
  }
}
