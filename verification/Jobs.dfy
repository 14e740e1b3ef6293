/**
 One job's record (crates/cvd-master/src/state/job.rs) and the changes the RPC
 handlers make to it while they hold the jobs lock.
 */
module Jobs {
  import opened Types
  import opened Aggregation

  datatype Phase = Unspecified | PhasePreparing | WaitingStart | Warmup | Measuring | Cleanup | Finished

  datatype Progress = Progress(elapsed: int, phase: Phase, perOp: map<string, OpMetrics>)

  // The error recorded with a failed job.
  datatype Failure =
    | ReadyFailure(worker: WorkerId, reason: string)
    | WorkerFailure(worker: WorkerId)
    | Reported(message: string)
    | StaleWorker(worker: WorkerId)
    | PrepareTimeout
    | ManifestFailure(reason: string)

  // One reading of the two clocks a handler consults: unix milliseconds and a
  // monotonic instant.
  datatype Now = Now(ms: int, instant: int)

  datatype Job = Job(
    status: Status,
    target: int,
    created: int,
    error: Option<Failure>,
    slots: map<WorkerId, int>,
    run: set<WorkerId>,
    ready: set<WorkerId>,
    startAt: int,
    results: map<WorkerId, WorkerResult>,
    lastSeen: map<WorkerId, int>,
    preparingSince: Option<int>,
    progress: map<WorkerId, Progress>,
    summary: Option<Summary>,
    terminalAt: Option<int>,
    hasManifest: bool,
    manifestStarted: bool,
    cancelFlag: bool)
  {
    function Touch(w: WorkerId, now: Now): Job {
      this.(lastSeen := lastSeen[w := now.instant])
    }

    function SlotsRemaining(): int {
      if target > |slots| then target - |slots| else 0
    }

    /** Takes a slot for `w`; the caller has checked that one remains. */
    function Assign(w: WorkerId, now: Now): Job {
      this.(slots := slots[w := |slots|]).Touch(w, now)
    }

    function EnterPreparing(now: Now): Job {
      if !status.Pending? then this
      else this.(run := slots.Keys, preparingSince := Some(now.instant), status := Preparing)
    }

    function StartManifest(): Job {
      if hasManifest then this.(manifestStarted := true) else this
    }

    /** What `fetch_job` does to the record that hands out a slot. */
    function TakeSlot(w: WorkerId, now: Now): Job {
      var r := Assign(w, now);
      if r.SlotsRemaining() == 0 then r.EnterPreparing(now).StartManifest() else r
    }

    /** The part of `report_ready` that moves the start barrier. */
    function MarkReady(w: WorkerId, startDelay: int, now: Now): Job {
      if status.Preparing? || status.Pending? then
        var r := this.(ready := ready + {w});
        if status.Preparing? && startAt == 0 && run != {} && |r.ready| == |run|
        then r.(startAt := now.ms + startDelay, status := Running)
        else r
      else this
    }

    /** Any transition into a final state: aggregate, stamp, release the manifest. */
    ghost function Close(final: Status, why: Option<Failure>, now: Now): Job {
      this.(status := final, error := why,
            summary := Some(Summarize(Values(results))),
            terminalAt := if terminalAt.None? then Some(now.ms) else terminalAt,
            cancelFlag := true)
    }

    /** The record after a first result from `w` in a RUNNING or CANCELLED job. */
    function AddResult(w: WorkerId, result: WorkerResult, now: Now): Job {
      var final := if result.success then Finished else Unspecified;
      var r := Touch(w, now).(progress := progress[w := Progress(result.duration, final, result.perOp)]);
      if status.Cancelled? then r else r.(results := results[w := result])
    }

    function FailureOf(w: WorkerId, result: WorkerResult): Failure {
      if result.error.Some? then Reported(result.error.value) else WorkerFailure(w)
    }

    function LastSeen(w: WorkerId, now: Now): int {
      if w in lastSeen then lastSeen[w] else if preparingSince.Some? then preparingSince.value else now.instant
    }

    predicate StaleIn(w: WorkerId, threshold: int, now: Now) {
      w in run && now.instant - LastSeen(w, now) > threshold
    }

    predicate Overdue(timeout: int, now: Now) {
      status.Preparing? && preparingSince.Some? && now.instant - preparingSince.value > timeout
    }

    function GcBaseline(): int { if terminalAt.Some? then terminalAt.value else created }
  }

  /** `CreateJob` normalises a missing or non-positive worker count to one. */
  function Target(raw: int): int { if raw <= 0 then 1 else raw }

  function NewJob(raw: int, manifest: bool, now: Now): Job {
    Job(Pending, Target(raw), now.ms, None, map[], {}, {}, 0, map[], map[], None, map[], None, None,
        manifest, false, false)
  }

  function SanitizeProgress(p: Progress): Progress {
    if p.phase.Warmup? || p.phase.Measuring? then p else p.(perOp := map[])
  }

  // ----------------------------------------------------------------- invariant

  ghost predicate AllSucceeded(results: map<WorkerId, WorkerResult>) {
    forall w | w in results :: results[w].success
  }

  // The crew is complete and frozen.
  ghost predicate Crewed(r: Job) {
    r.run != {} && r.run == r.slots.Keys && |r.slots| == r.target
  }

  ghost predicate StatusInv(r: Job) {
    match r.status
    case Pending => |r.slots| < r.target && r.run == {} && r.startAt == 0 && !r.manifestStarted && r.results == map[]
    case Preparing => Crewed(r) && r.ready < r.run && r.startAt == 0 && r.results == map[]
    case Running => Crewed(r) && r.ready == r.run && r.results.Keys < r.run && AllSucceeded(r.results)
    case Completed => Crewed(r) && r.ready == r.run && r.results.Keys == r.run && AllSucceeded(r.results)
    case Failed => Crewed(r)
    case Cancelled => Crewed(r) || (r.run == {} && |r.slots| < r.target)
  }

  ghost predicate FinalInv(r: Job) {
    if r.status.Terminal()
    then r.summary == Some(Summarize(Values(r.results))) && r.terminalAt.Some? && r.cancelFlag
    else r.summary.None? && r.terminalAt.None? && !r.cancelFlag && r.error.None?
  }

  /** What holds of a record whenever the jobs lock is free. */
  ghost predicate JobInv(r: Job) {
    && r.target >= 1
    && r.ready <= r.slots.Keys
    && r.results.Keys <= r.run
    && (r.startAt != 0 ==> Crewed(r) && r.ready == r.run)
    && StatusInv(r)
    && FinalInv(r)
  }

  lemma NewJobInv(raw: int, manifest: bool, now: Now)
    ensures JobInv(NewJob(raw, manifest, now))
  {}

  lemma TouchInv(r: Job, w: WorkerId, now: Now)
    requires JobInv(r)
    ensures JobInv(r.Touch(w, now))
  {}

  /**
   A PENDING record always has a free slot, and handing it out leaves a good
   record: still PENDING with room, or PREPARING with a full crew of which the
   newcomer at least is not ready, so the barrier cannot already be passed.
   */
  lemma TakeSlotInv(r: Job, w: WorkerId, now: Now)
    requires JobInv(r) && r.status.Pending?
    ensures r.SlotsRemaining() > 0
    ensures JobInv(r.TakeSlot(w, now))
    ensures r.TakeSlot(w, now).status.Preparing? <==> w !in r.slots && |r.slots| + 1 == r.target
    ensures r.TakeSlot(w, now).status.Pending? || r.TakeSlot(w, now).status.Preparing?
  {
    hide Summarize, Values, AllSucceeded;
    MapSize(r.slots, w, |r.slots|);
    if w !in r.slots { assert w !in r.ready && w in r.slots[w := |r.slots|].Keys; }
  }

  lemma MapSize<T>(m: map<WorkerId, T>, w: WorkerId, v: T)
    ensures m[w := v].Keys == m.Keys + {w}
    ensures |m[w := v]| == if w in m then |m| else |m| + 1
  {
    var a := m[w := v];
    assert |a| == |a.Keys| && |m| == |m.Keys|;
    assert a.Keys == m.Keys + {w};
    if w in m { assert a.Keys == m.Keys; }
  }

  lemma SubsetSize<T>(a: set<T>, b: set<T>)
    requires a <= b
    ensures |a| <= |b|
    ensures |a| == |b| <==> a == b
  {
    assert b == a + (b - a);
    assert |b| == |a| + |b - a|;
  }

  /** The barrier's count test is exact: it passes when, and only when, everyone is ready. */
  lemma MarkReadyInv(r: Job, w: WorkerId, delay: int, now: Now)
    requires JobInv(r) && w in r.slots
    ensures JobInv(r.MarkReady(w, delay, now))
    ensures r.status.Preparing? ==> (r.MarkReady(w, delay, now).status.Running? <==> r.ready + {w} == r.run)
  {
    if r.status.Preparing? {
      SubsetSize(r.ready + {w}, r.run);
    }
  }

  lemma CloseInv(r: Job, final: Status, why: Option<Failure>, now: Now)
    requires JobInv(r) && !r.status.Terminal()
    requires final.Cancelled? || (final.Failed? && Crewed(r))
    ensures JobInv(r.Close(final, why, now))
  {}

  /** The completion test is exact too: equal counts mean every run worker has succeeded. */
  lemma AddResultInv(r: Job, w: WorkerId, result: WorkerResult, now: Now)
    requires JobInv(r) && r.status.Running? && w in r.run && w !in r.results
    ensures var r' := r.AddResult(w, result, now);
      && (result.success && |r'.results| != |r'.run| ==> JobInv(r'))
      && (result.success && |r'.results| == |r'.run| ==> JobInv(r'.Close(Completed, r'.error, now)))
      && (!result.success ==> JobInv(r'.Close(Failed, Some(r.FailureOf(w, result)), now)))
      && (|r'.results| == |r'.run| <==> r'.results.Keys == r'.run)
  {
    hide Summarize, Values;
    var r' := r.AddResult(w, result, now);
    MapSize(r.results, w, result);
    assert |r'.results| == |r'.results.Keys|;
    SubsetSize(r'.results.Keys, r'.run);
  }
}
