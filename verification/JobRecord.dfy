/**
 The record as the master holds it: an object whose fields the handlers update in
 place (crates/cvd-master/src/state/job.rs, crates/cvd-master/src/aggregate.rs).
 `Value` is the record of Jobs.dfy it stands for; every method states its effect as
 the function of that name there.
 */
module JobRecords {
  import opened Types
  import opened Aggregation
  import opened Jobs

  class JobRecord {
    var status: Status
    const target: int
    const created: int
    var error: Option<Failure>
    var slots: map<WorkerId, int>
    var run: set<WorkerId>
    var ready: set<WorkerId>
    var startAt: int
    var results: map<WorkerId, WorkerResult>
    var lastSeen: map<WorkerId, int>
    var preparingSince: Option<int>
    var progress: map<WorkerId, Progress>
    var summary: Option<Summary>
    var terminalAt: Option<int>
    const hasManifest: bool
    var manifestStarted: bool
    var cancelFlag: bool

    ghost function Value(): Job
      reads this
    {
      Job(status, target, created, error, slots, run, ready, startAt, results, lastSeen, preparingSince, progress,
          summary, terminalAt, hasManifest, manifestStarted, cancelFlag)
    }

    constructor (raw: int, manifest: bool, now: Now)
      ensures Value() == NewJob(raw, manifest, now)
    {
      status, target, created, error := Pending, if raw <= 0 then 1 else raw, now.ms, None;
      slots, run, ready, startAt := map[], {}, {}, 0;
      results, lastSeen, preparingSince, progress := map[], map[], None, map[];
      summary, terminalAt, hasManifest, manifestStarted, cancelFlag := None, None, manifest, false, false;
    }

    predicate IsTerminal()
      reads this
    {
      status.Completed? || status.Failed? || status.Cancelled?
    }

    function SlotsFilled(): nat
      reads this
    {
      |slots|
    }

    function SlotsRemaining(): int
      reads this
      ensures SlotsRemaining() == Value().SlotsRemaining()
    {
      if target > SlotsFilled() then target - SlotsFilled() else 0
    }

    method Touch(w: WorkerId, now: Now)
      modifies this
      ensures Value() == old(Value()).Touch(w, now)
    {
      lastSeen := lastSeen[w := now.instant];
    }

    method TryAssign(w: WorkerId, now: Now) returns (index: Option<int>)
      modifies this
      ensures index == if old(Value()).SlotsRemaining() == 0 then None else Some(|old(slots)|)
      ensures Value() == if index.None? then old(Value()) else old(Value()).Assign(w, now)
    {
      if SlotsRemaining() == 0 { return None; }
      var i := SlotsFilled();
      slots := slots[w := i];
      Touch(w, now);
      index := Some(i);
    }

    method EnterPreparing(now: Now)
      modifies this
      ensures Value() == old(Value()).EnterPreparing(now)
    {
      if status != Pending { return; }
      run := slots.Keys;
      preparingSince := Some(now.instant);
      status := Preparing;
    }

    method StartManifest()
      modifies this
      ensures Value() == old(Value()).StartManifest()
    {
      if hasManifest { manifestStarted := true; }
    }

    /** What `fetch_job` does to the record: a slot if there is one, and the last slot completes the crew. */
    method TakeSlot(w: WorkerId, now: Now) returns (index: Option<int>)
      modifies this
      ensures index == if old(Value()).SlotsRemaining() == 0 then None else Some(|old(slots)|)
      ensures Value() == if index.None? then old(Value()) else old(Value()).TakeSlot(w, now)
      ensures results == old(results)
    {
      index := TryAssign(w, now);
      if index.Some? && SlotsRemaining() == 0 {
        EnterPreparing(now);
        StartManifest();
      }
    }

    /** The barrier of `report_ready`; true when this call opened it. */
    method MarkReady(w: WorkerId, startDelay: nat, now: Now) returns (justStarted: bool)
      modifies this
      ensures Value() == old(Value()).MarkReady(w, startDelay, now)
      ensures justStarted <==> status != old(status)
    {
      justStarted := false;
      if status == Preparing || status == Pending {
        ready := ready + {w};
        if status == Preparing && startAt == 0 && run != {} && |ready| == |run| {
          startAt := now.ms + startDelay;
          status := Running;
          justStarted := true;
        }
      }
    }

    method RecordProgress(w: WorkerId, p: Progress)
      modifies this
      ensures Value() == old(Value()).(progress := old(progress)[w := p])
    {
      progress := progress[w := p];
    }

    method AddResult(w: WorkerId, result: WorkerResult, now: Now)
      modifies this
      ensures Value() == old(Value()).AddResult(w, result, now)
    {
      Touch(w, now);
      var final := if result.success then Finished else Unspecified;
      progress := progress[w := Progress(result.duration, final, result.perOp)];
      if status != Cancelled {
        results := results[w := result];
      }
    }

    // The values of the result map, in whatever order the map yields them.
    method CollectResults() returns (out: seq<WorkerResult>)
      ensures multiset(out) == Values(results)
    {
      out := [];
      var rest := results;
      while rest != map[]
        invariant multiset(out) + Values(rest) == Values(results)
        decreases |rest|
      {
        var w := Pick(rest.Keys);
        ValuesRemove(rest, w);
        out := out + [rest[w]];
        rest := rest - {w};
      }
    }

    /**
     `aggregate_into_record`: the summary of the results as they are now, and the
     time of the first final state. The summary is the order-free one unless a
     counter is negative.
     */
    method AggregateInto(now: Now)
      modifies this
      ensures summary.Some? && SummaryFor(Values(old(results)), summary.value)
      ensures Value() == old(Value()).(summary := summary,
                                       terminalAt := if old(terminalAt).None? then Some(now.ms) else old(terminalAt))
    {
      var workers := CollectResults();
      var s := Aggregate(workers);
      summary := Some(s);
      if terminalAt.None? { terminalAt := Some(now.ms); }
    }

    method CleanupOnTerminal()
      modifies this
      ensures Value() == old(Value()).(cancelFlag := true)
    {
      cancelFlag := true;
    }

    /** The steps shared by every transition to a final state. */
    method Close(final: Status, why: Option<Failure>, now: Now)
      modifies this
      ensures summary.Some? && SummaryFor(Values(old(results)), summary.value)
      ensures Value() == old(Value()).Close(final, why, now).(summary := summary)
      ensures AllValid(Values(old(results))) ==> Value() == old(Value()).Close(final, why, now)
    {
      status := final;
      error := why;
      AggregateInto(now);
      CleanupOnTerminal();
    }

    /** `find_stale_worker`: some run worker that was silent too long, if there is one. */
    method FindStaleWorker(now: Now, threshold: int) returns (found: Option<WorkerId>)
      ensures found.Some? ==> Value().StaleIn(found.value, threshold, now)
      ensures found.None? ==> forall w :: !Value().StaleIn(w, threshold, now)
    {
      var todo := run;
      while todo != {}
        invariant todo <= run
        invariant forall w | w in run - todo :: !Value().StaleIn(w, threshold, now)
        decreases |todo|
      {
        var w := Pick(todo);
        var seen := if w in lastSeen then lastSeen[w] else if preparingSince.Some? then preparingSince.value else now.instant;
        if now.instant - seen > threshold { return Some(w); }
        todo := todo - {w};
      }
      found := None;
    }
  }
}
