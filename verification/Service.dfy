/**
 The master as the program holds it: shared collections that the request handlers
 update in place (crates/cvd-master/src/state.rs and the handlers under scheduler/,
 service/, events.rs, manifest.rs and gc.rs). Each method is one critical section and
 is proved to be the step of that name in MasterState.dfy, so everything proved about
 runs of those steps is proved about these methods.
 */
module Service {
  import opened Types
  import opened Aggregation
  import opened Jobs
  import opened S = MasterState
  import opened Interleaving
  import opened JobRecords
  import opened Subscribers
  import StreamProofs

  lemma BroadcastTouchesStreams(m: Master, j: JobId, e: Event)
    ensures var sent := S.Broadcast(m, j, e); sent == m.(registry := sent.registry, chans := sent.chans)
  {}

  lemma NoReplay(m: Master, w: WorkerId, now: Now)
    ensures !Replays(m, w) ==> S.FetchJob(m, w, now) == FetchLoop(m.(active := m.active - {w}), w, now)
  {}

  lemma LoopEnds(m: Master, w: WorkerId, now: Now)
    requires m.queue == []
    ensures FetchLoop(m, w, now) == (m, NoJob)
  {}

  // One turn of the queue loop.
  lemma LoopTurn(m: Master, w: WorkerId, now: Now)
    requires m.queue != []
    ensures var j := m.queue[0];
      FetchLoop(m, w, now) ==
        if !IsPending(m.jobs, j) then FetchLoop(m.(queue := m.queue[1..]), w, now)
        else if m.jobs[j].SlotsRemaining() == 0
        then FetchLoop(SetJob(m, j, m.jobs[j].EnterPreparing(now)).(queue := m.queue[1..]), w, now)
        else AssignHead(m, w, now)
  {}

  function Bound(m: Master, w: WorkerId, j: JobId): Master { m.(active := m.active[w := j]) }

  lemma AssignHeadIs(m: Master, w: WorkerId, now: Now)
    requires m.queue != [] && m.queue[0] in m.jobs
    ensures var j := m.queue[0]; var r := m.jobs[j].TakeSlot(w, now);
      var given := Bound(SetJob(m, j, r), w, j);
      AssignHead(m, w, now) == (if r.SlotsRemaining() == 0 then Emit(given, j, StatusChange).(queue := m.queue[1..]) else given,
                                Assigned(j, WireIndex(|m.jobs[j].slots|)))
  {}

  class MasterState {
    const cfg: Config
    var jobs: map<JobId, JobRecord>
    var pendingQueue: seq<JobId>
    var workerActiveJobs: map<WorkerId, JobId>
    const subscribers: SubscriberRegistry
    var eventSeq: int
    // Everything broadcast so far; no handler looks at it.
    var log: map<JobId, seq<Event>>

    // One object per job, and counters that fit their type.
    ghost predicate Valid()
      reads `jobs, subscribers, jobs.Values
    {
      subscribers.Valid() && OwnRecords()
    }

    ghost predicate OwnRecords()
      reads `jobs, jobs.Values
    {
      && (forall i, j | i in jobs && j in jobs && i != j :: jobs[i] != jobs[j])
      && (forall j | j in jobs :: AllValid(Values(jobs[j].results)))
    }

    ghost function Records(): map<JobId, Job>
      reads `jobs, jobs.Values
    {
      map j | j in jobs :: jobs[j].Value()
    }

    lemma Fields()
      ensures Value().queue == pendingQueue && Value().active == workerActiveJobs && Value().cfg == cfg
      ensures Value().nextSeq == eventSeq && Value().log == log
      ensures Value().registry == subscribers.inner && Value().chans == subscribers.chans
      ensures Value().jobs.Keys == jobs.Keys && forall j | j in jobs :: Value().jobs[j] == jobs[j].Value()
    {}

    lemma PendingIs(j: JobId)
      ensures IsPending(Value().jobs, j) <==> j in jobs && jobs[j].status == Pending
    {}

    ghost function Value(): Master
      reads this, subscribers, jobs.Values
    {
      Master(cfg, Records(), pendingQueue, workerActiveJobs, subscribers.inner, subscribers.chans, eventSeq, log)
    }

    constructor (config: Config)
      ensures Valid() && Value() == Initial(config)
      ensures fresh(subscribers) && jobs == map[]
    {
      cfg, jobs, pendingQueue, workerActiveJobs, eventSeq, log := config, map[], [], map[], 1, map[];
      subscribers := new SubscriberRegistry();
    }

    // One record was rewritten; nothing else in the job table moved.
    twostate lemma OneRecord(j: JobId)
      requires old(Valid()) && jobs == old(jobs) && j in jobs
      requires forall i | i in jobs && i != j :: unchanged(jobs[i])
      ensures Records() == old(Records())[j := jobs[j].Value()]
    {
      forall i | i in jobs ensures Records()[i] == old(Records())[j := jobs[j].Value()][i] {}
    }

    // `build_event`: the next number, and the record as it is.
    method BuildEvent(j: JobId, kind: EventKind) returns (e: Event)
      requires Valid() && j in jobs
      modifies `eventSeq, `log
      ensures Valid() && e == EventFor(old(Value()), j, kind)
      ensures var m := old(Value()); Value() == m.(nextSeq := m.nextSeq + 1, log := m.log[j := Log(m, j) + [e]])
    {
      hide OwnRecords;
      var r := jobs[j];
      e := Event(j, eventSeq, r.status, kind, r.error, r.summary);
      eventSeq := eventSeq + 1;
      log := log[j := (if j in log then log[j] else []) + [e]];
    }

    /** `emit_for_job`. */
    method EmitForJob(j: JobId, kind: EventKind)
      requires Valid() && j in jobs
      modifies `eventSeq, `log, subscribers
      ensures Valid() && Value() == Emit(old(Value()), j, kind)
    {
      hide OwnRecords, S.Broadcast, Records;
      var e := BuildEvent(j, kind);
      ghost var numbered := Value();
      subscribers.Broadcast(j, e, numbered);
      assert Value() == numbered.(registry := subscribers.inner, chans := subscribers.chans);
      BroadcastTouchesStreams(numbered, j, e);
    }

    method TouchRecord(j: JobId, w: WorkerId, now: Now)
      requires Valid() && j in jobs
      modifies jobs[j]
      ensures Valid() && Value() == SetJob(old(Value()), j, old(Value()).jobs[j].Touch(w, now))
    {
      jobs[j].Touch(w, now);
      OneRecord(j);
    }

    // ------------------------------------------------------- the pending queue

    method PopIfFront(expected: JobId)
      requires Valid()
      modifies `pendingQueue
      ensures Valid()
      ensures var q := old(pendingQueue);
        Value() == old(Value()).(queue := if q != [] && q[0] == expected then q[1..] else q)
    {
      if pendingQueue != [] && pendingQueue[0] == expected { pendingQueue := pendingQueue[1..]; }
    }

    // ------------------------------------------------------------------ FetchJob

    // The record at the head gives a slot if it has one, and the worker is bound to the job.
    method BindToHead(w: WorkerId, now: Now) returns (index: Option<int>)
      requires Valid() && pendingQueue != [] && pendingQueue[0] in jobs
      modifies `workerActiveJobs, jobs[pendingQueue[0]]
      ensures Valid()
      ensures var m := old(Value()); var j := m.queue[0];
        if m.jobs[j].SlotsRemaining() == 0
        then index == None && Value() == m
        else
          && index == Some(|m.jobs[j].slots|)
          && jobs[j].SlotsRemaining() == m.jobs[j].TakeSlot(w, now).SlotsRemaining()
          && Value() == Bound(SetJob(m, j, m.jobs[j].TakeSlot(w, now)), w, j)
    {
      var top := pendingQueue[0];
      Fields();
      hide *;
      index := TakeSlotOf(top, w, now);
      if index.Some? { Bind(w, top); }
    }

    method Bind(w: WorkerId, j: JobId)
      requires Valid()
      modifies `workerActiveJobs
      ensures Valid() && Value() == Bound(old(Value()), w, j)
    {
      workerActiveJobs := workerActiveJobs[w := j];
    }

    method TakeSlotOf(j: JobId, w: WorkerId, now: Now) returns (index: Option<int>)
      requires Valid() && j in jobs
      modifies jobs[j]
      ensures Valid()
      ensures var m := old(Value());
        if m.jobs[j].SlotsRemaining() == 0
        then index == None && Value() == m
        else
          && index == Some(|m.jobs[j].slots|)
          && jobs[j].SlotsRemaining() == m.jobs[j].TakeSlot(w, now).SlotsRemaining()
          && Value() == SetJob(m, j, m.jobs[j].TakeSlot(w, now))
    {
      assert forall i | i in jobs && i != j :: jobs[i] != jobs[j];
      hide OwnRecords, AllValid, Job.TakeSlot, Job.SlotsRemaining, JobRecord.SlotsRemaining;
      index := jobs[j].TakeSlot(w, now);
      OneRecord(j);
      SameResults(j);
      assert Records() == old(Records())[j := jobs[j].Value()];
      if index.None? { assert Records() == old(Records()); }
    }

    method PrepareRecord(j: JobId, now: Now)
      requires Valid() && j in jobs
      modifies jobs[j]
      ensures Valid() && Value() == SetJob(old(Value()), j, old(Value()).jobs[j].EnterPreparing(now))
    {
      assert forall i | i in jobs && i != j :: jobs[i] != jobs[j];
      hide OwnRecords, AllValid;
      jobs[j].EnterPreparing(now);
      OneRecord(j);
      SameResults(j);
    }

    // The defensive branch: a full PENDING record is moved on and leaves the queue.
    method PrepareHead(now: Now)
      requires Valid() && pendingQueue != [] && pendingQueue[0] in jobs
      modifies `pendingQueue, jobs[pendingQueue[0]]
      ensures Valid()
      ensures var m := old(Value()); var j := m.queue[0];
        Value() == SetJob(m, j, m.jobs[j].EnterPreparing(now)).(queue := m.queue[1..])
    {
      hide OwnRecords, AllValid, Job.EnterPreparing, Valid, Records, JobRecord.Value;
      PrepareRecord(pendingQueue[0], now);
      pendingQueue := pendingQueue[1..];
    }

    // The head of the queue is PENDING: it gives the worker a slot, or, having none left, makes way.
    method OfferHead(w: WorkerId, now: Now) returns (reply: Option<FetchReply>)
      requires Valid() && pendingQueue != [] && IsPending(Value().jobs, pendingQueue[0])
      modifies `pendingQueue, `workerActiveJobs, `eventSeq, `log, jobs[pendingQueue[0]], subscribers
      ensures Valid()
      ensures var m := old(Value()); var j := m.queue[0];
        if m.jobs[j].SlotsRemaining() == 0
        then reply == None && Value() == SetJob(m, j, m.jobs[j].EnterPreparing(now)).(queue := m.queue[1..])
        else reply.Some? && (Value(), reply.value) == AssignHead(m, w, now)
    {
      var top := pendingQueue[0];
      AssignHeadIs(Value(), w, now);
      hide Emit, AllValid, AssignHead, OwnRecords, JobRecord.SlotsRemaining, Job.TakeSlot, Job.SlotsRemaining;
      var index := BindToHead(w, now);
      match index {
        case None =>
          PrepareHead(now);
          reply := None;
        case Some(i) =>
          if jobs[top].SlotsRemaining() == 0 {
            EmitForJob(top, StatusChange);
            PopIfFront(top);
          }
          reply := Some(Assigned(top, WireIndex(i)));
      }
    }

    // A record changed, but not its results.
    twostate lemma SameResults(j: JobId)
      requires old(Valid()) && jobs == old(jobs) && j in jobs && subscribers.Valid()
      requires forall i | i in jobs && i != j :: unchanged(jobs[i])
      requires jobs[j].results == old(jobs[j].results)
      ensures Valid()
    {
    }

    // Idempotent replay: the worker's binding is to an open job that knows it.
    method Replay(w: WorkerId, now: Now) returns (reply: Option<FetchReply>)
      requires Valid()
      modifies `workerActiveJobs, jobs.Values
      ensures Valid() && jobs == old(jobs)
      ensures var m := old(Value());
        if Replays(m, w)
        then reply.Some? && (Value(), reply.value) == S.FetchJob(m, w, now)
        else reply.None? && Value() == m.(active := m.active - {w})
    {
      hide OwnRecords, AllValid, FetchLoop, Job.Touch;
      if w in workerActiveJobs {
        var j := workerActiveJobs[w];
        if j in jobs && !jobs[j].IsTerminal() && w in jobs[j].slots {
          var index := jobs[j].slots[w];
          TouchRecord(j, w, now);
          return Some(Assigned(j, WireIndex(index)));
        }
        workerActiveJobs := workerActiveJobs - {w};
      }
      assert workerActiveJobs == old(workerActiveJobs) - {w};
      reply := None;
    }

    method DropHead()
      requires Valid() && pendingQueue != []
      modifies `pendingQueue
      ensures Valid() && Value() == old(Value()).(queue := old(Value()).queue[1..])
    {
      pendingQueue := pendingQueue[1..];
    }

    /** `fetch_job`, under all three locks. */
    method FetchJob(w: WorkerId, now: Now) returns (reply: FetchReply)
      requires Valid()
      modifies this, jobs.Values, subscribers
      ensures Valid() && jobs == old(jobs)
      ensures (Value(), reply) == S.FetchJob(old(Value()), w, now)
    {
      hide *;
      NoReplay(Value(), w, now);
      var again := Replay(w, now);
      if again.Some? { return again.value; }
      ghost var outcome := FetchLoop(Value(), w, now);
      while pendingQueue != []
        invariant Valid() && jobs == old(jobs)
        invariant FetchLoop(Value(), w, now) == outcome
        decreases |pendingQueue|
      {
        Fields();
        LoopTurn(Value(), w, now);
        var top := pendingQueue[0];
        PendingIs(top);
        if top !in jobs || jobs[top].status != Pending {
          DropHead();
          Fields();
          continue;
        }
        var offered := OfferHead(w, now);
        if offered.Some? { return offered.value; }
        Fields();
      }
      Fields();
      LoopEnds(Value(), w, now);
      reply := NoJob;
    }

    // ----------------------------------------------- sections after the jobs lock

    /** Drops the bindings of a crew that still point at the job, one worker after the other. */
    method ClearBindingsOf(j: JobId, crew: set<WorkerId>)
      requires Valid()
      modifies `workerActiveJobs
      ensures Valid() && Value() == ClearActive(old(Value()), j, crew)
    {
      ghost var active := workerActiveJobs;
      var todo := crew;
      while todo != {}
        invariant todo <= crew
        invariant workerActiveJobs == map w | w in active && !(w in crew - todo && active[w] == j) :: active[w]
        decreases |todo|
      {
        var w := Pick(todo);
        if w in workerActiveJobs && workerActiveJobs[w] == j { workerActiveJobs := workerActiveJobs - {w}; }
        todo := todo - {w};
      }
      assert crew - todo == crew;
    }

    method Finalize(j: JobId)
      requires Valid()
      modifies subscribers
      ensures Valid() && Value() == FinalizeStream(old(Value()), j)
    {
      subscribers.Terminate(j);
    }

    /** `pending::remove`: the first occurrence, wherever it is. */
    method RemovePendingJob(j: JobId)
      requires Valid()
      modifies `pendingQueue
      ensures Valid() && Value() == Unqueue(old(Value()), j)
    {
      var i := 0;
      while i < |pendingQueue| && pendingQueue[i] != j
        invariant 0 <= i <= |pendingQueue| && j !in pendingQueue[..i]
      {
        i := i + 1;
      }
      if i < |pendingQueue| {
        RemoveFirstAt(pendingQueue[..i], j, pendingQueue[i + 1..]);
        assert pendingQueue[..i] + [j] + pendingQueue[i + 1..] == pendingQueue;
        pendingQueue := pendingQueue[..i] + pendingQueue[i + 1..];
      } else {
        assert pendingQueue[..i] == pendingQueue;
        RemoveFirstNone(pendingQueue, j);
      }
    }

    // ----------------------------------------------------------------- CreateJob

    /** The first section of `create_job`, for an id nobody has drawn before. */
    method StoreJob(j: JobId, raw: int, manifest: bool, now: Now)
      requires Valid() && j !in jobs
      modifies `jobs, `eventSeq, `log, subscribers
      ensures Valid() && jobs.Keys == old(jobs).Keys + {j}
      ensures Value() == CreateRecord(old(Value()), j, raw, manifest, now)
    {
      InsertNew(j, raw, manifest, now);
      hide OwnRecords, Emit, NewJob;
      EmitForJob(j, StatusChange);
    }

    method InsertNew(j: JobId, raw: int, manifest: bool, now: Now)
      requires Valid() && j !in jobs
      modifies `jobs
      ensures Valid() && jobs.Keys == old(jobs).Keys + {j} && fresh(jobs[j])
      ensures forall i | i in old(jobs) :: jobs[i] == old(jobs)[i]
      ensures Value() == SetJob(old(Value()), j, NewJob(raw, manifest, now))
    {
      var record := new JobRecord(raw, manifest, now);
      NoResultsAreValid(record);
      hide NewJob, AllValid, OwnRecords, Records, JobRecord.Value;
      jobs := jobs[j := record];
      Inserted(j, record);
    }

    twostate lemma Inserted(j: JobId, new record: JobRecord)
      requires old(OwnRecords()) && j !in old(jobs) && jobs == old(jobs)[j := record]
      requires forall i | i in old(jobs) :: unchanged(old(jobs)[i])
      requires record !in old(jobs).Values && AllValid(Values(record.results))
      ensures OwnRecords() && Records() == old(Records())[j := record.Value()]
    {
      hide AllValid;
      forall i | i in old(jobs) ensures old(jobs)[i] != record { assert old(jobs)[i] in old(jobs).Values; }
      var wanted, table := old(Records())[j := record.Value()], Records();
      assert table.Keys == wanted.Keys;
      forall i | i in table ensures table[i] == wanted[i] {
        if i != j { assert jobs[i] == old(jobs)[i] && old(Records())[i] == old(jobs[i].Value()); }
      }
    }

    lemma NoResultsAreValid(r: JobRecord)
      requires r.results == map[]
      ensures AllValid(Values(r.results))
    {}

    method QueueJob(j: JobId)
      requires Valid()
      modifies `pendingQueue
      ensures Valid() && Value() == PushBack(old(Value()), j)
    {
      pendingQueue := pendingQueue + [j];
    }

    // ------------------------------------------------------------ worker requests

    // Rewrites a record and announces its final state.
    method CloseRecord(j: JobId, final: Status, why: Option<Failure>, now: Now)
      requires Valid() && j in jobs
      modifies `eventSeq, `log, subscribers, jobs[j]
      ensures Valid()
      ensures Value() == CloseJob(old(Value()), j, old(Value()).jobs[j].Close(final, why, now))
    {
      jobs[j].Close(final, why, now);
      OneRecord(j);
      SameResults(j);
      hide OwnRecords, Emit, AllValid, Job.Close;
      EmitForJob(j, StatusChange);
    }

    // Touches, then rewrites and closes.
    method TouchAndClose(j: JobId, w: WorkerId, final: Status, why: Option<Failure>, now: Now)
      requires Valid() && j in jobs
      modifies `eventSeq, `log, subscribers, jobs[j]
      ensures Valid()
      ensures Value() == CloseJob(old(Value()), j, old(Value()).jobs[j].Touch(w, now).Close(final, why, now))
    {
      hide OwnRecords, Emit, AllValid, Job.Close, Job.Touch;
      ghost var m := Value();
      TouchRecord(j, w, now);
      CloseRecord(j, final, why, now);
      SetTwice(m, j, m.jobs[j].Touch(w, now), m.jobs[j].Touch(w, now).Close(final, why, now));
    }

    method MarkReadyRecord(j: JobId, w: WorkerId, now: Now) returns (justStarted: bool)
      requires Valid() && j in jobs
      modifies jobs[j]
      ensures Valid()
      ensures var r := old(Value()).jobs[j]; var r' := r.Touch(w, now).MarkReady(w, cfg.startDelay, now);
        && Value() == SetJob(old(Value()), j, r') && jobs[j].startAt == r'.startAt
        && (justStarted <==> r'.status != r.status)
    {
      jobs[j].Touch(w, now);
      justStarted := jobs[j].MarkReady(w, cfg.startDelay, now);
      OneRecord(j);
      SameResults(j);
    }

    /** The section of `report_ready` under the jobs lock. */
    method ReportReady(w: WorkerId, j: JobId, failure: Option<string>, now: Now) returns (reply: ReadyReply, rest: Closing)
      requires Valid()
      modifies this, jobs.Values, subscribers
      ensures Valid() && jobs == old(jobs)
      ensures (Value(), reply, rest) == S.ReportReady(old(Value()), w, j, failure, now)
    {
      hide OwnRecords, Emit, AllValid, Job.Close, Job.Touch, Job.MarkReady;
      if j !in jobs { return ReadyReply(false, true, 0), Stays; }
      var record := jobs[j];
      if record.status == Cancelled { return ReadyReply(true, false, 0), Stays; }
      if record.IsTerminal() || w !in record.slots { return ReadyReply(false, true, 0), Stays; }
      match failure {
        case Some(reason) =>
          if record.status != Preparing {
            TouchRecord(j, w, now);
            return ReadyReply(false, true, 0), Stays;
          }
          var crew := record.slots.Keys;
          TouchAndClose(j, w, Failed, Some(ReadyFailure(w, reason)), now);
          return ReadyReply(false, false, 0), Closes(j, crew);
        case None =>
          var justStarted := MarkReadyRecord(j, w, now);
          reply := ReadyReply(false, false, record.startAt);
          if justStarted { EmitForJob(j, StatusChange); }
          return reply, Stays;
      }
    }

    method TouchAndRecord(j: JobId, w: WorkerId, p: Progress, now: Now)
      requires Valid() && j in jobs
      modifies jobs[j]
      ensures Valid()
      ensures var r := old(Value()).jobs[j];
        Value() == SetJob(old(Value()), j, r.Touch(w, now).(progress := r.progress[w := p]))
    {
      jobs[j].Touch(w, now);
      jobs[j].RecordProgress(w, p);
      OneRecord(j);
      SameResults(j);
    }

    method ReportProgress(w: WorkerId, j: JobId, p: Progress, now: Now) returns (ack: Ack)
      requires Valid()
      modifies this, jobs.Values, subscribers
      ensures Valid() && jobs == old(jobs)
      ensures (Value(), ack) == S.ReportProgress(old(Value()), w, j, p, now)
    {
      hide OwnRecords, Emit, AllValid, Job.Touch;
      var cleaned := if p.phase.Warmup? || p.phase.Measuring? then p else p.(perOp := map[]);
      if j !in jobs { return Ack(false, true); }
      var record := jobs[j];
      if record.status == Cancelled {
        TouchRecord(j, w, now);
        return Ack(true, false);
      }
      if record.IsTerminal() { return Ack(false, true); }
      if w !in record.slots { return Ack(false, true); }
      TouchAndRecord(j, w, cleaned, now);
      EmitForJob(j, ProgressEvent);
      ack := Ack(false, false);
    }

    /** The section of `fetch_file_batch` under the jobs lock; draining the file queue follows. */
    method FetchFileBatch(w: WorkerId, j: JobId, now: Now) returns (gate: BatchGate)
      requires Valid()
      modifies this, jobs.Values
      ensures Valid() && jobs == old(jobs)
      ensures (Value(), gate) == S.FetchFileBatch(old(Value()), w, j, now)
    {
      hide OwnRecords, AllValid, Job.Touch;
      if j !in jobs { return GateUnknown; }
      var record := jobs[j];
      if w !in record.run { return GateUnknown; }
      match record.status {
        case Cancelled =>
          TouchRecord(j, w, now);
          return GateCancelled;
        case Running =>
          if !record.manifestStarted { return GateUnknown; }
          TouchRecord(j, w, now);
          return GateOpen;
        case _ => return GateUnknown;
      }
    }

    // Adds a first result to a record of which `w` is a run worker.
    method AddResultTo(j: JobId, w: WorkerId, result: WorkerResult, now: Now)
      requires Valid() && j in jobs && ValidResult(result) && w !in jobs[j].results
      modifies jobs[j]
      ensures Valid()
      ensures Value() == SetJob(old(Value()), j, old(Value()).jobs[j].AddResult(w, result, now))
    {
      ghost var results := jobs[j].results;
      jobs[j].AddResult(w, result, now);
      OneRecord(j);
      OneMoreValid(results, w, result);
      hide AllValid, Values;
      assert jobs[j].results == results || jobs[j].results == results[w := result];
    }

    /** The section of `report_result` under the jobs lock. */
    method ReportResult(w: WorkerId, j: JobId, result: WorkerResult, now: Now) returns (reply: ResultReply, rest: Closing)
      requires Valid() && ValidResult(result)
      modifies this, jobs.Values, subscribers
      ensures Valid() && jobs == old(jobs)
      ensures (Value(), reply, rest) == S.ReportResult(old(Value()), w, j, result, now)
    {
      hide OwnRecords, Emit, AllValid, Job.Close, Job.Touch, Job.AddResult, ValidResult;
      if j !in jobs { return ResultReply(true), Stays; }
      var record := jobs[j];
      if w !in record.run { return ResultReply(true), Stays; }
      if record.status != Running && record.status != Cancelled { return ResultReply(true), Stays; }
      if w in record.results {
        TouchRecord(j, w, now);
        return ResultReply(false), Stays;
      }
      ghost var m := Value();
      ghost var r' := m.jobs[j].AddResult(w, result, now);
      AddResultKeeps(m.jobs[j], w, result, now);
      var cancelled := record.status == Cancelled;
      AddResultTo(j, w, result, now);
      if cancelled { return ResultReply(false), Stays; }
      if !result.success {
        var why := if result.error.Some? then Reported(result.error.value) else WorkerFailure(w);
        CloseRecord(j, Failed, Some(why), now);
        SetTwice(m, j, r', r'.Close(Failed, Some(why), now));
        return ResultReply(false), Closes(j, {w});
      }
      if |record.results| == |record.run| {
        CloseRecord(j, Completed, record.error, now);
        SetTwice(m, j, r', r'.Close(Completed, r'.error, now));
        return ResultReply(false), Closes(j, {w});
      }
      return ResultReply(false), Stays;
    }

    // ------------------------------------------------------------ client requests

    /** The section of `delete_job` under the jobs lock. */
    method DeleteJob(j: JobId, now: Now) returns (found: bool, wasPending: bool, rest: Closing)
      requires Valid()
      modifies this, jobs.Values, subscribers
      ensures Valid() && jobs == old(jobs) && found == (j in jobs)
      ensures (Value(), rest) == S.DeleteJob(old(Value()), j, now)
      ensures wasPending == IsPending(old(Value()).jobs, j)
    {
      hide OwnRecords, Emit, AllValid, Job.Close;
      if j !in jobs { return false, false, Stays; }
      found := true;
      if jobs[j].IsTerminal() { return true, false, Stays; }
      wasPending := jobs[j].status == Pending;
      var crew := jobs[j].slots.Keys;
      CloseRecord(j, Cancelled, jobs[j].error, now);
      rest := Closes(j, crew);
    }

    /** `watch_job`: not found, or the snapshot is on the new channel before any later event can be. */
    method WatchJob(j: JobId, c: ChanId) returns (found: bool)
      requires Valid() && c !in subscribers.chans
      modifies `eventSeq, subscribers
      ensures Valid() && found == (j in jobs)
      ensures Value() == if found then S.WatchJob(old(Value()), j, c) else old(Value())
    {
      hide *;
      if j !in jobs { return false; }
      SnapshotIs(j);
      WatchIs(Value(), j, c);
      var r := jobs[j];
      var terminal := r.IsTerminal();
      var snapshot := Event(j, eventSeq, r.status, StatusChange, r.error, r.summary);
      var since := if j in log then |log[j]| else 0;
      ghost var m := Value();
      TakeSeq();
      SameWatchers(m, Value(), j);
      Register(j, snapshot, c, since, terminal);
      found := true;
    }

    lemma SnapshotIs(j: JobId)
      requires Valid() && j in jobs
      ensures var m, r := Value(), jobs[j];
        && j in m.jobs && r.IsTerminal() == m.jobs[j].status.Terminal()
        && Event(j, eventSeq, r.status, StatusChange, r.error, r.summary) == EventFor(m, j, StatusChange)
        && (if j in log then |log[j]| else 0) == |Log(m, j)|
    {}

    method TakeSeq()
      requires Valid()
      modifies `eventSeq
      ensures Valid() && Value() == old(Value()).(nextSeq := old(Value()).nextSeq + 1)
    {
      eventSeq := eventSeq + 1;
    }

    method Register(j: JobId, snapshot: Event, c: ChanId, since: nat, terminal: bool)
      requires Valid() && c !in subscribers.chans
      modifies subscribers
      ensures Valid()
      ensures var m := old(Value());
        Value() == m.(chans := m.chans[c := Chan(j, since, [snapshot], 0, false, false)],
                      registry := if terminal then m.registry else m.registry[j := Watchers(m, j) + {c}])
    {
      if terminal {
        subscribers.OpenClosed(j, snapshot, c, since);
      } else {
        subscribers.SubscribeWithSnapshot(j, snapshot, c, since);
      }
    }

    // ------------------------------------------------------------ background tasks

    /** The section of `fail_job_due_to_manifest` under the jobs lock. */
    method FailManifest(j: JobId, reason: string, now: Now) returns (rest: Closing)
      requires Valid()
      modifies this, jobs.Values, subscribers
      ensures Valid() && jobs == old(jobs)
      ensures (Value(), rest) == S.FailManifest(old(Value()), j, reason, now)
    {
      hide OwnRecords, Emit, AllValid, Job.Close;
      if j !in jobs || jobs[j].IsTerminal() { return Stays; }
      var crew := jobs[j].slots.Keys;
      CloseRecord(j, Failed, Some(Failure.ManifestFailure(reason)), now);
      rest := Closes(j, crew);
    }

    /** First phase of the collector: which ids are due. */
    method CollectExpired(nowMs: int) returns (ids: set<JobId>)
      requires Valid()
      ensures ids == GcCollect(Value(), nowMs)
    {
      ids := {};
      var todo := jobs.Keys;
      while todo != {}
        invariant todo <= jobs.Keys
        invariant forall j :: j in ids <==> j in jobs && j !in todo && Expired(jobs[j].Value(), nowMs - cfg.retention)
        decreases |todo|
      {
        var j := Pick(todo);
        var r := jobs[j];
        if r.IsTerminal() {
          var baseline := if r.terminalAt.Some? then r.terminalAt.value else r.created;
          if baseline <= nowMs - cfg.retention { ids := ids + {j}; }
        }
        todo := todo - {j};
      }
      Fields();
      CollectIs(Value(), ids, nowMs);
    }

    /** Second phase, under a new lock. */
    method RemoveExpired(ids: set<JobId>)
      requires Valid()
      modifies `jobs
      ensures Valid() && Value() == GcRemove(old(Value()), ids)
    {
      ghost var table := jobs;
      var todo := ids;
      while todo != {}
        invariant todo <= ids
        invariant jobs == table - (ids - todo)
        decreases |todo|
      {
        var j := Pick(todo);
        jobs := jobs - {j};
        todo := todo - {j};
      }
      assert ids - todo == ids;
      hide OwnRecords, Records, AllValid;
      Removed(ids);
    }

    twostate lemma Removed(ids: set<JobId>)
      requires old(OwnRecords()) && jobs == old(jobs) - ids
      requires forall i | i in jobs :: unchanged(jobs[i])
      ensures OwnRecords() && Records() == old(Records()) - ids
    {
      hide AllValid;
      var kept, table := old(Records()) - ids, Records();
      assert table.Keys == kept.Keys;
      forall i | i in table ensures table[i] == kept[i] {
        assert jobs[i] == old(jobs)[i] && old(Records())[i] == old(jobs[i].Value());
      }
    }

    // --------------------------------------------------------- the staleness tick

    method StaleReason(j: JobId, now: Now) returns (why: Option<Failure>)
      requires Valid() && j in jobs
      ensures why.Some? ==> TickFails(cfg, jobs[j].Value(), why.value, now)
      ensures why.None? ==> Calm(cfg, jobs[j].Value(), now)
    {
      var record := jobs[j];
      if record.status != Preparing && record.status != Running { return None; }
      var stale := record.FindStaleWorker(now, cfg.staleness);
      var overdue := record.status == Preparing && record.preparingSince.Some?
                     && now.instant - record.preparingSince.value > cfg.prepareTimeout;
      why := if stale.Some? then Some(StaleWorker(stale.value)) else if overdue then Some(PrepareTimeout) else None;
    }

    /**
     The section of `tick_once` under the jobs lock: it is a sequence of the state
     machine's failing steps, in some order of the table, and leaves nothing to fail.
     */
    method FailStaleJobs(now: Now) returns (toClean: seq<(JobId, set<WorkerId>)>, ghost failed: seq<(JobId, Failure)>)
      requires Valid()
      modifies this, jobs.Values, subscribers
      ensures Valid() && jobs == old(jobs)
      ensures Value() == FailAll(old(Value()), failed, now) && EachFails(old(Value()), failed, now)
      ensures toClean == Crews(old(Value()), failed)
      ensures forall j | j in jobs :: Attended(cfg, jobs[j].Value(), now)
    {
      hide *;
      ghost var m := Value();
      toClean, failed := [], [];
      StartsCalm(m, now);
      var todo := jobs.Keys;
      BeginsSwept(now);
      while todo != {}
        invariant Valid() && jobs == old(jobs) && todo <= jobs.Keys
        invariant Value() == FailAll(m, failed, now) && EachFails(m, failed, now)
        invariant toClean == Crews(m, failed)
        invariant Swept(m, Value(), todo, now)
        decreases |todo|
      {
        var j := Pick(todo);
        ghost var before := Value();
        var why := LookAt(j, now);
        SweptOne(m, before, todo, j, why, now);
        SlotsOf(j);
        todo := todo - {j};
        if why.Some? {
          FailOneMore(m, failed, j, why.value, now);
          OneMoreCrew(m, failed, j, why.value);
          toClean := toClean + [(j, jobs[j].slots.Keys)];
          failed := failed + [(j, why.value)];
        }
      }
      SweptIsCalm(m, now);
    }

    // The job as the tick leaves it, with nothing left to fail it for.
    method LookAt(j: JobId, now: Now) returns (why: Option<Failure>)
      requires Valid() && j in jobs
      modifies `eventSeq, `log, subscribers, jobs[j]
      ensures Valid() && Value() == Ticked(old(Value()), j, why, now)
      ensures why.Some? ==> FailsAt(old(Value()), j, why.value, now)
      ensures j in old(Value()).jobs && j in Value().jobs && Calm(Value().cfg, Value().jobs[j], now)
    {
      hide Valid, Emit, FailsAt, Calm;
      why := FailIfStale(j, now);
      Fields();
    }

    lemma SlotsOf(j: JobId)
      requires j in jobs
      ensures j in Value().jobs && jobs[j].slots == Value().jobs[j].slots
    {}

    lemma BeginsSwept(now: Now)
      ensures Swept(Value(), Value(), jobs.Keys, now)
    {}

    lemma SweptIsCalm(m: Master, now: Now)
      requires Swept(m, Value(), {}, now)
      ensures forall j | j in jobs :: Attended(cfg, jobs[j].Value(), now)
    {
      hide Calm, Attended;
      Fields();
      forall j | j in jobs ensures Attended(cfg, jobs[j].Value(), now) {
        assert j in Value().jobs;
        CalmIsAttended(cfg, jobs[j].Value(), now);
      }
    }

    method FailIfStale(j: JobId, now: Now) returns (why: Option<Failure>)
      requires Valid() && j in jobs
      modifies `eventSeq, `log, subscribers, jobs[j]
      ensures Valid()
      ensures why.None? ==> Value() == old(Value())
      ensures why.Some? ==> FailsAt(old(Value()), j, why.value, now) && Value() == FailStale(old(Value()), j, why.value, now).0
      ensures Calm(cfg, jobs[j].Value(), now) && jobs[j].slots == old(jobs[j].slots)
      ensures forall i | i in jobs && i != j :: unchanged(jobs[i])
    {
      why := StaleReason(j, now);
      if why.Some? { FailOneRecord(j, why.value, now); }
    }

    method FailOneRecord(j: JobId, why: Failure, now: Now)
      requires Valid() && j in jobs
      modifies `eventSeq, `log, subscribers, jobs[j]
      ensures Valid()
      ensures Value() == FailStale(old(Value()), j, why, now).0
      ensures jobs[j].status == Failed && jobs[j].slots == old(jobs[j].slots)
      ensures forall i | i in jobs && i != j :: unchanged(jobs[i])
    {
      assert forall i | i in jobs && i != j :: jobs[i] != jobs[j];
      hide OwnRecords, AllValid, Emit;
      CloseRecord(j, Failed, Some(why), now);
      CloseKeeps(old(Value()), j, old(Value()).jobs[j].Close(Failed, Some(why), now));
      assert Value().jobs[j] == jobs[j].Value();
    }

    /** All of `tick_once`: the bindings of each failed job's crew go first, then the streams. */
    method TickOnce(now: Now) returns (ghost failed: seq<(JobId, Failure)>)
      requires Valid()
      modifies this, jobs.Values, subscribers
      ensures Valid() && jobs == old(jobs)
      ensures var m := old(Value());
        Value() == FinalizeAll(ClearAll(FailAll(m, failed, now), Crews(m, failed)), Crews(m, failed))
      ensures EachFails(old(Value()), failed, now)
    {
      hide OwnRecords, AllValid, EachFails, FailAll, Records, JobRecord.Value, ClearActive, FinalizeStream, Valid, Value, Crews;
      var toClean;
      toClean, failed := FailStaleJobs(now);
      ghost var m := Value();
      for k := 0 to |toClean|
        invariant Valid() && jobs == old(jobs) && Value() == ClearAll(m, toClean[..k])
      {
        assert toClean[..k + 1][..k] == toClean[..k];
        ClearBindingsOf(toClean[k].0, toClean[k].1);
      }
      assert toClean[..|toClean|] == toClean;
      m := Value();
      for k := 0 to |toClean|
        invariant Valid() && jobs == old(jobs) && Value() == FinalizeAll(m, toClean[..k])
      {
        assert toClean[..k + 1][..k] == toClean[..k];
        Finalize(toClean[k].0);
      }
    }

    // ------------------------------------------------- whole requests, undisturbed

    method RunSectionOf(j: JobId, section: Section)
      requires Valid()
      modifies `workerActiveJobs, `pendingQueue, subscribers
      ensures Valid() && Value() == RunSection(old(Value()), j, section)
    {
      hide OwnRecords, AllValid, ClearActive, Unqueue;
      match section {
        case Finalize => this.Finalize(j);
        case RemovePending => RemovePendingJob(j);
        case ClearBindings(crew) => ClearBindingsOf(j, crew);
      }
    }

    method RunRest(j: JobId, rest: seq<Section>)
      requires Valid()
      modifies `workerActiveJobs, `pendingQueue, subscribers
      ensures Valid() && Value() == RunSections(old(Value()), j, rest)
    {
      hide OwnRecords, AllValid, RunSection;
      ghost var m := Value();
      for k := 0 to |rest|
        invariant Valid() && RunSections(Value(), j, rest[k..]) == RunSections(m, j, rest)
      {
        assert rest[k..][0] == rest[k] && rest[k..][1..] == rest[k + 1..];
        RunSectionOf(j, rest[k]);
      }
    }

    /** All of `delete_job`, as the steps `Delete` and `Proceed` of the state machine would leave it. */
    method DeleteJobAlone(j: JobId, now: Now) returns (found: bool)
      requires Valid()
      modifies this, jobs.Values, subscribers
      ensures Valid() && jobs == old(jobs) && found == (j in jobs)
      ensures var (m, c) := S.DeleteJob(old(Value()), j, now);
        Value() == if c.Closes? then RunSections(m, j, AfterDelete(c.crew, IsPending(old(Value()).jobs, j))) else m
    {
      hide OwnRecords, AllValid, S.DeleteJob, RunSections;
      var wasPending, closing;
      found, wasPending, closing := DeleteJob(j, now);
      match closing {
        case Stays =>
        case Closes(_, crew) => RunRest(j, AfterDelete(crew, wasPending));
      }
    }

    /** All of `report_ready`. */
    method ReportReadyAlone(w: WorkerId, j: JobId, failure: Option<string>, now: Now) returns (reply: ReadyReply)
      requires Valid()
      modifies this, jobs.Values, subscribers
      ensures Valid() && jobs == old(jobs)
      ensures var (m, wanted, c) := S.ReportReady(old(Value()), w, j, failure, now);
        reply == wanted && Value() == if c.Closes? then RunSections(m, j, [ClearBindings(c.crew), Section.Finalize]) else m
    {
      hide OwnRecords, AllValid, S.ReportReady, RunSections;
      var closing;
      reply, closing := ReportReady(w, j, failure, now);
      match closing {
        case Stays =>
        case Closes(_, crew) => RunRest(j, [ClearBindings(crew), Section.Finalize]);
      }
    }

    /** All of `report_result`: on every path the worker's binding to this job goes last. */
    method ReportResultAlone(w: WorkerId, j: JobId, result: WorkerResult, now: Now) returns (reply: ResultReply)
      requires Valid() && ValidResult(result)
      modifies this, jobs.Values, subscribers
      ensures Valid() && jobs == old(jobs)
      ensures var (m, wanted, c) := S.ReportResult(old(Value()), w, j, result, now);
        && reply == wanted
        && Value() == RunSections(m, j, (if c.Closes? then [Section.Finalize] else []) + [ClearBindings({w})])
    {
      hide OwnRecords, AllValid, S.ReportResult, RunSections, ValidResult;
      var closing;
      reply, closing := ReportResult(w, j, result, now);
      RunRest(j, (if closing.Closes? then [Section.Finalize] else []) + [ClearBindings({w})]);
    }
  }

  // The jobs a tick fails, one after the other.
  ghost function FailAll(m: Master, failed: seq<(JobId, Failure)>, now: Now): Master {
    if failed == [] then m
    else
      var (j, why) := failed[|failed| - 1];
      var before := FailAll(m, failed[..|failed| - 1], now);
      if j in before.jobs then FailStale(before, j, why, now).0 else before
  }

  // Each of them had a reason when its turn came.
  ghost predicate EachFails(m: Master, failed: seq<(JobId, Failure)>, now: Now) {
    forall k | 0 <= k < |failed| :: FailsAt(FailAll(m, failed[..k], now), failed[k].0, failed[k].1, now)
  }

  ghost predicate FailsAt(m: Master, j: JobId, why: Failure, now: Now) {
    j in m.jobs && TickFails(m.cfg, m.jobs[j], why, now)
  }

  // The tick finds nothing to fail in the record.
  ghost predicate Calm(cfg: Config, r: Job, now: Now) { forall why :: !TickFails(cfg, r, why, now) }

  // The tick has looked at every job but those in `todo`; the crews are as they were.
  ghost predicate Swept(m: Master, s: Master, todo: set<JobId>, now: Now) {
    && (forall j | j in s.jobs :: j in m.jobs && s.jobs[j].slots == m.jobs[j].slots)
    && (forall j | j in s.jobs && j !in todo :: Calm(s.cfg, s.jobs[j], now))
  }

  ghost function Ticked(m: Master, j: JobId, why: Option<Failure>, now: Now): Master {
    if why.Some? && j in m.jobs then FailStale(m, j, why.value, now).0 else m
  }

  lemma SweptOne(m: Master, s: Master, todo: set<JobId>, j: JobId, why: Option<Failure>, now: Now)
    requires Swept(m, s, todo, now) && j in s.jobs
    requires var s' := Ticked(s, j, why, now); j in s'.jobs && Calm(s'.cfg, s'.jobs[j], now)
    ensures var s' := Ticked(s, j, why, now);
      Swept(m, s', todo - {j}, now) && j in s'.jobs && j in m.jobs && s'.jobs[j].slots == m.jobs[j].slots
    ensures why.None? ==> Ticked(s, j, why, now) == s
    ensures why.Some? ==> Ticked(s, j, why, now) == FailStale(s, j, why.value, now).0
  {
    hide Calm, Emit;
    if why.Some? { StreamProofs.EmitFacts(s, j, s.jobs[j].Close(Failed, why, now), StatusChange); }
  }

  /** Nobody on the job has been silent for too long, and its crew has not been waiting for too long. */
  ghost predicate Attended(cfg: Config, r: Job, now: Now) {
    && (r.status == Preparing || r.status == Running ==>
          forall w | w in r.run && w in r.lastSeen :: now.instant - r.lastSeen[w] <= cfg.staleness)
    && (r.status == Preparing && r.preparingSince.Some? ==> now.instant - r.preparingSince.value <= cfg.prepareTimeout)
  }

  lemma CalmIsAttended(cfg: Config, r: Job, now: Now)
    requires Calm(cfg, r, now)
    ensures Attended(cfg, r, now)
  {
    forall w | w in r.run && w in r.lastSeen && (r.status == Preparing || r.status == Running)
      ensures now.instant - r.lastSeen[w] <= cfg.staleness
    {
      assert !TickFails(cfg, r, StaleWorker(w), now);
    }
    assert !TickFails(cfg, r, PrepareTimeout, now);
    if r.status == Preparing && exists w :: w in r.run && r.StaleIn(w, cfg.staleness, now) {
      var w :| w in r.run && r.StaleIn(w, cfg.staleness, now);
      assert TickFails(cfg, r, StaleWorker(w), now);
    }
  }

  lemma StartsCalm(m: Master, now: Now)
    ensures FailAll(m, [], now) == m && EachFails(m, [], now) && Crews(m, []) == []
  {}

  lemma FailOneMore(m: Master, failed: seq<(JobId, Failure)>, j: JobId, why: Failure, now: Now)
    requires EachFails(m, failed, now) && FailsAt(FailAll(m, failed, now), j, why, now)
    ensures var more := failed + [(j, why)];
      EachFails(m, more, now) && FailAll(m, more, now) == FailStale(FailAll(m, failed, now), j, why, now).0
  {
    hide FailsAt;
    var more := failed + [(j, why)];
    assert more[..|failed|] == failed;
    forall k | 0 <= k < |more| ensures FailsAt(FailAll(m, more[..k], now), more[k].0, more[k].1, now) {
      assert more[..k] == failed[..k];
    }
    FailsAtKnows(FailAll(m, failed, now), j, why, now);
  }

  lemma FailsAtKnows(m: Master, j: JobId, why: Failure, now: Now)
    ensures FailsAt(m, j, why, now) ==> j in m.jobs
  {}

  // The failed jobs with the workers that held their slots.
  ghost function Crews(m: Master, failed: seq<(JobId, Failure)>): seq<(JobId, set<WorkerId>)> {
    if failed == [] then []
    else
      var j := failed[|failed| - 1].0;
      Crews(m, failed[..|failed| - 1]) + [(j, if j in m.jobs then m.jobs[j].slots.Keys else {})]
  }

  lemma OneMoreCrew(m: Master, failed: seq<(JobId, Failure)>, j: JobId, why: Failure)
    requires j in m.jobs
    ensures Crews(m, failed + [(j, why)]) == Crews(m, failed) + [(j, m.jobs[j].slots.Keys)]
  {
    assert (failed + [(j, why)])[..|failed|] == failed;
  }

  ghost function ClearAll(m: Master, cleaned: seq<(JobId, set<WorkerId>)>): Master {
    if cleaned == [] then m
    else ClearActive(ClearAll(m, cleaned[..|cleaned| - 1]), cleaned[|cleaned| - 1].0, cleaned[|cleaned| - 1].1)
  }

  ghost function FinalizeAll(m: Master, cleaned: seq<(JobId, set<WorkerId>)>): Master {
    if cleaned == [] then m
    else FinalizeStream(FinalizeAll(m, cleaned[..|cleaned| - 1]), cleaned[|cleaned| - 1].0)
  }

  ghost function RunSections(m: Master, j: JobId, rest: seq<Section>): Master
    decreases |rest|
  {
    if rest == [] then m else RunSections(RunSection(m, j, rest[0]), j, rest[1..])
  }

  lemma CloseKeeps(m: Master, j: JobId, r: Job)
    ensures CloseJob(m, j, r).jobs == m.jobs[j := r] && CloseJob(m, j, r).cfg == m.cfg
  {}

  predicate Expired(r: Job, cutoff: int) { r.status.Terminal() && r.GcBaseline() <= cutoff }

  lemma CollectIs(m: Master, ids: set<JobId>, nowMs: int)
    requires forall j :: j in ids <==> j in m.jobs && Expired(m.jobs[j], nowMs - m.cfg.retention)
    ensures ids == GcCollect(m, nowMs)
  {
    forall j ensures j in ids <==> j in GcCollect(m, nowMs) {}
  }

  lemma SameWatchers(m: Master, n: Master, j: JobId)
    requires m.registry == n.registry
    ensures Watchers(m, j) == Watchers(n, j)
  {}

  lemma WatchIs(m: Master, j: JobId, c: ChanId)
    requires j in m.jobs
    ensures var chan := Chan(j, |Log(m, j)|, [EventFor(m, j, StatusChange)], 0, false, false);
      S.WatchJob(m, j, c) == m.(nextSeq := m.nextSeq + 1, chans := m.chans[c := chan],
        registry := if m.jobs[j].status.Terminal() then m.registry else m.registry[j := Watchers(m, j) + {c}])
  {}

  lemma AddResultKeeps(r: Job, w: WorkerId, result: WorkerResult, now: Now)
    ensures var r' := r.AddResult(w, result, now);
      r'.status == r.status && r'.error == r.error && r'.run == r.run
  {}

  lemma OneMoreValid(results: map<WorkerId, WorkerResult>, w: WorkerId, result: WorkerResult)
    requires AllValid(Values(results)) && ValidResult(result) && w !in results
    ensures AllValid(Values(results[w := result]))
  {
    hide Values, ValidResult;
    ValuesRemove(results[w := result], w);
    assert results[w := result] - {w} == results;
  }

  lemma SetTwice(m: Master, j: JobId, a: Job, b: Job)
    ensures SetJob(SetJob(m, j, a), j, b) == SetJob(m, j, b)
    ensures CloseJob(SetJob(m, j, a), j, b) == CloseJob(m, j, b)
  {
    assert m.jobs[j := a][j := b] == m.jobs[j := b];
  }

  lemma RemoveFirstStep(q: seq<JobId>, j: JobId)
    requires q != []
    ensures RemoveFirst(q, j) == if q[0] == j then q[1..] else [q[0]] + RemoveFirst(q[1..], j)
  {}

  lemma {:induction false} RemoveFirstAt(a: seq<JobId>, j: JobId, b: seq<JobId>)
    requires j !in a
    ensures RemoveFirst(a + [j] + b, j) == a + b
  {
    hide RemoveFirst;
    var q := a + [j] + b;
    RemoveFirstStep(q, j);
    if a == [] {
      assert q[1..] == b == a + b;
    } else {
      assert q[0] == a[0] != j;
      RemoveFirstAt(a[1..], j, b);
      assert q[1..] == a[1..] + [j] + b;
      assert [a[0]] + (a[1..] + b) == a + b;
    }
  }

  lemma {:induction false} RemoveFirstNone(q: seq<JobId>, j: JobId)
    requires j !in q
    ensures RemoveFirst(q, j) == q
  {
    if q != [] { RemoveFirstNone(q[1..], j); }
  }
}
