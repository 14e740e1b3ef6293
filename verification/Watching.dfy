/**
 What watchers are told (crates/cvd-master/src/events.rs, events/subscriber.rs): who may be
 evicted and who may not, how much can wait for a client, and what an event says of its job.
 */
module Watching {
  import opened Types
  import opened Aggregation
  import opened Jobs
  import opened MasterState
  import opened Interleaving
  import opened Effects
  import opened Runs
  import Safety
  import StreamProofs
  import QueueProofs

  // What one step does to the events and the channels.
  datatype Change =
    | Silent
    | Says(job: JobId, record: Job, kind: EventKind)   // rewrites the record and announces it
    | Subscribes(job: JobId, chan: ChanId)
    | Reads(chan: ChanId)
    | Leaves(chan: ChanId)

  ghost predicate SameStreams(m: Master, m': Master) {
    m'.log == m.log && m'.chans == m.chans && m'.nextSeq == m.nextSeq
  }

  ghost predicate Makes(m: Master, m': Master, c: Change) {
    match c
    case Silent => SameStreams(m, m')
    case Says(j, r, kind) => SameStreams(Emit(SetJob(m, j, r), j, kind), m') && m'.jobs == m.jobs[j := r]
    case Subscribes(j, c) => j in m.jobs && c !in m.chans && SameStreams(WatchJob(m, j, c), m') && m'.jobs == m.jobs
    case Reads(c) => c in m.chans && m.chans[c].taken < |m.chans[c].stream| && SameStreams(TakeEvent(m, c), m') && m'.jobs == m.jobs
    case Leaves(c) => c in m.chans && SameStreams(DropClient(m, c), m') && m'.jobs == m.jobs
  }

  lemma SaysIs(m: Master, j: JobId, r: Job, kind: EventKind)
    ensures Makes(m, Emit(SetJob(m, j, r), j, kind), Says(j, r, kind))
    ensures Makes(m, SetJob(m, j, r), Silent) && Makes(m, m, Silent)
  {
    EmitJobs(m, j, r, kind);
    hide Emit;
  }

  lemma ReadySays(m: Master, w: WorkerId, j: JobId, failure: Option<string>, now: Now) returns (c: Change)
    ensures Makes(m, ReportReady(m, w, j, failure, now).0, c) && (c == Silent || (c.Says? && c.kind == StatusChange && c.job in m.jobs))
  {
    hide Emit, Makes;
    c := Silent;
    NothingSaid(m);
    if j in m.jobs && !m.jobs[j].status.Terminal() && w in m.jobs[j].slots {
      var r := m.jobs[j];
      var t := r.Touch(w, now);
      var r' := match failure
        case Some(reason) => if r.status.Preparing? then t.Close(Failed, Some(ReadyFailure(w, reason)), now) else t
        case None => t.MarkReady(w, m.cfg.startDelay, now);
      SaysIs(m, j, r', StatusChange);
      if r'.status != r.status { c := Says(j, r', StatusChange); }
    }
  }

  lemma NothingSaid(m: Master)
    ensures Makes(m, m, Silent)
  {}

  lemma ProgressSays(m: Master, w: WorkerId, j: JobId, p: Progress, now: Now) returns (c: Change)
    ensures Makes(m, ReportProgress(m, w, j, p, now).0, c) && (c == Silent || (c.Says? && c.kind == ProgressEvent && c.job in m.jobs))
  {
    hide Emit, Makes;
    c := Silent;
    NothingSaid(m);
    if j in m.jobs {
      var t := m.jobs[j].Touch(w, now);
      var r := t.(progress := m.jobs[j].progress[w := SanitizeProgress(p)]);
      SaysIs(m, j, t, ProgressEvent);
      SaysIs(m, j, r, ProgressEvent);
      if !m.jobs[j].status.Terminal() && w in m.jobs[j].slots { c := Says(j, r, ProgressEvent); }
    }
  }

  lemma BatchSays(m: Master, w: WorkerId, j: JobId, now: Now)
    ensures Makes(m, FetchFileBatch(m, w, j, now).0, Silent)
  {}

  lemma ResultSays(m: Master, w: WorkerId, j: JobId, result: WorkerResult, now: Now) returns (c: Change)
    ensures Makes(m, ReportResult(m, w, j, result, now).0, c) && (c == Silent || (c.Says? && c.kind == StatusChange && c.job in m.jobs))
  {
    hide Emit, Makes, Job.Close;
    c := Silent;
    NothingSaid(m);
    if j in m.jobs && w in m.jobs[j].run && (m.jobs[j].status.Running? || m.jobs[j].status.Cancelled?) {
      var r := m.jobs[j];
      var a := r.AddResult(w, result, now);
      SaysIs(m, j, r.Touch(w, now), StatusChange);
      SaysIs(m, j, a, StatusChange);
      if w !in r.results && r.status.Running? {
        var failed, completed := a.Close(Failed, Some(r.FailureOf(w, result)), now), a.Close(Completed, a.error, now);
        SaysIs(m, j, failed, StatusChange);
        SaysIs(m, j, completed, StatusChange);
        if !result.success { c := Says(j, failed, StatusChange); }
        else if |a.results| == |a.run| { c := Says(j, completed, StatusChange); }
      }
    }
  }

  lemma AbortSays(s: World, step: Step) returns (c: Change)
    requires Enabled(s, step) && (step.Delete? || step.ManifestFails? || step.TickFail?)
    ensures Makes(s.m, Apply(s, step).m, c) && (c == Silent || (c.Says? && c.kind == StatusChange && c.job in s.m.jobs))
  {
    hide Emit, Makes, Job.Close, TickFails;
    c := Silent;
    NothingSaid(s.m);
    ClosedIsOver(s, step);
    if IsOpen(s.m.jobs, step.job) {
      var r' := Aborted(s.m.jobs[step.job], step);
      SaysIs(s.m, step.job, r', StatusChange);
      c := Says(step.job, r', StatusChange);
    }
  }

  lemma FetchSays(s: World, w: WorkerId, now: Now) returns (c: Change)
    requires Inv(s)
    ensures Makes(s.m, FetchJob(s.m, w, now).0, c) && (c == Silent || (c.Says? && c.kind == StatusChange && c.job in s.m.jobs))
  {
    hide Inv, JobInv, Emit, Makes, Job.TakeSlot, FetchLoop;
    c := Silent;
    NothingSaid(s.m);
    var m1 := s.m.(active := s.m.active - {w});
    forall j | j in s.m.jobs ensures JobInv(s.m.jobs[j]) { KnownJob(s, j); }
    if Replays(s.m, w) {
      SaysIs(s.m, s.m.active[w], s.m.jobs[s.m.active[w]].Touch(w, now), StatusChange);
    } else {
      QueueProofs.FetchLoopIs(m1, w, now);
      var i := QueueProofs.FirstPending(s.m.jobs, s.m.queue);
      if i < |s.m.queue| {
        c := HeadSays(s.m, m1.(queue := s.m.queue[i..]), w, now);
      } else {
        QueueIsNoStream(s.m, m1.(queue := []));
      }
    }
  }

  lemma QueueIsNoStream(m: Master, m': Master)
    requires m' == m.(queue := m'.queue, active := m'.active)
    ensures Makes(m, m', Silent)
  {}

  lemma HeadSays(m: Master, m1: Master, w: WorkerId, now: Now) returns (c: Change)
    requires m1 == m.(queue := m1.queue, active := m1.active) && m1.queue != [] && m1.queue[0] in m1.jobs
    ensures Makes(m, AssignHead(m1, w, now).0, c) && (c == Silent || (c.Says? && c.kind == StatusChange && c.job in m.jobs))
  {
    hide Job.TakeSlot, Job.SlotsRemaining;
    var j := m1.queue[0];
    var r := m1.jobs[j].TakeSlot(w, now);
    var m2 := m1.(active := m1.active[w := j]);
    assert SetJob(m1, j, r).(active := m1.active[w := j]) == SetJob(m2, j, r);
    EmitElsewhere(m, m2, j, r);
    EmitJobs(m2, j, r, StatusChange);
    c := if r.SlotsRemaining() == 0 then Says(j, r, StatusChange) else Silent;
    hide Emit;
  }

  // Announcing does not look at the queue or the bindings.
  lemma EmitElsewhere(m: Master, m': Master, j: JobId, r: Job)
    requires m' == m.(queue := m'.queue, active := m'.active)
    ensures SameStreams(Emit(SetJob(m, j, r), j, StatusChange), Emit(SetJob(m', j, r), j, StatusChange))
  {
    var m0, m1 := SetJob(m, j, r), SetJob(m', j, r);
    var e := EventFor(m0, j, StatusChange);
    assert Watchers(m1, j) == Watchers(m0, j) && Log(m1, j) == Log(m0, j);
    var a := m0.(nextSeq := m0.nextSeq + 1, log := m0.log[j := Log(m0, j) + [e]]);
    var b := m1.(nextSeq := m1.nextSeq + 1, log := m1.log[j := Log(m1, j) + [e]]);
    assert Watchers(a, j) == Watchers(b, j) && Accepting(a, Watchers(a, j)) == Accepting(b, Watchers(b, j));
  }

  lemma PlainMakes(s: World, step: Step) returns (c: Change)
    requires Enabled(s, step)
    requires step.Enqueue? || step.Watch? || step.Collect? || step.Remove? || step.Unbind? || step.Take? || step.HangUp? || step.Shutdown?
    ensures Makes(s.m, Apply(s, step).m, c) && !c.Says? && (c.Subscribes? ==> step == Watch(c.job, c.chan))
  {
    hide FetchJob, ReportReady, ReportProgress, FetchFileBatch, ReportResult, DeleteJob, FailManifest, FailStale,
      RunSection, CreateRecord, TickFails, GcCollect, WatchJob;
    c := match step
      case Watch(j, c) => Subscribes(j, c)
      case Take(c) => Reads(c)
      case HangUp(c) => Leaves(c)
      case _ => Silent;
    if step.Watch? { StreamProofs.WatchFacts(s.m, step.job, step.chan); }
  }

  lemma SectionMakes(s: World, j: JobId)
    requires Enabled(s, Proceed(j))
    ensures Makes(s.m, Apply(s, Proceed(j)).m, Silent)
  {}

  /** Every step says at most one thing. */
  lemma StepMakes(s: World, step: Step) returns (c: Change)
    requires Inv(s) && Enabled(s, step)
    ensures Makes(s.m, Apply(s, step).m, c)
    ensures c.Says? ==> (c.kind == ProgressEvent <==> step.Report?)
    ensures c.Says? ==> c.job in s.m.jobs || c.job !in s.issued
    ensures c.Subscribes? ==> step == Watch(c.job, c.chan)
  {
    hide Inv, Emit, FetchJob, ReportReady, ReportProgress, FetchFileBatch, ReportResult, DeleteJob, FailManifest, FailStale,
      RunSection, TickFails, Makes;
    match step {
      case Create(j, raw, manifest, now) =>
        SaysIs(s.m, j, NewJob(raw, manifest, now), StatusChange);
        c := Says(j, NewJob(raw, manifest, now), StatusChange);
      case Fetch(w, now) => c := FetchSays(s, w, now);
      case Ready(w, j, failure, now) => c := ReadySays(s.m, w, j, failure, now);
      case Report(w, j, p, now) => c := ProgressSays(s.m, w, j, p, now);
      case Batch(w, j, now) => BatchSays(s.m, w, j, now); c := Silent;
      case Result(w, j, result, now) => c := ResultSays(s.m, w, j, result, now);
      case Delete(_, _) => c := AbortSays(s, step);
      case ManifestFails(_, _, _) => c := AbortSays(s, step);
      case TickFail(_, _, _) => c := AbortSays(s, step);
      case Proceed(j) => SectionMakes(s, j); c := Silent;
      case _ => c := PlainMakes(s, step);
    }
  }

  // ----------------------------------------------------------------- one channel

  /**
   An event reaches a channel: it is queued if the client is there and fewer than 64 events
   wait for it; otherwise the watcher is evicted.
   */
  ghost predicate Reached(ch: Chan, ch': Chan, e: Event) {
    if ch.hungUp || |ch.stream| - ch.taken >= 64 then ch' == ch.(evicted := true)
    else ch' == ch.(stream := ch.stream + [e])
  }

  ghost predicate Used(ch: Chan, ch': Chan) {
    || ch' == ch
    || (ch.taken < |ch.stream| && ch' == ch.(taken := ch.taken + 1))
    || ch' == ch.(hungUp := true)
  }

  // What a step does to a channel: the client's own doing, or the one event its job emits.
  lemma ChanStep(s: World, step: Step, c: ChanId)
    requires Inv(s) && Enabled(s, step) && c in s.m.chans
    ensures var m, m' := s.m, Apply(s, step).m;
      && c in m'.chans && m'.chans[c].job == m.chans[c].job
      && (|| (Log(m', m.chans[c].job) == Log(m, m.chans[c].job) && Used(m.chans[c], m'.chans[c]))
          || (&& Log(m', m.chans[c].job) != [] && |Log(m', m.chans[c].job)| == |Log(m, m.chans[c].job)| + 1
              && if m.chans[c].evicted then m'.chans[c] == m.chans[c]
                 else Reached(m.chans[c], m'.chans[c], Log(m', m.chans[c].job)[|Log(m, m.chans[c].job)|])))
  {
    hide Inv, Enabled, Apply, Emit, Reached;
    var m, m' := s.m, Apply(s, step).m;
    var change := StepMakes(s, step);
    if change.Says? {
      StepAppends(s, step, change);
      Heard(s, step, change, c);
    } else {
      NothingHeard(m, m', change, c);
    }
  }

  lemma NothingHeard(m: Master, m': Master, change: Change, c: ChanId)
    requires Makes(m, m', change) && !change.Says? && c in m.chans
    ensures c in m'.chans && m'.chans[c].job == m.chans[c].job && Used(m.chans[c], m'.chans[c])
    ensures forall k :: Log(m', k) == Log(m, k)
  {}

  // An announcement appends its event to its job's log and to no other.
  lemma StepAppends(s: World, step: Step, change: Change)
    requires Enabled(s, step) && Makes(s.m, Apply(s, step).m, change) && change.Says?
    ensures var m' := Apply(s, step).m; var e := StreamProofs.NewEvent(s.m, change.job, change.record, change.kind);
      && m'.jobs == s.m.jobs[change.job := change.record]
      && forall k :: Log(m', k) == if k == change.job then Log(s.m, k) + [e] else Log(s.m, k)
  {
    hide Apply, Enabled, Emit;
    StreamProofs.EmitFacts(s.m, change.job, change.record, change.kind);
  }

  lemma Heard(s: World, step: Step, change: Change, c: ChanId)
    requires Inv(s) && Enabled(s, step) && Makes(s.m, Apply(s, step).m, change) && change.Says? && c in s.m.chans
    requires change.job in s.m.jobs || change.job !in s.issued
    ensures var m, m' := s.m, Apply(s, step).m; var e := StreamProofs.NewEvent(m, change.job, change.record, change.kind);
      && c in m'.chans && m'.chans[c].job == m.chans[c].job
      && (m.chans[c].job != change.job || m.chans[c].evicted ==> m'.chans[c] == m.chans[c])
      && (m.chans[c].job == change.job && !m.chans[c].evicted ==> Reached(m.chans[c], m'.chans[c], e))
  {
    hide Apply, Enabled, Emit, Inv, Deliver, Reached, IsOpen, Watchers, Log;
    StreamProofs.EmitFacts(s.m, change.job, change.record, change.kind);
    Registered(s, c);
    DeliverReaches(s.m.chans[c], StreamProofs.NewEvent(s.m, change.job, change.record, change.kind));
    if s.m.chans[c].job == change.job && !s.m.chans[c].evicted { OnlyOpenJobsSpeak(s, step, change, c); }
  }

  lemma DeliverReaches(ch: Chan, e: Event)
    ensures Reached(ch, Deliver(ch, e), e)
  {}

  lemma Registered(s: World, c: ChanId)
    requires Inv(s) && c in s.m.chans
    ensures forall k | c in Watchers(s.m, k) :: k == s.m.chans[c].job && !s.m.chans[c].evicted
    ensures !s.m.chans[c].evicted && IsOpen(s.m.jobs, s.m.chans[c].job) ==> c in Watchers(s.m, s.m.chans[c].job)
    ensures s.m.chans[c].job in s.issued
  {
    hide JobsInv, QueueInv, FlightInv, StreamInv;
    StreamProofs.StreamChan(s.m, s.issued, c);
  }

  lemma LogIsOk(s: World, j: JobId)
    requires Inv(s)
    ensures LogOk(s.m, j)
  {
    hide JobsInv, QueueInv, FlightInv, ChanOk;
  }

  // Nothing is said of a job that is over.
  lemma OnlyOpenJobsSpeak(s: World, step: Step, change: Change, c: ChanId)
    requires Inv(s) && Enabled(s, step) && Makes(s.m, Apply(s, step).m, change) && change.Says? && c in s.m.chans
    requires s.m.chans[c].job == change.job && !s.m.chans[c].evicted
    requires change.job in s.m.jobs || change.job !in s.issued
    ensures IsOpen(s.m.jobs, change.job)
  {
    var j := change.job;
    LogIsOk(s, j);
    StepAppends(s, step, change);
    Safety.StepKeepsInv(s, step);
    LogIsOk(Apply(s, step), j);
    Registered(s, c);
    hide Inv, Apply, Enabled, Makes;
    var log, log' := Log(s.m, j), Log(Apply(s, step).m, j);
    assert log'[|log| - 1] == log[|log| - 1];
  }

  // ---------------------------------------------------------------------- runs

  /** An event reaches every watcher of its job that was not evicted before. */
  lemma EventReachesWatchers(cfg: Config, run: Run, i: nat, c: ChanId)
    requires IsRun(cfg, run) && i < |run.steps| && c in run.states[i].m.chans && !run.states[i].m.chans[c].evicted
    requires Log(run.states[i + 1].m, run.states[i].m.chans[c].job) != Log(run.states[i].m, run.states[i].m.chans[c].job)
    ensures c in run.states[i + 1].m.chans
    ensures var ch := run.states[i].m.chans[c]; var log := Log(run.states[i + 1].m, ch.job);
      log != [] && Reached(ch, run.states[i + 1].m.chans[c], log[|log| - 1])
  {
    hide Enabled, Apply, Reached;
    StepAt(cfg, run, i);
    AlwaysInv(cfg, run, i);
    ChanStep(run.states[i], run.steps[i], c);
    hide IsRun;
  }

  /** A watcher is evicted only if its client has hung up or 64 events are waiting for it. */
  lemma EvictedOnlyWhenFullOrGone(cfg: Config, run: Run, i: nat, c: ChanId)
    requires IsRun(cfg, run) && i < |run.steps|
    requires c in run.states[i].m.chans && !run.states[i].m.chans[c].evicted
    requires c in run.states[i + 1].m.chans && run.states[i + 1].m.chans[c].evicted
    ensures var ch := run.states[i].m.chans[c]; ch.hungUp || |ch.stream| - ch.taken >= 64
  {
    hide Enabled, Apply;
    StepAt(cfg, run, i);
    AlwaysInv(cfg, run, i);
    ChanStep(run.states[i], run.steps[i], c);
    hide IsRun;
  }

  // A channel comes into being by its WatchJob, with the snapshot of the record as it is.
  ghost predicate Begins(m: Master, j: JobId, ch: Chan) {
    && j in m.jobs && ch.job == j && ch.since == |Log(m, j)| && ch.taken == 0 && !ch.hungUp && !ch.evicted
    && |ch.stream| == 1 && Tells(m.jobs[j], j, ch.stream[0]) && ch.stream[0].kind == StatusChange
  }

  // The event says what the record says.
  ghost predicate Tells(r: Job, j: JobId, e: Event) {
    e.job == j && e.status == r.status && e.error == r.error && e.summary == r.summary
  }

  lemma NewChan(s: World, step: Step, c: ChanId)
    requires Inv(s) && Enabled(s, step) && c !in s.m.chans && c in Apply(s, step).m.chans
    ensures step.Watch? && step.chan == c && Begins(s.m, step.job, Apply(s, step).m.chans[c])
  {
    hide Inv, Enabled, Apply, Emit;
    var change := StepMakes(s, step);
    if change.Says? { StreamProofs.EmitFacts(s.m, change.job, change.record, change.kind); }
    if change.Subscribes? { StreamProofs.WatchFacts(s.m, change.job, change.chan); }
  }

  /** A new channel holds exactly one snapshot: the job's status, error and summary as they are. */
  lemma WatchBegins(cfg: Config, run: Run, i: nat, c: ChanId)
    requires IsRun(cfg, run) && i < |run.steps| && c !in run.states[i].m.chans && c in run.states[i + 1].m.chans
    ensures run.steps[i].Watch? && run.steps[i].chan == c
    ensures Begins(run.states[i].m, run.steps[i].job, run.states[i + 1].m.chans[c])
  {
    hide Enabled, Apply, Begins;
    StepAt(cfg, run, i);
    AlwaysInv(cfg, run, i);
    NewChan(run.states[i], run.steps[i], c);
    hide IsRun;
  }

  lemma NoChansAtFirst(cfg: Config, run: Run)
    requires IsRun(cfg, run)
    ensures run.states[0].m.chans == map[]
  {
    hide Enabled, Apply;
  }

  /** Never do more than 64 events wait for a client. */
  lemma {:induction false} BufferIsBounded(cfg: Config, run: Run, i: nat, c: ChanId)
    requires IsRun(cfg, run) && i < |run.states| && c in run.states[i].m.chans
    ensures run.states[i].m.chans[c].taken <= |run.states[i].m.chans[c].stream| <= run.states[i].m.chans[c].taken + 64
  {
    NoChansAtFirst(cfg, run);
    hide IsRun, Enabled, Apply;
    assert i > 0;
    StepAt(cfg, run, i - 1);
    AlwaysInv(cfg, run, i - 1);
    if c in run.states[i - 1].m.chans {
      BufferIsBounded(cfg, run, i - 1, c);
      ChanStep(run.states[i - 1], run.steps[i - 1], c);
    } else {
      NewChan(run.states[i - 1], run.steps[i - 1], c);
    }
  }

  // Up to state `i` the client neither hung up nor let 64 events wait.
  ghost predicate Patient(run: Run, i: nat, c: ChanId)
    requires i < |run.states|
  {
    forall k | 0 <= k < i && c in run.states[k].m.chans :: Attentive(run.states[k].m.chans[c])
  }

  ghost predicate Attentive(ch: Chan) { !ch.hungUp && |ch.stream| - ch.taken < 64 }

  lemma {:induction false} PatientStays(cfg: Config, run: Run, i: nat, c: ChanId)
    requires IsRun(cfg, run) && i < |run.states| && c in run.states[i].m.chans && Patient(run, i, c)
    ensures !run.states[i].m.chans[c].evicted
  {
    NoChansAtFirst(cfg, run);
    hide IsRun, Enabled, Apply;
    assert i > 0;
    StepAt(cfg, run, i - 1);
    AlwaysInv(cfg, run, i - 1);
    if c in run.states[i - 1].m.chans {
      PatientStays(cfg, run, i - 1, c);
      assert Attentive(run.states[i - 1].m.chans[c]);
      ChanStep(run.states[i - 1], run.steps[i - 1], c);
    } else {
      NewChan(run.states[i - 1], run.steps[i - 1], c);
    }
  }

  /**
   A client that stays and reads gets everything: if it never hangs up and never lets 64
   events wait, it is not evicted and has been sent its snapshot and every later event.
   */
  lemma PatientWatcherMissesNothing(cfg: Config, run: Run, i: nat, c: ChanId)
    requires IsRun(cfg, run) && i < |run.states| && c in run.states[i].m.chans && Patient(run, i, c)
    ensures var ch := run.states[i].m.chans[c];
      && !ch.evicted && ch.since <= |Log(run.states[i].m, ch.job)|
      && |ch.stream| >= 1 && ch.stream[1..] == Log(run.states[i].m, ch.job)[ch.since..]
  {
    hide Patient, StrictlyIncreasing;
    PatientStays(cfg, run, i, c);
    WatcherSeesEverything(cfg, run, i, c);
    hide IsRun;
  }

  // -------------------------------------------------------------- what events say

  ghost predicate LastTells(m: Master, j: JobId) {
    j in m.jobs ==> var log := Log(m, j); log != [] && Tells(m.jobs[j], j, log[|log| - 1])
  }

  /** The last event of a job says what its record says: status, error and, once it is final, the summary. */
  lemma {:induction false} LastEventTellsTheRecord(cfg: Config, run: Run, i: nat, j: JobId)
    requires IsRun(cfg, run) && i < |run.states|
    ensures LastTells(run.states[i].m, j)
  {
    hide *;
    if i == 0 {
      NothingTold(cfg, run, j);
    } else {
      StepAt(cfg, run, i - 1);
      LastEventTellsTheRecord(cfg, run, i - 1, j);
      AlwaysInv(cfg, run, i - 1);
      AlwaysInv(cfg, run, i);
      StepTells(run.states[i - 1], run.steps[i - 1], j);
    }
  }

  lemma NothingTold(cfg: Config, run: Run, j: JobId)
    requires IsRun(cfg, run)
    ensures LastTells(run.states[0].m, j)
  {
    hide Enabled, Apply;
  }

  lemma StepTells(s: World, step: Step, j: JobId)
    requires Inv(s) && Enabled(s, step) && Inv(Apply(s, step)) && LastTells(s.m, j)
    ensures LastTells(Apply(s, step).m, j)
  {
    hide Inv, Enabled, Apply, Emit, JobInv;
    var s' := Apply(s, step);
    var change := StepMakes(s, step);
    if change.Says? {
      StepAppends(s, step, change);
    } else {
      SameLogs(s.m, s'.m, change);
      if j in s'.m.jobs && j in s.m.jobs {
        LogIsOk(s, j);
        LogIsOk(s', j);
        KnownJob(s, j);
        KnownJob(s', j);
        StepFollows(s, step, j);
        QuietRecord(s.m.jobs[j], s'.m.jobs[j]);
      }
      if j in s'.m.jobs && j !in s.m.jobs { NewIsAnnounced(s, step, j); }
    }
    hide Makes;
  }

  lemma SameLogs(m: Master, m': Master, change: Change)
    requires Makes(m, m', change) && !change.Says?
    ensures forall k :: Log(m', k) == Log(m, k)
  {}

  lemma QuietRecord(r: Job, r': Job)
    requires JobInv(r) && JobInv(r') && Follows(r, r') && r'.status == r.status
    ensures r'.error == r.error && r'.summary == r.summary
  {}

  lemma NewIsAnnounced(s: World, step: Step, j: JobId)
    requires Inv(s) && Enabled(s, step) && j !in s.m.jobs && j in Apply(s, step).m.jobs
    ensures Log(Apply(s, step).m, j) != Log(s.m, j)
  {
    hide Inv, Emit;
    OnlyCreateAdds(s, step, j);
    StreamProofs.EmitFacts(s.m, j, NewJob(step.raw, step.manifest, step.now), StatusChange);
    hide Enabled;
  }

  lemma OnlyCreateAdds(s: World, step: Step, j: JobId)
    requires Inv(s) && Enabled(s, step)
    ensures j !in s.m.jobs && j in Apply(s, step).m.jobs ==> step.Create? && step.job == j
  {
    hide Inv, Emit, FetchJob, RunSection, ReportReady, ReportProgress, FetchFileBatch, ReportResult, DeleteJob, FailManifest,
      FailStale;
    if step.Create? {
      EmitJobs(s.m, step.job, NewJob(step.raw, step.manifest, step.now), StatusChange);
    } else if step.Fetch? {
      ReplayAddsNothing(s.m, step.worker, step.now);
      if !Replays(s.m, step.worker) { var i := FetchEffect(s, step.worker, step.now); }
    } else if step.Proceed? {
      SectionKeepsJobs(s.m, step.job, s.closing[step.job][0]);
    } else if !(step.Remove? || step.Enqueue? || step.Unbind?) {
      OtherTame(s, step);
      hide Apply;
      var k :| Tame(s, Apply(s, step), k);
    }
  }

  /** Only a progress report is announced as one. */
  lemma EventKinds(cfg: Config, run: Run, i: nat, j: JobId)
    requires IsRun(cfg, run) && i < |run.steps| && Log(run.states[i + 1].m, j) != Log(run.states[i].m, j)
    ensures var log := Log(run.states[i + 1].m, j);
      log != [] && (log[|log| - 1].kind == ProgressEvent <==> run.steps[i].Report?)
  {
    hide Enabled, Apply, Emit;
    StepAt(cfg, run, i);
    AlwaysInv(cfg, run, i);
    hide IsRun;
    var change := StepMakes(run.states[i], run.steps[i]);
    if change.Says? {
      StepAppends(run.states[i], run.steps[i], change);
    } else {
      SameLogs(run.states[i].m, run.states[i + 1].m, change);
    }
  }
}
