/**
 The master's shared state (crates/cvd-master/src/state.rs) and what each RPC
 handler does to it inside one critical section.  A handler that takes several
 locks one after the other appears here as several functions; Interleaving.dfy puts
 them together and lets other handlers run in between.
 */
module MasterState {
  import opened Types
  import opened Aggregation
  import opened Jobs

  const SUBSCRIBER_CAPACITY := 64
  const I32_MAX: int := 0x7fff_ffff

  datatype Config = Config(startDelay: nat, staleness: nat, prepareTimeout: nat, retention: nat)

  datatype EventKind = StatusChange | ProgressEvent

  datatype Event = Event(job: JobId, seqNo: int, status: Status, kind: EventKind, error: Option<Failure>, summary: Option<Summary>)

  type ChanId = int

  // One watcher's channel: the job it follows, how many events that job had
  // emitted when it subscribed, everything queued on it so far and how much of
  // that the client has taken.
  datatype Chan = Chan(job: JobId, since: nat, stream: seq<Event>, taken: nat, hungUp: bool, evicted: bool)
  {
    // `try_send` succeeds: the client is still there and the buffer has room.
    predicate Accepts() { !hungUp && |stream| - taken < SUBSCRIBER_CAPACITY }
    function Send(e: Event): Chan { this.(stream := stream + [e]) }
  }

  datatype Master = Master(
    cfg: Config,
    jobs: map<JobId, Job>,
    queue: seq<JobId>,
    active: map<WorkerId, JobId>,
    registry: map<JobId, set<ChanId>>,
    chans: map<ChanId, Chan>,
    nextSeq: int,
    // Every event broadcast so far, job by job; kept for stating properties only.
    log: map<JobId, seq<Event>>)

  function Initial(cfg: Config): Master {
    Master(cfg, map[], [], map[], map[], map[], 1, map[])
  }

  function Log(m: Master, j: JobId): seq<Event> { if j in m.log then m.log[j] else [] }

  function Watchers(m: Master, j: JobId): set<ChanId> { if j in m.registry then m.registry[j] else {} }

  predicate IsOpen(jobs: map<JobId, Job>, j: JobId) { j in jobs && !jobs[j].status.Terminal() }

  predicate IsPending(jobs: map<JobId, Job>, j: JobId) { j in jobs && jobs[j].status.Pending? }

  // -------------------------------------------------------------------- events

  function EventFor(m: Master, j: JobId, kind: EventKind): Event
    requires j in m.jobs
  {
    var r := m.jobs[j];
    Event(j, m.nextSeq, r.status, kind, r.error, r.summary)
  }

  // What a broadcast does to one channel.
  function Deliver(c: Chan, e: Event): Chan {
    if c.Accepts() then c.Send(e) else c.(evicted := true)
  }

  function Accepting(m: Master, ids: set<ChanId>): set<ChanId> {
    set c | c in ids && c in m.chans && m.chans[c].Accepts()
  }

  /** `SubscriberRegistry::broadcast`: queue on every channel with room, forget the others. */
  function Broadcast(m: Master, j: JobId, e: Event): Master {
    var ids := Watchers(m, j);
    var keep := Accepting(m, ids);
    m.(chans := map c | c in m.chans :: if c in ids then Deliver(m.chans[c], e) else m.chans[c],
       registry := if keep == {} then m.registry - {j} else m.registry[j := keep])
  }

  /** `emit_for_job`: number the event, record it, broadcast it. */
  function Emit(m: Master, j: JobId, kind: EventKind): Master
    requires j in m.jobs
  {
    var e := EventFor(m, j, kind);
    Broadcast(m.(nextSeq := m.nextSeq + 1, log := m.log[j := Log(m, j) + [e]]), j, e)
  }

  function SetJob(m: Master, j: JobId, r: Job): Master { m.(jobs := m.jobs[j := r]) }

  // -------------------------------------------- sections under the other locks

  /** `finalize_stream`: drop every sender of the job. */
  function FinalizeStream(m: Master, j: JobId): Master { m.(registry := m.registry - {j}) }

  /** Removes the bindings of `ws` that still point at `j`. */
  function ClearActive(m: Master, j: JobId, ws: set<WorkerId>): Master {
    m.(active := map w | w in m.active && !(w in ws && m.active[w] == j) :: m.active[w])
  }

  function RemoveFirst(q: seq<JobId>, j: JobId): seq<JobId> {
    if q == [] then [] else if q[0] == j then q[1..] else [q[0]] + RemoveFirst(q[1..], j)
  }

  function Unqueue(m: Master, j: JobId): Master { m.(queue := RemoveFirst(m.queue, j)) }

  function PushBack(m: Master, j: JobId): Master { m.(queue := m.queue + [j]) }

  // ------------------------------------------------------------------ CreateJob

  function CreateRecord(m: Master, j: JobId, raw: int, manifest: bool, now: Now): Master {
    Emit(SetJob(m, j, NewJob(raw, manifest, now)), j, StatusChange)
  }

  // ------------------------------------------------------------------- FetchJob

  datatype FetchReply = NoJob | Assigned(job: JobId, index: int)

  // The proto field is an i32; an index that does not fit is sent as 0.
  function WireIndex(i: int): int { if 0 <= i <= I32_MAX then i else 0 }

  predicate Replays(m: Master, w: WorkerId) {
    && w in m.active
    && IsOpen(m.jobs, m.active[w])
    && w in m.jobs[m.active[w]].slots
  }

  function FetchJob(m: Master, w: WorkerId, now: Now): (Master, FetchReply) {
    if Replays(m, w) then
      var j := m.active[w];
      (SetJob(m, j, m.jobs[j].Touch(w, now)), Assigned(j, WireIndex(m.jobs[j].slots[w])))
    else
      FetchLoop(m.(active := m.active - {w}), w, now)
  }

  /** Hands the worker a slot of the job at the head of the queue. */
  function AssignHead(m: Master, w: WorkerId, now: Now): (Master, FetchReply)
    requires m.queue != [] && m.queue[0] in m.jobs
  {
    var j := m.queue[0];
    var r := m.jobs[j].TakeSlot(w, now);
    var m1 := SetJob(m, j, r).(active := m.active[w := j]);
    var m2 := if r.SlotsRemaining() == 0 then Emit(m1, j, StatusChange).(queue := m.queue[1..]) else m1;
    (m2, Assigned(j, WireIndex(r.slots[w])))
  }

  /** The queue loop, with its defensive branches. */
  function FetchLoop(m: Master, w: WorkerId, now: Now): (Master, FetchReply)
    decreases |m.queue|
  {
    if m.queue == [] then (m, NoJob)
    else
      var j := m.queue[0];
      if !IsPending(m.jobs, j) then FetchLoop(m.(queue := m.queue[1..]), w, now)
      else if m.jobs[j].SlotsRemaining() == 0 then
        FetchLoop(SetJob(m, j, m.jobs[j].EnterPreparing(now)).(queue := m.queue[1..]), w, now)
      else AssignHead(m, w, now)
  }

  // ---------------------------------------------------------------- ReportReady

  datatype ReadyReply = ReadyReply(cancelled: bool, unknown: bool, startAt: int)

  // A section that closes a job leaves the rest of its RPC to do.
  datatype Closing = Stays | Closes(job: JobId, crew: set<WorkerId>)

  ghost function CloseJob(m: Master, j: JobId, r: Job): Master {
    Emit(SetJob(m, j, r), j, StatusChange)
  }

  ghost function ReportReady(m: Master, w: WorkerId, j: JobId, failure: Option<string>, now: Now): (Master, ReadyReply, Closing) {
    if j !in m.jobs then (m, ReadyReply(false, true, 0), Stays)
    else
      var r := m.jobs[j];
      if r.status.Cancelled? then (m, ReadyReply(true, false, 0), Stays)
      else if r.status.Terminal() || w !in r.slots then (m, ReadyReply(false, true, 0), Stays)
      else
        var t := r.Touch(w, now);
        match failure
        case Some(reason) =>
          if !r.status.Preparing? then (SetJob(m, j, t), ReadyReply(false, true, 0), Stays)
          else
            (CloseJob(m, j, t.Close(Failed, Some(ReadyFailure(w, reason)), now)), ReadyReply(false, false, 0),
             Closes(j, r.slots.Keys))
        case None =>
          var r' := t.MarkReady(w, m.cfg.startDelay, now);
          var m' := SetJob(m, j, r');
          (if r'.status != r.status then Emit(m', j, StatusChange) else m', ReadyReply(false, false, r'.startAt), Stays)
  }

  // ------------------------------------------------------------- ReportProgress

  datatype Ack = Ack(cancelled: bool, unknown: bool)

  function ReportProgress(m: Master, w: WorkerId, j: JobId, p: Progress, now: Now): (Master, Ack) {
    if j !in m.jobs then (m, Ack(false, true))
    else
      var r := m.jobs[j];
      if r.status.Cancelled? then (SetJob(m, j, r.Touch(w, now)), Ack(true, false))
      else if r.status.Terminal() || w !in r.slots then (m, Ack(false, true))
      else
        var r' := r.Touch(w, now).(progress := r.progress[w := SanitizeProgress(p)]);
        (Emit(SetJob(m, j, r'), j, ProgressEvent), Ack(false, false))
  }

  // ------------------------------------------------------------- FetchFileBatch

  // What the section under the jobs lock decides; draining the queue follows.
  datatype BatchGate = GateUnknown | GateCancelled | GateOpen

  function FetchFileBatch(m: Master, w: WorkerId, j: JobId, now: Now): (Master, BatchGate) {
    if j !in m.jobs || w !in m.jobs[j].run then (m, GateUnknown)
    else
      var r := m.jobs[j];
      if r.status.Cancelled? then (SetJob(m, j, r.Touch(w, now)), GateCancelled)
      else if !r.status.Running? || !r.manifestStarted then (m, GateUnknown)
      else (SetJob(m, j, r.Touch(w, now)), GateOpen)
  }

  // --------------------------------------------------------------- ReportResult

  datatype ResultReply = ResultReply(unknown: bool)

  ghost function ReportResult(m: Master, w: WorkerId, j: JobId, result: WorkerResult, now: Now): (Master, ResultReply, Closing) {
    if j !in m.jobs || w !in m.jobs[j].run || !(m.jobs[j].status.Running? || m.jobs[j].status.Cancelled?)
    then (m, ResultReply(true), Stays)
    else
      var r := m.jobs[j];
      if w in r.results then (SetJob(m, j, r.Touch(w, now)), ResultReply(false), Stays)
      else
        var r' := r.AddResult(w, result, now);
        if r.status.Cancelled? then (SetJob(m, j, r'), ResultReply(false), Stays)
        else if !result.success then
          (CloseJob(m, j, r'.Close(Failed, Some(r.FailureOf(w, result)), now)), ResultReply(false), Closes(j, {w}))
        else if |r'.results| == |r'.run| then
          (CloseJob(m, j, r'.Close(Completed, r'.error, now)), ResultReply(false), Closes(j, {w}))
        else (SetJob(m, j, r'), ResultReply(false), Stays)
  }

  // ------------------------------------------------------------ DeleteJob, Watch

  ghost function DeleteJob(m: Master, j: JobId, now: Now): (Master, Closing) {
    if !IsOpen(m.jobs, j) then (m, Stays)
    else
      var r := m.jobs[j];
      (CloseJob(m, j, r.Close(Cancelled, r.error, now)), Closes(j, r.slots.Keys))
  }

  /** `watch_job` on a known job: the snapshot comes first, and only an open job keeps the sender. */
  function WatchJob(m: Master, j: JobId, c: ChanId): Master
    requires j in m.jobs
  {
    var chan := Chan(j, |Log(m, j)|, [EventFor(m, j, StatusChange)], 0, false, false);
    var m1 := m.(nextSeq := m.nextSeq + 1, chans := m.chans[c := chan]);
    if m.jobs[j].status.Terminal() then m1
    else m1.(registry := m.registry[j := Watchers(m, j) + {c}])
  }

  // --------------------------------------------------- manifest failure, staleness

  ghost function FailManifest(m: Master, j: JobId, reason: string, now: Now): (Master, Closing) {
    if !IsOpen(m.jobs, j) then (m, Stays)
    else
      var r := m.jobs[j];
      (CloseJob(m, j, r.Close(Failed, Some(ManifestFailure(reason)), now)), Closes(j, r.slots.Keys))
  }

  /** A reason for which the staleness tick fails a record. */
  predicate TickFails(cfg: Config, r: Job, why: Failure, now: Now) {
    && (r.status.Preparing? || r.status.Running?)
    && match why
       case StaleWorker(w) => r.StaleIn(w, cfg.staleness, now)
       case PrepareTimeout =>
         (forall w | w in r.run :: !r.StaleIn(w, cfg.staleness, now)) && r.Overdue(cfg.prepareTimeout, now)
       case _ => false
  }

  ghost function FailStale(m: Master, j: JobId, why: Failure, now: Now): (Master, Closing)
    requires j in m.jobs
  {
    var r := m.jobs[j];
    (CloseJob(m, j, r.Close(Failed, Some(why), now)), Closes(j, r.slots.Keys))
  }

  // ----------------------------------------------------------------------- GC

  function GcCollect(m: Master, nowMs: int): set<JobId> {
    set j | j in m.jobs && m.jobs[j].status.Terminal() && m.jobs[j].GcBaseline() <= nowMs - m.cfg.retention
  }

  function GcRemove(m: Master, ids: set<JobId>): Master { m.(jobs := m.jobs - ids) }

  // -------------------------------------------------------------- the client side

  function TakeEvent(m: Master, c: ChanId): Master
    requires c in m.chans && m.chans[c].taken < |m.chans[c].stream|
  {
    m.(chans := m.chans[c := m.chans[c].(taken := m.chans[c].taken + 1)])
  }

  function DropClient(m: Master, c: ChanId): Master
    requires c in m.chans
  {
    m.(chans := m.chans[c := m.chans[c].(hungUp := true)])
  }
}
