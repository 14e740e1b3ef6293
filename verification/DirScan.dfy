/**
 The concurrent directory scan (crates/cvd-master/src/manifest/dir_scan.rs): one
 reader and any number of scanners share a work queue, and a counter of
 unfinished directories tells the scanners when the pass is over.

 Every step below is one critical section of the queue's mutex, one operation on
 the `Notify`, or one directory entry; steps of different tasks interleave freely.
 tokio's `Notify` is modelled exactly: `notify_one` wakes a waiting task or else
 stores a single permit; `notify_waiters` wakes every waiting task and every
 future created before the call, and stores nothing. Files go into the bounded file
 queue, whose consumers take them out again; a scanner meeting a full queue waits.
 */
module DirScan {
  import opened Types

  // What a directory holds, links and special files included.
  datatype Entry = File(path: string) | Sub(dir: Dir) | Symlink | Special
  datatype Dir = Dir(entries: seq<Entry>)

  // A line of the manifest: skipped, or naming a directory.
  datatype Line = Comment | Listed(dir: Dir)

  // ------------------------------------------------- the queue behind its mutex

  datatype Inner = Inner(dirs: seq<Dir>, readerDone: bool, pending: nat, closed: bool)

  const NEW_QUEUE := Inner([], false, 0, false)

  function PushDir(q: Inner, d: Dir): Inner {
    if q.closed then q else q.(dirs := q.dirs + [d], pending := q.pending + 1)
  }

  datatype Popped = Closing | Got(dir: Dir) | PassOver | MustWait

  function PopDir(q: Inner): (Inner, Popped) {
    if q.closed then (q, Closing)
    else if q.dirs != [] then (q.(dirs := q.dirs[1..]), Got(q.dirs[0]))
    else if q.readerDone && q.pending == 0 then (q, PassOver)
    else (q, MustWait)
  }

  function FinishDir(q: Inner): (Inner, bool) {
    var q' := q.(pending := if q.pending == 0 then 0 else q.pending - 1);
    (q', q'.readerDone && q'.pending == 0)
  }

  function MarkReaderDone(q: Inner): (Inner, bool) {
    (q.(readerDone := true), q.pending == 0 || q.dirs == [])
  }

  /** The queue itself: the sections the tasks run while they hold its mutex. */
  class DirWorkQueue {
    var dirs: seq<Dir>
    var readerDone: bool
    var pending: nat
    var closed: bool

    ghost function State(): Inner
      reads this
    {
      Inner(dirs, readerDone, pending, closed)
    }

    constructor ()
      ensures State() == NEW_QUEUE
    {
      dirs, readerDone, pending, closed := [], false, 0, false;
    }

    method Push(d: Dir) returns (ok: bool)
      modifies this
      ensures State() == PushDir(old(State()), d)
      ensures ok <==> !old(closed)
    {
      if closed { return false; }
      dirs := dirs + [d];
      pending := pending + 1;
      ok := true;
    }

    method Pop() returns (got: Popped)
      modifies this
      ensures (State(), got) == PopDir(old(State()))
    {
      if closed { return Closing; }
      if dirs != [] {
        got := Got(dirs[0]);
        dirs := dirs[1..];
        return;
      }
      if readerDone && pending == 0 { return PassOver; }
      got := MustWait;
    }

    method Finish() returns (wake: bool)
      modifies this
      ensures (State(), wake) == FinishDir(old(State()))
    {
      if pending > 0 { pending := pending - 1; }
      wake := readerDone && pending == 0;
    }

    method ReaderFinished() returns (wake: bool)
      modifies this
      ensures (State(), wake) == MarkReaderDone(old(State()))
    {
      readerDone := true;
      wake := pending == 0 || dirs == [];
    }

    method Close()
      modifies this
      ensures State() == old(State()).(closed := true)
    {
      closed := true;
    }
  }

  // ------------------------------------------------------------------ the tasks

  datatype Phase =
    | AtTop                            // about to look into the queue
    | Created(epoch: nat)              // holds a `notified()` future it has not polled
    | Waiting                          // registered with the `Notify`
    | Scanning(rest: seq<Entry>)       // reading a directory
    | Pushing(rest: seq<Entry>)        // queued a subdirectory, `notify_one` still to come
    | Finishing(wake: bool)            // counted a directory off, `notify_waiters` to come if `wake`
    | Exited

  datatype Reader =
    | Reading(lines: seq<Line>)
    | Announcing(lines: seq<Line>)     // queued a directory, `notify_one` still to come
    | Ending(wake: bool)               // marked itself done, `notify_waiters` to come if `wake`
    | ReaderExited

  datatype Scan = Scan(
    q: Inner,
    permit: bool,
    epoch: nat,
    reader: Reader,
    tasks: seq<Phase>,
    emitted: multiset<string>,
    room: nat,                         // free slots of the file queue
    buffered: nat,                     // files in it that no worker has fetched yet
    cancel: bool,
    failed: bool)

  function Begin(lines: seq<Line>, scanners: nat, capacity: nat): Scan {
    Scan(NEW_QUEUE, false, 0, Reading(lines),
         seq(if scanners == 0 then 1 else scanners, _ => AtTop), multiset{},
         if capacity == 0 then 1 else capacity, 0, false, false)
  }

  /** `notify_one`, when the task it would wake (if any waits) is number `k`. */
  function NotifyOne(s: Scan, k: nat): Scan {
    if k < |s.tasks| && s.tasks[k].Waiting? then s.(tasks := s.tasks[k := AtTop])
    else s.(permit := true)
  }

  predicate MayWake(s: Scan, k: nat) {
    (forall i | 0 <= i < |s.tasks| :: !s.tasks[i].Waiting?) || (k < |s.tasks| && s.tasks[k].Waiting?)
  }

  function WakeAll(tasks: seq<Phase>): seq<Phase> {
    seq(|tasks|, i requires 0 <= i < |tasks| => if tasks[i].Waiting? then AtTop else tasks[i])
  }

  function NotifyWaiters(s: Scan): Scan { s.(tasks := WakeAll(s.tasks), epoch := s.epoch + 1) }

  /** The reader's next step; `k` is the task a `notify_one` wakes. */
  function ReaderStep(s: Scan, k: nat): Scan {
    match s.reader
    case Reading(lines) =>
      if s.cancel && lines != [] then NotifyWaiters(s.(q := s.q.(closed := true), reader := ReaderExited))
      else if lines == [] then
        var (q, wake) := MarkReaderDone(s.q);
        s.(q := q, reader := Ending(wake))
      else if lines[0].Comment? then s.(reader := Reading(lines[1..]))
      else if s.q.closed then s.(failed := true, reader := ReaderExited)
      else s.(q := PushDir(s.q, lines[0].dir), reader := Announcing(lines[1..]))
    case Announcing(lines) => NotifyOne(s, k).(reader := Reading(lines))
    case Ending(wake) => (if wake then NotifyWaiters(s) else s).(reader := ReaderExited)
    case ReaderExited => s
  }

  // One look into the queue.
  function LookStep(s: Scan, i: nat): Scan
    requires i < |s.tasks|
  {
    if s.cancel then s.(tasks := s.tasks[i := Exited])
    else
      var (q, got) := PopDir(s.q);
      s.(q := q, tasks := s.tasks[i :=
        match got
        case Closing => Exited
        case PassOver => Exited
        case Got(d) => Scanning(d.entries)
        case MustWait => Created(s.epoch)])
  }

  // The first poll of a `notified()` future.
  function PollStep(s: Scan, i: nat, epoch: nat): Scan
    requires i < |s.tasks|
  {
    if s.permit then s.(permit := false, tasks := s.tasks[i := AtTop])
    else s.(tasks := s.tasks[i := if epoch != s.epoch then AtTop else Waiting])
  }

  // The directory is done, or the job was cancelled: count it off.
  function CountOffStep(s: Scan, i: nat): Scan
    requires i < |s.tasks|
  {
    var (q, wake) := FinishDir(s.q);
    s.(q := q, tasks := s.tasks[i := Finishing(wake)])
  }

  // One directory entry: links and special files are skipped.
  function EntryStep(s: Scan, i: nat, e: Entry, rest: seq<Entry>): Scan
    requires i < |s.tasks|
  {
    match e
    case File(p) =>
      s.(emitted := s.emitted + multiset{p}, tasks := s.tasks[i := Scanning(rest)],
         room := if s.room == 0 then 0 else s.room - 1, buffered := s.buffered + 1)
    case Sub(d) =>
      if s.q.closed then s.(failed := true, tasks := s.tasks[i := Scanning([])])
      else s.(q := PushDir(s.q, d), tasks := s.tasks[i := Pushing(rest)])
    case _ => s.(tasks := s.tasks[i := Scanning(rest)])
  }

  /** Scanner `i`'s next step; `k` is the task a `notify_one` wakes. */
  function TaskStep(s: Scan, i: nat, k: nat): Scan
    requires i < |s.tasks|
  {
    match s.tasks[i]
    case AtTop => LookStep(s, i)
    case Created(epoch) => PollStep(s, i, epoch)
    case Waiting => s
    case Scanning(rest) =>
      if rest == [] || s.cancel then CountOffStep(s, i) else EntryStep(s, i, rest[0], rest[1..])
    case Pushing(rest) => NotifyOne(s.(tasks := s.tasks[i := Scanning(rest)]), k)
    case Finishing(wake) =>
      var s' := s.(tasks := s.tasks[i := AtTop]);
      if wake then NotifyWaiters(s') else s'
    case Exited => s
  }

  datatype Step =
    | ReaderMoves(k: nat)
    | TaskMoves(i: nat, k: nat)
    | Fetched(n: nat)        // a worker drains `n` files
    | Cancel                 // the job ended: its cancel flag is set
    | ReaderFails            // unreadable or unsafe line: the queue is closed
    | TaskFails(i: nat)      // a directory cannot be read, a path escapes, the file queue is closed

  // The next thing to do is to push a file, and the file queue is full.
  predicate Blocked(s: Scan, p: Phase) { p.Scanning? && p.rest != [] && p.rest[0].File? && !s.cancel && s.room == 0 }

  predicate Enabled(s: Scan, step: Step) {
    match step
    case ReaderMoves(k) =>
      !s.reader.ReaderExited? && (s.reader.Announcing? ==> MayWake(s, k))
    case TaskMoves(i, k) =>
      && i < |s.tasks| && !s.tasks[i].Waiting? && !s.tasks[i].Exited? && !Blocked(s, s.tasks[i])
      && (s.tasks[i].Pushing? ==> MayWake(s, k))
    case Fetched(n) => 0 < n <= s.buffered
    case Cancel => true
    case ReaderFails => s.reader.Reading?
    case TaskFails(i) => i < |s.tasks| && s.tasks[i].Scanning?
  }

  function Apply(s: Scan, step: Step): Scan
    requires Enabled(s, step)
  {
    match step
    case ReaderMoves(k) => ReaderStep(s, k)
    case TaskMoves(i, k) => TaskStep(s, i, k)
    case Fetched(n) => s.(room := s.room + n, buffered := s.buffered - n)
    case Cancel => s.(cancel := true)
    case ReaderFails => NotifyWaiters(s.(failed := true, reader := ReaderExited, q := s.q.(closed := true)))
    case TaskFails(i) =>
      // `finish_dir`, the error return and the cancellation by the joining task, taken together.
      NotifyWaiters(s.(failed := true, cancel := true, q := FinishDir(s.q).0.(closed := true), tasks := s.tasks[i := Exited]))
  }

  /** The pass is over: the reader and every scanner have returned. */
  predicate Returned(s: Scan) {
    s.reader.ReaderExited? && forall i | 0 <= i < |s.tasks| :: s.tasks[i].Exited?
  }

  /** Nothing has gone wrong and nobody has asked to stop. */
  predicate Clean(s: Scan) { !s.cancel && !s.failed }

  // ------------------------------------------------------------- what must come out

  /** The regular files below a directory, reached without following links. */
  ghost function Files(d: Dir): multiset<string>
    decreases d
  {
    FilesIn(d.entries)
  }

  ghost function FilesIn(es: seq<Entry>): multiset<string>
    decreases es
  {
    if es == [] then multiset{} else FilesOf(es[0]) + FilesIn(es[1..])
  }

  ghost function FilesOf(e: Entry): multiset<string>
    decreases e
  {
    match e
    case File(p) => multiset{p}
    case Sub(d) => Files(d)
    case _ => multiset{}
  }

  ghost function FilesBelow(ds: seq<Dir>): multiset<string> {
    if ds == [] then multiset{} else Files(ds[0]) + FilesBelow(ds[1..])
  }

  ghost function FilesListed(lines: seq<Line>): multiset<string> {
    if lines == [] then multiset{}
    else (if lines[0].Listed? then Files(lines[0].dir) else multiset{}) + FilesListed(lines[1..])
  }

  ghost function InHand(p: Phase): multiset<string> {
    match p
    case Scanning(rest) => FilesIn(rest)
    case Pushing(rest) => FilesIn(rest)
    case _ => multiset{}
  }

  ghost function InHands(tasks: seq<Phase>): multiset<string> {
    if tasks == [] then multiset{} else InHand(tasks[0]) + InHands(tasks[1..])
  }

  ghost function Unread(r: Reader): multiset<string> {
    match r
    case Reading(lines) => FilesListed(lines)
    case Announcing(lines) => FilesListed(lines)
    case _ => multiset{}
  }

  ghost function Everything(s: Scan): multiset<string> {
    s.emitted + FilesBelow(s.q.dirs) + InHands(s.tasks) + Unread(s.reader)
  }

  // ----------------------------------------------------------------- invariant

  predicate Working(p: Phase) { p.Scanning? || p.Pushing? }

  function CountWorking(tasks: seq<Phase>): nat {
    if tasks == [] then 0 else (if Working(tasks[0]) then 1 else 0) + CountWorking(tasks[1..])
  }

  predicate Active(p: Phase) { p.AtTop? || p.Scanning? || p.Pushing? || p.Finishing? }

  predicate AnyActive(s: Scan) { exists i :: 0 <= i < |s.tasks| && Active(s.tasks[i]) }

  predicate Over(q: Inner) { q.readerDone && q.pending == 0 }

  // Some task is about to call `notify_waiters`.
  predicate WakeComing(s: Scan) {
    s.reader == Ending(true) || exists i :: 0 <= i < |s.tasks| && s.tasks[i] == Finishing(true)
  }

  // The counter is exactly the queued and the in-progress directories.
  ghost predicate CountInv(s: Scan) {
    && |s.tasks| >= 1
    && !s.q.closed
    && s.q.pending == |s.q.dirs| + CountWorking(s.tasks)
    && (s.q.readerDone <==> s.reader.Ending? || s.reader.ReaderExited?)
    && (forall i | 0 <= i < |s.tasks| && s.tasks[i].Exited? :: Over(s.q))
  }

  ghost predicate WakeInv(s: Scan) {
    // a permit and a waiting task never coexist
    && (s.permit ==> forall i | 0 <= i < |s.tasks| :: !s.tasks[i].Waiting?)
    // queued work has somebody coming for it
    && (s.q.dirs != [] ==> s.permit || s.reader.Announcing? || AnyActive(s))
    // once the pass is over, everyone asleep or about to sleep will still be woken
    && (forall i | 0 <= i < |s.tasks| && s.tasks[i].Created? :: s.tasks[i].epoch <= s.epoch)
    && (Over(s.q) && !WakeComing(s) ==>
          forall i | 0 <= i < |s.tasks| :: !s.tasks[i].Waiting? && s.tasks[i] != Created(s.epoch))
  }

  /** While nothing has gone wrong. */
  ghost predicate ScanInv(s: Scan, total: multiset<string>) {
    CountInv(s) && WakeInv(s) && Everything(s) == total && s.room + s.buffered >= 1
  }

  predicate Routine(step: Step) { step.ReaderMoves? || step.TaskMoves? || step.Fetched? }

  /** Nobody can move, not even a worker fetching files, although the pass has not returned. */
  ghost predicate Stuck(s: Scan) {
    !Returned(s) && forall step: Step | Routine(step) :: !Enabled(s, step)
  }
}
