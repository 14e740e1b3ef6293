/** The directory scan loses no file, no wake-up and no time. */
module DirScanProofs {
  import opened Types
  import opened DirScan

  // ----------------------------------------------------------- one task changes

  lemma {:induction false} CountUpdate(tasks: seq<Phase>, i: nat, p: Phase)
    requires i < |tasks|
    ensures CountWorking(tasks[i := p])
         == CountWorking(tasks) - (if Working(tasks[i]) then 1 else 0) + (if Working(p) then 1 else 0)
    decreases i
  {
    if i > 0 {
      CountUpdate(tasks[1..], i - 1, p);
      assert tasks[i := p][1..] == tasks[1..][i - 1 := p];
    } else {
      assert tasks[0 := p][1..] == tasks[1..];
    }
  }

  lemma {:induction false} CountAt(tasks: seq<Phase>, i: nat)
    requires i < |tasks| && Working(tasks[i])
    ensures CountWorking(tasks) >= 1
  {
    if i > 0 { CountAt(tasks[1..], i - 1); }
  }

  lemma {:induction false} HandsUpdate(tasks: seq<Phase>, i: nat, p: Phase)
    requires i < |tasks|
    ensures InHands(tasks[i := p]) + InHand(tasks[i]) == InHands(tasks) + InHand(p)
    decreases i
  {
    if i > 0 {
      HandsUpdate(tasks[1..], i - 1, p);
      assert tasks[i := p][1..] == tasks[1..][i - 1 := p];
      var h := InHand(tasks[0]);
      assert h + InHands(tasks[1..][i - 1 := p]) + InHand(tasks[i]) == h + (InHands(tasks[1..][i - 1 := p]) + InHand(tasks[i]));
      assert h + InHands(tasks[1..]) + InHand(p) == h + (InHands(tasks[1..]) + InHand(p));
    } else {
      assert tasks[0 := p][1..] == tasks[1..];
      assert InHand(p) + InHands(tasks[1..]) + InHand(tasks[0]) == InHand(tasks[0]) + InHands(tasks[1..]) + InHand(p);
    }
  }

  lemma {:induction false} BelowAppend(ds: seq<Dir>, d: Dir)
    ensures FilesBelow(ds + [d]) == FilesBelow(ds) + Files(d)
  {
    if ds == [] {
      assert [d][1..] == [];
    } else {
      assert (ds + [d])[1..] == ds[1..] + [d];
      BelowAppend(ds[1..], d);
    }
  }

  lemma {:induction false} WakeAllIsQuiet(tasks: seq<Phase>)
    ensures CountWorking(WakeAll(tasks)) == CountWorking(tasks)
    ensures InHands(WakeAll(tasks)) == InHands(tasks)
  {
    if tasks != [] {
      assert WakeAll(tasks)[1..] == WakeAll(tasks[1..]);
      WakeAllIsQuiet(tasks[1..]);
    }
  }

  // ------------------------------------------------------------- the counter

  lemma NotifyOneCount(s: Scan, k: nat)
    ensures CountWorking(NotifyOne(s, k).tasks) == CountWorking(s.tasks)
    ensures InHands(NotifyOne(s, k).tasks) == InHands(s.tasks)
    ensures |NotifyOne(s, k).tasks| == |s.tasks|
    ensures forall i | 0 <= i < |s.tasks| :: NotifyOne(s, k).tasks[i].Exited? <==> s.tasks[i].Exited?
  {
    hide CountWorking, InHands;
    if k < |s.tasks| && s.tasks[k].Waiting? {
      CountUpdate(s.tasks, k, AtTop);
      HandsUpdate(s.tasks, k, AtTop);
      assert InHands(s.tasks[k := AtTop]) + multiset{} == InHands(s.tasks[k := AtTop]);
      assert InHands(s.tasks) + multiset{} == InHands(s.tasks);
    }
  }

  lemma NotifyWaitersCount(s: Scan)
    ensures |NotifyWaiters(s).tasks| == |s.tasks|
    ensures CountWorking(NotifyWaiters(s).tasks) == CountWorking(s.tasks)
    ensures InHands(NotifyWaiters(s).tasks) == InHands(s.tasks)
    ensures forall i | 0 <= i < |s.tasks| :: NotifyWaiters(s).tasks[i].Exited? <==> s.tasks[i].Exited?
  {
    WakeAllIsQuiet(s.tasks);
  }

  lemma ReaderCount(s: Scan, k: nat)
    requires CountInv(s) && Clean(s) && !s.reader.ReaderExited?
    ensures CountInv(ReaderStep(s, k)) && Clean(ReaderStep(s, k))
  {
    match s.reader {
      case Reading(lines) => hide CountWorking;
      case Announcing(lines) =>
        NotifyOneCount(s, k);
        hide CountWorking;
      case Ending(wake) =>
        NotifyWaitersCount(s);
        hide CountWorking, WakeAll;
    }
  }

  // One task changing its phase and nothing else about the counter.
  lemma PhaseCount(s: Scan, q: Inner, i: nat, p: Phase)
    requires CountInv(s) && i < |s.tasks|
    requires !q.closed && q.readerDone == s.q.readerDone
    requires q.pending + (if Working(s.tasks[i]) then 1 else 0) + |s.q.dirs| == s.q.pending + (if Working(p) then 1 else 0) + |q.dirs|
    requires p.Exited? ==> Over(q)
    requires Over(s.q) ==> Over(q)
    ensures CountInv(s.(q := q, tasks := s.tasks[i := p]))
  {
    CountUpdate(s.tasks, i, p);
    hide CountWorking;
  }

  lemma LookCount(s: Scan, i: nat)
    requires CountInv(s) && Clean(s) && i < |s.tasks| && s.tasks[i].AtTop?
    ensures CountInv(LookStep(s, i)) && Clean(LookStep(s, i))
  {
    var s' := LookStep(s, i);
    assert !s.q.closed;
    assert s' == s.(q := s'.q, tasks := s.tasks[i := s'.tasks[i]]);
    assert s'.tasks[i].Exited? ==> Over(s.q);
    PhaseCount(s, s'.q, i, s'.tasks[i]);
    hide CountInv;
  }

  lemma PollCount(s: Scan, i: nat, epoch: nat)
    requires CountInv(s) && i < |s.tasks| && s.tasks[i].Created?
    ensures CountInv(PollStep(s, i, epoch))
  {
    PhaseCount(s, s.q, i, PollStep(s, i, epoch).tasks[i]);
    hide CountWorking;
  }

  lemma CountOffCount(s: Scan, i: nat)
    requires CountInv(s) && i < |s.tasks| && s.tasks[i].Scanning?
    ensures CountInv(CountOffStep(s, i))
  {
    var s' := CountOffStep(s, i);
    CountAt(s.tasks, i);
    PhaseCount(s, s'.q, i, s'.tasks[i]);
    hide CountInv;
  }

  lemma EntryCount(s: Scan, i: nat, e: Entry, rest: seq<Entry>)
    requires CountInv(s) && Clean(s) && i < |s.tasks| && s.tasks[i].Scanning?
    ensures CountInv(EntryStep(s, i, e, rest)) && Clean(EntryStep(s, i, e, rest))
  {
    var s' := EntryStep(s, i, e, rest);
    CountAt(s.tasks, i);
    PhaseCount(s, s'.q, i, s'.tasks[i]);
    hide CountWorking;
  }

  lemma HandOverCount(s: Scan, i: nat, p: Phase, k: nat)
    requires CountInv(s) && i < |s.tasks| && !p.Exited? && (Working(p) <==> Working(s.tasks[i]))
    ensures CountInv(NotifyOne(s.(tasks := s.tasks[i := p]), k))
    ensures CountInv(NotifyWaiters(s.(tasks := s.tasks[i := p])))
    ensures CountInv(s.(tasks := s.tasks[i := p]))
  {
    PhaseCount(s, s.q, i, p);
    var t := s.(tasks := s.tasks[i := p]);
    assert t == s.(q := s.q, tasks := s.tasks[i := p]);
    hide CountInv;
    NotifyCount(t, k);
  }

  lemma NotifyCount(s: Scan, k: nat)
    requires CountInv(s)
    ensures CountInv(NotifyOne(s, k)) && CountInv(NotifyWaiters(s))
  {
    NotifyOneCount(s, k);
    NotifyWaitersCount(s);
    hide CountWorking, WakeAll;
  }

  lemma TaskCount(s: Scan, i: nat, k: nat)
    requires CountInv(s) && Clean(s) && i < |s.tasks| && !s.tasks[i].Waiting? && !s.tasks[i].Exited?
    ensures CountInv(TaskStep(s, i, k)) && Clean(TaskStep(s, i, k))
  {
    hide CountInv, LookStep, EntryStep;
    match s.tasks[i] {
      case AtTop => LookCount(s, i);
      case Created(epoch) => PollCount(s, i, epoch);
      case Scanning(rest) => CountOffCount(s, i); if rest != [] { EntryCount(s, i, rest[0], rest[1..]); }
      case Pushing(rest) => HandOverCount(s, i, Scanning(rest), k);
      case Finishing(wake) => HandOverCount(s, i, AtTop, k);
    }
  }

  // -------------------------------------------------------------- the wake-ups

  lemma ReaderWake(s: Scan, k: nat)
    requires CountInv(s) && WakeInv(s) && Clean(s) && Enabled(s, ReaderMoves(k))
    ensures WakeInv(ReaderStep(s, k))
  {
    var s' := ReaderStep(s, k);
    match s.reader {
      case Reading(lines) =>
        assert s'.tasks == s.tasks;
        if lines == [] && Over(s'.q) { assert WakeComing(s'); }
        if AnyActive(s) { assert AnyActive(s'); }
      case Announcing(lines) =>
        if k < |s.tasks| && s.tasks[k].Waiting? { assert Active(s'.tasks[k]); }
      case Ending(wake) =>
        if AnyActive(s) {
          var i :| 0 <= i < |s.tasks| && Active(s.tasks[i]);
          assert Active(s'.tasks[i]);
        }
        if !wake && WakeComing(s) {
          var i :| 0 <= i < |s.tasks| && s.tasks[i] == Finishing(true);
          assert s'.tasks[i] == Finishing(true);
        }
    }
  }

  lemma TaskWake(s: Scan, i: nat, k: nat)
    requires CountInv(s) && WakeInv(s) && Clean(s) && Enabled(s, TaskMoves(i, k))
    ensures WakeInv(TaskStep(s, i, k))
  {
    hide CountInv, WakeInv;
    match s.tasks[i] {
      case AtTop => LookWake(s, i, k);
      case Created(_) => CreatedWake(s, i, k);
      case Scanning(_) => ScanningWake(s, i, k);
      case Pushing(_) => PushingWake(s, i, k);
      case Finishing(_) => FinishingWake(s, i, k);
    }
  }

  // Somebody else's pending `notify_waiters` is still to come.
  lemma WakeStillComes(s: Scan, s': Scan, i: nat)
    requires i < |s.tasks| && s.tasks[i] != Finishing(true) && WakeComing(s)
    requires |s'.tasks| == |s.tasks| && s'.reader == s.reader
    requires forall j | 0 <= j < |s.tasks| && j != i && !s.tasks[j].Waiting? :: s'.tasks[j] == s.tasks[j]
    ensures WakeComing(s')
  {
    if s.reader != Ending(true) {
      var j :| 0 <= j < |s.tasks| && s.tasks[j] == Finishing(true);
      assert s'.tasks[j] == Finishing(true);
    }
  }

  lemma LookWake(s: Scan, i: nat, k: nat)
    requires CountInv(s) && WakeInv(s) && Clean(s) && Enabled(s, TaskMoves(i, k)) && s.tasks[i].AtTop?
    ensures WakeInv(TaskStep(s, i, k))
  {
    var s' := TaskStep(s, i, k);
    hide CountWorking;
    if WakeComing(s) { WakeStillComes(s, s', i); }
    hide WakeComing;
    if s.q.dirs != [] { assert Active(s'.tasks[i]); }
  }

  lemma ScanningWake(s: Scan, i: nat, k: nat)
    requires CountInv(s) && WakeInv(s) && Clean(s) && Enabled(s, TaskMoves(i, k)) && s.tasks[i].Scanning?
    ensures WakeInv(TaskStep(s, i, k))
  {
    var s' := TaskStep(s, i, k);
    hide CountWorking;
    if WakeComing(s) { WakeStillComes(s, s', i); }
    if s'.tasks[i] == Finishing(true) { assert WakeComing(s'); }
    hide WakeComing;
    assert Active(s'.tasks[i]);
  }

  lemma FinishingWake(s: Scan, i: nat, k: nat)
    requires CountInv(s) && WakeInv(s) && Clean(s) && Enabled(s, TaskMoves(i, k)) && s.tasks[i].Finishing?
    ensures WakeInv(TaskStep(s, i, k))
  {
    var s' := TaskStep(s, i, k);
    hide CountWorking;
    if WakeComing(s) && !s.tasks[i].wake { WakeStillComes(s, s', i); }
    hide WakeComing;
    assert Active(s'.tasks[i]);
  }

  lemma CreatedWake(s: Scan, i: nat, k: nat)
    requires CountInv(s) && WakeInv(s) && Clean(s) && Enabled(s, TaskMoves(i, k)) && s.tasks[i].Created?
    ensures WakeInv(TaskStep(s, i, k))
  {
    var s' := TaskStep(s, i, k);
    if WakeComing(s) && s.reader != Ending(true) {
      var j :| 0 <= j < |s.tasks| && s.tasks[j] == Finishing(true);
      assert s'.tasks[j] == Finishing(true);
    }
    if AnyActive(s) {
      var j :| 0 <= j < |s.tasks| && Active(s.tasks[j]);
      assert Active(s'.tasks[j]);
    }
    if s.permit || s.tasks[i].epoch != s.epoch { assert Active(s'.tasks[i]); }
  }

  lemma PushingWake(s: Scan, i: nat, k: nat)
    requires WakeInv(s) && Enabled(s, TaskMoves(i, k)) && s.tasks[i].Pushing?
    ensures WakeInv(TaskStep(s, i, k))
  {
    var s' := TaskStep(s, i, k);
    assert Active(s'.tasks[i]);
    if WakeComing(s) && s.reader != Ending(true) {
      var j :| 0 <= j < |s.tasks| && s.tasks[j] == Finishing(true);
      assert s'.tasks[j] == Finishing(true);
    }
  }

  // ------------------------------------------------------------------- the files

  // Same files in all, counted one by one.
  lemma SameFiles(s: Scan, s': Scan)
    requires forall x: string :: Everything(s')[x] == Everything(s)[x]
    ensures Everything(s') == Everything(s)
  {}

  lemma ReaderFiles(s: Scan, k: nat)
    requires CountInv(s) && Clean(s) && !s.reader.ReaderExited?
    ensures Everything(ReaderStep(s, k)) == Everything(s)
  {
    hide Everything, CountWorking, FilesListed;
    match s.reader {
      case Reading(lines) => if lines != [] && lines[0].Listed? { ListedFiles(s, lines, k); } else { SkippedFiles(s, lines, k); }
      case Announcing(lines) =>
        NotifyOneCount(s, k);
        MovedReaderFiles(s, NotifyOne(s, k), Reading(lines));
      case Ending(wake) =>
        NotifyWaitersCount(s);
        MovedReaderFiles(s, if wake then NotifyWaiters(s) else s, ReaderExited);
    }
  }

  // The reader moves on with the same lines before it, and tasks are woken.
  lemma MovedReaderFiles(s: Scan, s': Scan, r: Reader)
    requires InHands(s'.tasks) == InHands(s.tasks) && s'.q == s.q && s'.emitted == s.emitted && Unread(r) == Unread(s.reader)
    ensures Everything(s'.(reader := r)) == Everything(s)
  {}

  lemma SkippedFiles(s: Scan, lines: seq<Line>, k: nat)
    requires s.reader == Reading(lines) && !s.cancel && (lines == [] || lines[0].Comment?)
    ensures Everything(ReaderStep(s, k)) == Everything(s)
  {
    hide InHands, FilesBelow, FilesIn;
    if lines != [] { assert multiset{} + FilesListed(lines[1..]) == FilesListed(lines[1..]); }
  }

  lemma ListedFiles(s: Scan, lines: seq<Line>, k: nat)
    requires s.reader == Reading(lines) && !s.q.closed && !s.cancel && lines != [] && lines[0].Listed?
    ensures Everything(ReaderStep(s, k)) == Everything(s)
  {
    var d := lines[0].dir;
    BelowAppend(s.q.dirs, d);
    assert ReaderStep(s, k) == s.(q := PushDir(s.q, d), reader := Announcing(lines[1..]));
    assert FilesListed(lines) == Files(d) + FilesListed(lines[1..]);
    hide InHands, FilesBelow, FilesListed, Files;
    var e, b, f, h, u := s.emitted, FilesBelow(s.q.dirs), Files(d), InHands(s.tasks), FilesListed(lines[1..]);
    assert e + (b + f) + h + u == e + b + h + (f + u);
  }

  // One task's phase changes, and what it drops from its hands goes elsewhere.
  lemma PhaseFiles(s: Scan, s': Scan, i: nat, p: Phase)
    requires i < |s.tasks| && s'.tasks == s.tasks[i := p] && s'.reader == s.reader
    requires s'.emitted + FilesBelow(s'.q.dirs) + InHand(p) == s.emitted + FilesBelow(s.q.dirs) + InHand(s.tasks[i])
    ensures Everything(s') == Everything(s)
  {
    HandsUpdate(s.tasks, i, p);
    hide InHands, InHand, FilesBelow, Unread;
    var a, b := s.emitted + FilesBelow(s.q.dirs), s'.emitted + FilesBelow(s'.q.dirs);
    var h, h' := InHands(s.tasks), InHands(s'.tasks);
    forall x: string ensures Everything(s')[x] == Everything(s)[x] {
      assert (h' + InHand(s.tasks[i]))[x] == (h + InHand(p))[x];
      assert (b + InHand(p))[x] == (a + InHand(s.tasks[i]))[x];
    }
    SameFiles(s, s');
  }

  lemma LookFiles(s: Scan, i: nat)
    requires Clean(s) && i < |s.tasks| && s.tasks[i].AtTop?
    ensures Everything(LookStep(s, i)) == Everything(s)
  {
    var s' := LookStep(s, i);
    var e, b, h := s.emitted, FilesBelow(s'.q.dirs), InHand(s'.tasks[i]);
    assert b + h == FilesBelow(s.q.dirs);
    assert e + b + h == e + (b + h);
    PhaseFiles(s, s', i, s'.tasks[i]);
    hide Everything;
  }

  lemma EntryFiles(s: Scan, i: nat, e: Entry, rest: seq<Entry>)
    requires i < |s.tasks| && s.tasks[i] == Scanning([e] + rest) && !s.q.closed
    ensures Everything(EntryStep(s, i, e, rest)) == Everything(s)
  {
    var s' := EntryStep(s, i, e, rest);
    FirstEntry(e, rest);
    EntryLeaves(s, i, e, rest);
    hide Everything, InHand, EntryStep, FilesBelow, FilesIn, FilesOf;
    EntryBalance(s, s', e, rest);
    PhaseFiles(s, s', i, s'.tasks[i]);
  }

  lemma FirstEntry(e: Entry, rest: seq<Entry>)
    ensures FilesIn([e] + rest) == FilesOf(e) + FilesIn(rest)
    ensures InHand(Scanning([e] + rest)) == FilesIn([e] + rest)
  {
    assert ([e] + rest)[1..] == rest;
  }

  lemma EntryLeaves(s: Scan, i: nat, e: Entry, rest: seq<Entry>)
    requires i < |s.tasks| && !s.q.closed
    ensures var s' := EntryStep(s, i, e, rest);
      && s'.tasks == s.tasks[i := s'.tasks[i]] && s'.reader == s.reader
      && s'.emitted == (if e.File? then s.emitted + multiset{e.path} else s.emitted)
      && s'.q.dirs == (if e.Sub? then s.q.dirs + [e.dir] else s.q.dirs)
      && InHand(s'.tasks[i]) == FilesIn(rest)
  {
    hide FilesIn;
  }

  lemma EntryBalance(s: Scan, s': Scan, e: Entry, rest: seq<Entry>)
    requires !s.q.closed
    requires s'.emitted == if e.File? then s.emitted + multiset{e.path} else s.emitted
    requires s'.q.dirs == if e.Sub? then s.q.dirs + [e.dir] else s.q.dirs
    ensures s'.emitted + FilesBelow(s'.q.dirs) + FilesIn(rest) == s.emitted + FilesBelow(s.q.dirs) + (FilesOf(e) + FilesIn(rest))
  {
    if e.Sub? { BelowAppend(s.q.dirs, e.dir); }
    assert FilesOf(e) == match e case File(p) => multiset{p} case Sub(d) => Files(d) case _ => multiset{};
    hide FilesBelow, FilesIn, FilesOf, Files;
    var m, b, f, r := s.emitted, FilesBelow(s.q.dirs), FilesOf(e), FilesIn(rest);
    assert m + f + b + r == m + b + (f + r);
    assert m + (b + f) + r == m + b + (f + r);
  }

  lemma SameHands(s: Scan, s': Scan)
    requires InHands(s'.tasks) == InHands(s.tasks) && s'.reader == s.reader && s'.q == s.q && s'.emitted == s.emitted
    ensures Everything(s') == Everything(s)
  {}

  lemma HandOverFiles(s: Scan, i: nat, p: Phase, k: nat)
    requires i < |s.tasks| && InHand(p) == InHand(s.tasks[i])
    ensures Everything(NotifyOne(s.(tasks := s.tasks[i := p]), k)) == Everything(s)
    ensures Everything(NotifyWaiters(s.(tasks := s.tasks[i := p]))) == Everything(s)
    ensures Everything(s.(tasks := s.tasks[i := p])) == Everything(s)
  {
    var t := s.(tasks := s.tasks[i := p]);
    hide Everything, InHand;
    PhaseFiles(s, t, i, p);
    NotifyOneCount(t, k);
    NotifyWaitersCount(t);
    SameHands(t, NotifyOne(t, k));
    SameHands(t, NotifyWaiters(t));
  }

  lemma CountOffFiles(s: Scan, i: nat)
    requires i < |s.tasks| && s.tasks[i] == Scanning([])
    ensures Everything(CountOffStep(s, i)) == Everything(s)
  {
    PhaseFiles(s, CountOffStep(s, i), i, CountOffStep(s, i).tasks[i]);
    hide Everything;
  }

  lemma TaskFiles(s: Scan, i: nat, k: nat)
    requires CountInv(s) && Clean(s) && i < |s.tasks| && !s.tasks[i].Waiting? && !s.tasks[i].Exited?
    ensures Everything(TaskStep(s, i, k)) == Everything(s)
  {
    assert !s.q.closed;
    hide CountInv, Everything, LookStep, EntryStep, CountOffStep, PollStep, FilesIn, NotifyOne, NotifyWaiters;
    match s.tasks[i] {
      case AtTop => LookFiles(s, i);
      case Created(epoch) => PollFiles(s, i, epoch);
      case Scanning(rest) =>
        if rest == [] { CountOffFiles(s, i); }
        else { assert [rest[0]] + rest[1..] == rest; EntryFiles(s, i, rest[0], rest[1..]); }
      case Pushing(rest) => HandOverFiles(s, i, Scanning(rest), k);
      case Finishing(wake) => HandOverFiles(s, i, AtTop, k);
    }
  }

  lemma PollFiles(s: Scan, i: nat, epoch: nat)
    requires i < |s.tasks| && s.tasks[i].Created?
    ensures Everything(PollStep(s, i, epoch)) == Everything(s)
  {
    PhaseFiles(s, PollStep(s, i, epoch), i, PollStep(s, i, epoch).tasks[i]);
    hide Everything;
  }

  // --------------------------------------------------------------------- runs

  lemma {:induction false} AllAtTop(n: nat)
    ensures var tasks := seq(n, _ => AtTop); CountWorking(tasks) == 0 && InHands(tasks) == multiset{}
  {
    if n > 0 {
      assert seq(n, _ => AtTop)[1..] == seq(n - 1, _ => AtTop);
      AllAtTop(n - 1);
    }
  }

  lemma BeginInv(lines: seq<Line>, scanners: nat, capacity: nat)
    ensures ScanInv(Begin(lines, scanners, capacity), FilesListed(lines)) && Clean(Begin(lines, scanners, capacity))
  {
    AllAtTop(if scanners == 0 then 1 else scanners);
  }

  /** One step, as long as nothing goes wrong. */
  lemma StepInv(s: Scan, step: Step, total: multiset<string>)
    requires ScanInv(s, total) && Clean(s) && Enabled(s, step) && Routine(step)
    ensures ScanInv(Apply(s, step), total) && Clean(Apply(s, step))
  {
    hide CountInv, WakeInv, Everything;
    match step {
      case ReaderMoves(k) =>
        ReaderCount(s, k);
        ReaderWake(s, k);
        ReaderFiles(s, k);
      case TaskMoves(i, k) =>
        TaskCount(s, i, k);
        TaskWake(s, i, k);
        TaskFiles(s, i, k);
        TaskSlots(s, i, k);
      case Fetched(n) => FetchedInv(s, n);
    }
  }

  // Workers only free slots of the file queue.
  lemma FetchedInv(s: Scan, n: nat)
    requires CountInv(s) && WakeInv(s) && n <= s.buffered
    ensures var s' := s.(room := s.room + n, buffered := s.buffered - n);
      CountInv(s') && WakeInv(s') && Everything(s') == Everything(s)
  {
    var s' := s.(room := s.room + n, buffered := s.buffered - n);
    hide CountWorking, InHands, FilesBelow, Unread;
    assert WakeComing(s') <==> WakeComing(s);
    if AnyActive(s) { assert AnyActive(s'); }
  }

  // A slot of the file queue is free or holds a file: the queue never loses its capacity.
  lemma TaskSlots(s: Scan, i: nat, k: nat)
    requires i < |s.tasks| && s.room + s.buffered >= 1
    ensures TaskStep(s, i, k).room + TaskStep(s, i, k).buffered >= 1
  {}

  ghost predicate IsRun(states: seq<Scan>, steps: seq<Step>) {
    && |states| == |steps| + 1
    && forall i | 0 <= i < |steps| :: Enabled(states[i], steps[i]) && states[i + 1] == Apply(states[i], steps[i])
  }

  lemma TroubleStays(s: Scan, step: Step)
    requires Enabled(s, step) && !Clean(s)
    ensures !Clean(Apply(s, step))
  {}

  lemma CleanStep(s: Scan, step: Step)
    requires Enabled(s, step) && Clean(Apply(s, step))
    ensures Routine(step)
  {}

  /** The invariant holds in every state of every run that is still clean there. */
  lemma {:induction false} RunInv(lines: seq<Line>, scanners: nat, capacity: nat, states: seq<Scan>, steps: seq<Step>, i: nat)
    requires IsRun(states, steps) && states[0] == Begin(lines, scanners, capacity) && i < |states| && Clean(states[i])
    ensures ScanInv(states[i], FilesListed(lines))
  {
    hide ScanInv, Apply, Enabled, FilesListed, Begin;
    if i == 0 {
      BeginInv(lines, scanners, capacity);
    } else {
      if !Clean(states[i - 1]) { TroubleStays(states[i - 1], steps[i - 1]); }
      RunInv(lines, scanners, capacity, states, steps, i - 1);
      CleanStep(states[i - 1], steps[i - 1]);
      StepInv(states[i - 1], steps[i - 1], FilesListed(lines));
    }
  }

  lemma {:induction false} NothingInHand(tasks: seq<Phase>)
    requires forall i | 0 <= i < |tasks| :: tasks[i].Exited?
    ensures InHands(tasks) == multiset{} && CountWorking(tasks) == 0
  {
    if tasks != [] { NothingInHand(tasks[1..]); }
  }

  /**
   Termination detection is right: when a pass has returned without an error and
   without being cancelled, every listed directory has been read to the bottom
   and exactly the regular files found there, with multiplicity, were emitted.
   */
  lemma CompleteOnReturn(lines: seq<Line>, scanners: nat, capacity: nat, states: seq<Scan>, steps: seq<Step>, i: nat)
    requires IsRun(states, steps) && states[0] == Begin(lines, scanners, capacity) && i < |states|
    requires Clean(states[i]) && Returned(states[i])
    ensures states[i].emitted == FilesListed(lines)
  {
    RunInv(lines, scanners, capacity, states, steps, i);
    var s := states[i];
    NothingInHand(s.tasks);
    assert s.tasks[0].Exited?;
    assert s.q.dirs == [];
  }

  /**
   No wake-up is lost: in no reachable state is there work queued, or the pass
   over, while every scanner still alive is asleep and nobody is on the way to
   wake one.
   */
  lemma NoLostWakeup(lines: seq<Line>, scanners: nat, capacity: nat, states: seq<Scan>, steps: seq<Step>, i: nat)
    requires IsRun(states, steps) && states[0] == Begin(lines, scanners, capacity) && i < |states| && Clean(states[i])
    requires forall j | 0 <= j < |states[i].tasks| :: states[i].tasks[j].Waiting? || states[i].tasks[j].Exited?
    requires exists j :: 0 <= j < |states[i].tasks| && states[i].tasks[j].Waiting?
    requires !states[i].reader.Announcing? && states[i].reader != Ending(true)
    ensures states[i].q.dirs == [] && !Over(states[i].q)
  {
    RunInv(lines, scanners, capacity, states, steps, i);
    var s := states[i];
    var j :| 0 <= j < |s.tasks| && s.tasks[j].Waiting?;
    assert !AnyActive(s);
    assert !WakeComing(s);
  }

  lemma {:induction false} NobodyWorks(tasks: seq<Phase>)
    requires forall i | 0 <= i < |tasks| :: tasks[i].Waiting? || tasks[i].Exited?
    ensures CountWorking(tasks) == 0
  {
    if tasks != [] { NobodyWorks(tasks[1..]); }
  }

  lemma Waker(s: Scan) returns (k: nat)
    ensures MayWake(s, k)
  {
    if i :| 0 <= i < |s.tasks| && s.tasks[i].Waiting? { k := i; } else { k := 0; }
  }

  // Whoever can move while the pass has not returned.
  lemma SomebodyMoves(s: Scan, total: multiset<string>) returns (step: Step)
    requires ScanInv(s, total) && !Returned(s)
    ensures Routine(step) && Enabled(s, step)
  {
    var k := Waker(s);
    if !s.reader.ReaderExited? {
      step := ReaderMoves(k);
    } else if j :| 0 <= j < |s.tasks| && !s.tasks[j].Waiting? && !s.tasks[j].Exited? {
      step := if Blocked(s, s.tasks[j]) then Fetched(1) else TaskMoves(j, k);
    } else {
      step := Cancel;
      NobodyWorks(s.tasks);
      NobodyIsUp(s);
      assert false;
    }
  }

  lemma NobodyIsUp(s: Scan)
    requires forall j | 0 <= j < |s.tasks| :: s.tasks[j].Waiting? || s.tasks[j].Exited?
    ensures !AnyActive(s) && (WakeComing(s) ==> s.reader == Ending(true))
  {}

  /**
   A clean pass never gets stuck: until it has returned somebody can move, and when
   every scanner waits for room in a full file queue that somebody is a fetching worker.
   */
  lemma NeverStuck(lines: seq<Line>, scanners: nat, capacity: nat, states: seq<Scan>, steps: seq<Step>, i: nat)
    requires IsRun(states, steps) && states[0] == Begin(lines, scanners, capacity) && i < |states| && Clean(states[i])
    ensures !Stuck(states[i])
  {
    RunInv(lines, scanners, capacity, states, steps, i);
    hide ScanInv, Enabled, Returned;
    if !Returned(states[i]) { var step := SomebodyMoves(states[i], FilesListed(lines)); }
  }

  // ------------------------------------------------------------- it comes to an end

  // Work still ahead, weighed so that every step makes it smaller.
  function CostDir(d: Dir, n: nat): nat
    decreases d
  {
    CostEntries(d.entries, n) + 2 * n + 6
  }

  function CostEntries(es: seq<Entry>, n: nat): nat
    decreases es
  {
    if es == [] then 0 else CostEntry(es[0], n) + CostEntries(es[1..], n)
  }

  function CostEntry(e: Entry, n: nat): nat
    decreases e
  {
    match e
    case Sub(d) => CostDir(d, n) + 4
    case File(_) => 2
    case _ => 1
  }

  function CostDirs(ds: seq<Dir>, n: nat): nat {
    if ds == [] then 0 else CostDir(ds[0], n) + CostDirs(ds[1..], n)
  }

  function CostLines(lines: seq<Line>, n: nat): nat {
    if lines == [] then 0
    else (match lines[0] case Comment => 1 case Listed(d) => CostDir(d, n) + 4) + CostLines(lines[1..], n)
  }

  function CostReader(r: Reader, n: nat): nat {
    match r
    case Reading(lines) => CostLines(lines, n) + 2 * n + 3
    case Announcing(lines) => CostLines(lines, n) + 2 * n + 6
    case Ending(wake) => if wake then 2 * n + 2 else 1
    case ReaderExited => 0
  }

  function CostPhase(p: Phase, epoch: nat, n: nat): nat {
    match p
    case AtTop => 3
    case Created(e) => if e == epoch then 2 else 4
    case Waiting => 1
    case Scanning(rest) => CostEntries(rest, n) + 2 * n + 7
    case Pushing(rest) => CostEntries(rest, n) + 2 * n + 10
    case Finishing(wake) => if wake then 2 * n + 5 else 4
    case Exited => 0
  }

  function CostTasks(tasks: seq<Phase>, epoch: nat, n: nat): nat {
    if tasks == [] then 0 else CostPhase(tasks[0], epoch, n) + CostTasks(tasks[1..], epoch, n)
  }

  function Cost(s: Scan): nat {
    var n := |s.tasks|;
    CostDirs(s.q.dirs, n) + CostReader(s.reader, n) + CostTasks(s.tasks, s.epoch, n)
    + (if s.permit then 2 else 0) + s.buffered
  }

  lemma {:induction false} CostUpdate(tasks: seq<Phase>, epoch: nat, n: nat, i: nat, p: Phase)
    requires i < |tasks|
    ensures CostTasks(tasks[i := p], epoch, n) + CostPhase(tasks[i], epoch, n)
         == CostTasks(tasks, epoch, n) + CostPhase(p, epoch, n)
    decreases i
  {
    if i > 0 {
      CostUpdate(tasks[1..], epoch, n, i - 1, p);
      assert tasks[i := p][1..] == tasks[1..][i - 1 := p];
    } else {
      assert tasks[0 := p][1..] == tasks[1..];
    }
  }

  lemma {:induction false} CostWakeAll(tasks: seq<Phase>, epoch: nat, n: nat)
    ensures CostTasks(WakeAll(tasks), epoch + 1, n) <= CostTasks(tasks, epoch, n) + 2 * |tasks|
  {
    if tasks != [] {
      assert WakeAll(tasks)[1..] == WakeAll(tasks[1..]);
      CostWakeAll(tasks[1..], epoch, n);
    }
  }

  lemma {:induction false} CostAppend(ds: seq<Dir>, d: Dir, n: nat)
    ensures CostDirs(ds + [d], n) == CostDirs(ds, n) + CostDir(d, n)
  {
    if ds == [] {
      assert [d][1..] == [];
    } else {
      assert (ds + [d])[1..] == ds[1..] + [d];
      CostAppend(ds[1..], d, n);
    }
  }

  lemma NotifyOneCost(s: Scan, k: nat)
    ensures |NotifyOne(s, k).tasks| == |s.tasks| && Cost(NotifyOne(s, k)) <= Cost(s) + 2
  {
    if k < |s.tasks| && s.tasks[k].Waiting? { CostUpdate(s.tasks, s.epoch, |s.tasks|, k, AtTop); }
  }

  lemma ReaderGetsCloser(s: Scan, k: nat)
    requires CountInv(s) && Clean(s) && !s.reader.ReaderExited?
    ensures Cost(ReaderStep(s, k)) < Cost(s)
  {
    var n := |s.tasks|;
    match s.reader {
      case Reading(lines) =>
        if lines != [] && lines[0].Listed? { CostAppend(s.q.dirs, lines[0].dir, n); }
      case Announcing(lines) => NotifyOneCost(s, k);
      case Ending(wake) => CostWakeAll(s.tasks, s.epoch, n);
    }
  }

  // The cost of one task's move, its share of the total replaced.
  lemma PhaseCost(s: Scan, s': Scan, i: nat, p: Phase)
    requires i < |s.tasks| && s'.tasks == s.tasks[i := p] && s'.epoch == s.epoch && s'.reader == s.reader
    ensures var n := |s.tasks|;
      Cost(s') + CostPhase(s.tasks[i], s.epoch, n) + CostDirs(s.q.dirs, n) + (if s.permit then 2 else 0) + s.buffered
      == Cost(s) + CostPhase(p, s.epoch, n) + CostDirs(s'.q.dirs, n) + (if s'.permit then 2 else 0) + s'.buffered
  {
    CostUpdate(s.tasks, s.epoch, |s.tasks|, i, p);
    hide CostTasks, CostDirs, CostPhase, CostReader;
  }

  lemma LookCost(s: Scan, i: nat)
    requires i < |s.tasks| && s.tasks[i].AtTop?
    ensures Cost(LookStep(s, i)) < Cost(s)
  {
    var s' := LookStep(s, i);
    var n := |s.tasks|;
    PhaseCost(s, s', i, s'.tasks[i]);
    if s'.tasks[i].Scanning? {
      assert CostDirs(s.q.dirs, n) == CostDir(s.q.dirs[0], n) + CostDirs(s'.q.dirs, n);
    }
    hide Cost, CostDirs, CostEntries;
  }

  lemma EntryCost(s: Scan, i: nat, e: Entry, rest: seq<Entry>)
    requires i < |s.tasks| && s.tasks[i] == Scanning([e] + rest) && !s.q.closed
    ensures Cost(EntryStep(s, i, e, rest)) < Cost(s)
  {
    var s' := EntryStep(s, i, e, rest);
    var n := |s.tasks|;
    assert ([e] + rest)[1..] == rest;
    assert CostEntries([e] + rest, n) == CostEntry(e, n) + CostEntries(rest, n);
    if e.Sub? { CostAppend(s.q.dirs, e.dir, n); }
    PhaseCost(s, s', i, s'.tasks[i]);
    hide Cost, CostDirs, CostEntries;
  }

  lemma TaskGetsCloser(s: Scan, i: nat, k: nat)
    requires CountInv(s) && Clean(s) && i < |s.tasks| && !s.tasks[i].Waiting? && !s.tasks[i].Exited?
    ensures Cost(TaskStep(s, i, k)) < Cost(s)
  {
    var n := |s.tasks|;
    var s' := TaskStep(s, i, k);
    assert !s.q.closed;
    hide CountInv, Cost, LookStep, EntryStep, CostEntries, CostDirs;
    match s.tasks[i] {
      case AtTop => LookCost(s, i);
      case Created(_) => PhaseCost(s, s', i, s'.tasks[i]);
      case Scanning(rest) =>
        if rest == [] { PhaseCost(s, s', i, s'.tasks[i]); }
        else { assert [rest[0]] + rest[1..] == rest; EntryCost(s, i, rest[0], rest[1..]); }
      case Pushing(rest) =>
        var t := s.(tasks := s.tasks[i := Scanning(rest)]);
        PhaseCost(s, t, i, Scanning(rest));
        NotifyOneCost(t, k);
      case Finishing(wake) =>
        var t := s.(tasks := s.tasks[i := AtTop]);
        PhaseCost(s, t, i, AtTop);
        NotifyWaitersCost(t);
    }
  }

  lemma NotifyWaitersCost(s: Scan)
    ensures Cost(NotifyWaiters(s)) <= Cost(s) + 2 * |s.tasks|
  {
    CostWakeAll(s.tasks, s.epoch, |s.tasks|);
  }

  lemma FetchedCost(s: Scan, n: nat)
    requires 0 < n <= s.buffered
    ensures Cost(s.(room := s.room + n, buffered := s.buffered - n)) < Cost(s)
  {
    hide CostDirs, CostTasks, CostReader;
  }

  lemma StepGetsCloser(s: Scan, step: Step, total: multiset<string>)
    requires ScanInv(s, total) && Clean(s) && Enabled(s, step) && Routine(step)
    ensures Cost(Apply(s, step)) < Cost(s)
  {
    hide Cost, CountInv, WakeInv, Everything;
    match step {
      case ReaderMoves(k) => ReaderGetsCloser(s, k);
      case TaskMoves(i, k) => TaskGetsCloser(s, i, k);
      case Fetched(n) => FetchedCost(s, n);
    }
  }

  /**
   Every pass ends: a run of clean steps is no longer than the initial cost, and
   (NeverStuck) it can only stop by returning, so whatever the scheduler does the
   pass returns with exactly the listed files, as long as workers go on fetching from a
   full file queue.
   */
  lemma {:induction false} EveryPassEnds(lines: seq<Line>, scanners: nat, capacity: nat, states: seq<Scan>, steps: seq<Step>)
    requires IsRun(states, steps) && states[0] == Begin(lines, scanners, capacity)
    requires Clean(states[|steps|])
    ensures |steps| + Cost(states[|steps|]) <= Cost(Begin(lines, scanners, capacity))
    ensures !Stuck(states[|steps|])
    decreases |steps|
  {
    NeverStuck(lines, scanners, capacity, states, steps, |steps|);
    hide Cost, Stuck, Apply, Enabled, Begin, ScanInv, FilesListed;
    var n := |steps|;
    if n > 0 {
      var before, last := states[n - 1], steps[n - 1];
      if !Clean(before) { TroubleStays(before, last); }
      assert IsRun(states[..n], steps[..n - 1]);
      EveryPassEnds(lines, scanners, capacity, states[..n], steps[..n - 1]);
      RunInv(lines, scanners, capacity, states, steps, n - 1);
      CleanStep(before, last);
      StepGetsCloser(before, last, FilesListed(lines));
    }
  }

  // -------------------------------------------------------------- after a cancel

  lemma CancelledStep(s: Scan, step: Step)
    requires Enabled(s, step) && s.cancel
    ensures var s' := Apply(s, step); s'.cancel && s'.emitted == s.emitted && s'.q.dirs == s.q.dirs
  {}

  /** A cancelled pass stands still: no directory is queued or taken any more, and no file emitted. */
  lemma {:induction false} CancelledPassStandsStill(states: seq<Scan>, steps: seq<Step>, i: nat, k: nat)
    requires IsRun(states, steps) && i <= k < |states| && states[i].cancel
    ensures states[k].cancel && states[k].emitted == states[i].emitted && states[k].q.dirs == states[i].q.dirs
  {
    hide Enabled, Apply;
    if i < k {
      CancelledPassStandsStill(states, steps, i, k - 1);
      CancelledStep(states[k - 1], steps[k - 1]);
    }
  }
}
