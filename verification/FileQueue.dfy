/**
 The bounded file queue (crates/cvd-master/src/manifest/queue.rs) between the
 manifest producers and the workers that call FetchFileBatch.

 The queue is a mutex-protected deque plus a semaphore counting free slots, and
 the two are never updated together: a push takes its permit before it appends,
 a drain returns its permits after it has taken the items.
 */
module FileQueue {
  import opened Types

  datatype FileEntry = FileEntry(fsPath: string, s3Key: string)

  datatype Queue = Queue(items: seq<FileEntry>, free: nat, closed: bool, capacity: nat)

  function NewQueue(capacity: nat): Queue {
    var cap := if capacity < 1 then 1 else capacity;
    Queue([], cap, false, cap)
  }

  datatype Permit = Acquired | Blocked | QueueClosed

  function Acquire(q: Queue): (Queue, Permit) {
    if q.closed then (q, QueueClosed)
    else if q.free == 0 then (q, Blocked)
    else (q.(free := q.free - 1), Acquired)
  }

  function Append(q: Queue, e: FileEntry): Queue { q.(items := q.items + [e]) }

  function MinNat(a: nat, b: nat): nat { if a < b then a else b }

  function Take(q: Queue, n: nat): (Queue, seq<FileEntry>) {
    var k := MinNat(n, |q.items|);
    (q.(items := q.items[k..]), q.items[..k])
  }

  lemma TakeSplits(q: Queue, n: nat)
    ensures var (q', out) := Take(q, n);
      q.items == out + q'.items && out == q.items[..MinNat(n, |q.items|)] && q' == q.(items := q'.items)
  {}

  function Return(q: Queue, k: nat): Queue { q.(free := q.free + k) }

  class BoundedQueue {
    var items: seq<FileEntry>
    var free: nat
    var closed: bool
    const capacity: nat

    ghost function State(): Queue
      reads this
    {
      Queue(items, free, closed, capacity)
    }

    constructor (wanted: nat)
      ensures State() == NewQueue(wanted)
    {
      var cap := if wanted < 1 then 1 else wanted;
      items, free, closed, capacity := [], cap, false, cap;
    }

    /** One attempt of the semaphore; a blocked `push` retries it when permits come back. */
    method TryAcquire() returns (permit: Permit)
      modifies this
      ensures (State(), permit) == Acquire(old(State()))
    {
      if closed { return QueueClosed; }
      if free == 0 { return Blocked; }
      free := free - 1;
      permit := Acquired;
    }

    method PushBack(e: FileEntry)
      modifies this
      ensures State() == Append(old(State()), e)
    {
      items := items + [e];
    }

    /** The locked part of `drain_up_to`. */
    method TakeUpTo(n: nat) returns (out: seq<FileEntry>)
      modifies this
      ensures (State(), out) == Take(old(State()), n)
    {
      out := [];
      var take := if n < |items| then n else |items|;
      ghost var before := items;
      for i := 0 to take
        invariant items == before[i..] && out == before[..i]
        invariant unchanged(`free) && unchanged(`closed)
      {
        out := out + [items[0]];
        items := items[1..];
      }
    }

    method AddPermits(k: nat)
      modifies this
      ensures State() == Return(old(State()), k)
    {
      free := free + k;
    }

    /** All of `drain_up_to`, when nothing else runs in between. */
    method DrainUpTo(n: nat) returns (out: seq<FileEntry>)
      modifies this
      ensures out == old(items)[..MinNat(n, |old(items)|)] && old(items) == out + items
      ensures free == old(free) + |out| && closed == old(closed)
    {
      TakeSplits(State(), n);
      ghost var (q, taken) := Take(State(), n);
      hide Take, MinNat;
      out := TakeUpTo(n);
      assert State() == q && out == taken;
      if |out| > 0 { AddPermits(|out|); }
    }

    method Close()
      modifies this
      ensures State() == old(State()).(closed := true)
    {
      closed := true;
    }
  }

  // ------------------------------------------------- producers and workers at work

  const DEFAULT_BATCH := 1000
  const MAX_BATCH := 10_000

  function BatchSize(requested: int): nat {
    if requested <= 0 then DEFAULT_BATCH else if requested > MAX_BATCH then MAX_BATCH else requested
  }

  // A producer: what it still has to push, and an entry whose permit it holds.
  datatype Producer = Producer(todo: seq<FileEntry>, holding: Option<FileEntry>)

  // A FetchFileBatch call after it has let go of the jobs lock.
  datatype Call =
    | Fresh(size: nat)
    | Took(batch: seq<FileEntry>)       // permits still to be returned if it is not empty
    | LoadedDone(done: bool)            // nothing taken, `manifest_done` has been read
    | Answered(files: seq<FileEntry>, hasMore: bool)

  datatype System = System(
    q: Queue,
    producers: seq<Producer>,
    calls: map<int, Call>,
    cancel: bool,
    failed: bool,                       // a push met the closed queue: the pass ends with an error
    done: bool,
    plan: seq<seq<FileEntry>>,          // what one pass pushes, producer by producer
    loops: bool,                        // `loop_files`
    // history: passes begun, everything appended, every non-empty batch taken, what a producer gave up
    passes: nat,
    pushed: seq<FileEntry>,
    batches: seq<seq<FileEntry>>,
    dropped: multiset<FileEntry>)

  function Producers(plan: seq<seq<FileEntry>>): seq<Producer> {
    seq(|plan|, i requires 0 <= i < |plan| => Producer(plan[i], None))
  }

  function Begin(capacity: nat, plan: seq<seq<FileEntry>>, loops: bool): System {
    System(NewQueue(capacity), Producers(plan), map[], false, false, false, plan, loops, 1, [], [], multiset{})
  }

  datatype Step =
    | GetPermit(p: nat)
    | Deposit(p: nat)
    | GiveUp(p: nat)               // the producer sees the cancel flag and returns as if it had finished
    | PushFails(p: nat)            // its push meets the closed queue and it returns the error
    | PassEnds                     // every producer has returned without error: `manifest_done` is set
    | PassRestarts                 // the same with `loop_files`: the manifest is read again
    | Cancel                       // the job ended: cancel flag set, queue closed
    | Call(id: int, requested: int) // the jobs lock lets it through: the job is running, so not cancelled
    | Drain(id: int)
    | GiveBack(id: int)
    | LoadDone(id: int)
    | CheckEmpty(id: int)

  predicate Idle(p: Producer) { p.todo == [] && p.holding.None? }

  predicate AllIdle(ps: seq<Producer>) { forall p | 0 <= p < |ps| :: Idle(ps[p]) }

  predicate Enabled(s: System, step: Step) {
    match step
    case GetPermit(p) =>
      p < |s.producers| && s.producers[p].todo != [] && s.producers[p].holding.None? && Acquire(s.q).1.Acquired?
    case Deposit(p) => p < |s.producers| && s.producers[p].holding.Some?
    case GiveUp(p) => p < |s.producers| && s.producers[p].holding.None? && s.cancel
    case PushFails(p) => p < |s.producers| && s.producers[p].todo != [] && s.producers[p].holding.None? && s.q.closed
    case PassEnds => AllIdle(s.producers) && !s.failed && !s.loops
    case PassRestarts => AllIdle(s.producers) && !s.failed && s.loops && !s.cancel
    case Cancel => true
    case Call(id, _) => id !in s.calls && !s.cancel
    case Drain(id) => id in s.calls && s.calls[id].Fresh?
    case GiveBack(id) => id in s.calls && s.calls[id].Took? && s.calls[id].batch != []
    case LoadDone(id) => id in s.calls && s.calls[id].Took? && s.calls[id].batch == []
    case CheckEmpty(id) => id in s.calls && s.calls[id].LoadedDone?
  }

  function Apply(s: System, step: Step): System
    requires Enabled(s, step)
  {
    match step
    case GetPermit(p) =>
      var pr := s.producers[p];
      s.(q := Acquire(s.q).0, producers := s.producers[p := Producer(pr.todo[1..], Some(pr.todo[0]))])
    case Deposit(p) =>
      var e := s.producers[p].holding.value;
      s.(q := Append(s.q, e), pushed := s.pushed + [e], producers := s.producers[p := s.producers[p].(holding := None)])
    case GiveUp(p) =>
      s.(dropped := s.dropped + multiset(s.producers[p].todo), producers := s.producers[p := Producer([], None)])
    case PushFails(p) =>
      s.(dropped := s.dropped + multiset(s.producers[p].todo), producers := s.producers[p := Producer([], None)], failed := true)
    case PassEnds => s.(done := true)
    case PassRestarts => s.(producers := Producers(s.plan), passes := s.passes + 1)
    case Cancel => s.(cancel := true, q := s.q.(closed := true))
    case Call(id, requested) => s.(calls := s.calls[id := Fresh(BatchSize(requested))])
    case Drain(id) =>
      var (q, out) := Take(s.q, s.calls[id].size);
      s.(q := q, calls := s.calls[id := Took(out)], batches := if out == [] then s.batches else s.batches + [out])
    case GiveBack(id) =>
      var batch := s.calls[id].batch;
      s.(q := Return(s.q, |batch|), calls := s.calls[id := Answered(batch, true)])
    case LoadDone(id) => s.(calls := s.calls[id := LoadedDone(s.done)])
    case CheckEmpty(id) =>
      s.(calls := s.calls[id := Answered([], !(s.calls[id].done && s.q.items == []))])
  }

  ghost predicate IsRun(states: seq<System>, steps: seq<Step>) {
    && |states| == |steps| + 1
    && forall i | 0 <= i < |steps| :: Enabled(states[i], steps[i]) && states[i + 1] == Apply(states[i], steps[i])
  }

  // ------------------------------------------------------------------ accounting

  ghost function Flatten(batches: seq<seq<FileEntry>>): seq<FileEntry> {
    if batches == [] then [] else Flatten(batches[..|batches| - 1]) + batches[|batches| - 1]
  }

  ghost function AllOf(plan: seq<seq<FileEntry>>): multiset<FileEntry> {
    if plan == [] then multiset{} else multiset(plan[0]) + AllOf(plan[1..])
  }

  ghost function Held(p: Producer): multiset<FileEntry> { if p.holding.Some? then multiset{p.holding.value} else multiset{} }

  // What a producer still has to push.
  ghost function Share(p: Producer): multiset<FileEntry> { multiset(p.todo) + Held(p) }

  ghost function Outstanding(ps: seq<Producer>): multiset<FileEntry> {
    if ps == [] then multiset{} else Share(ps[0]) + Outstanding(ps[1..])
  }

  function HeldBy(p: Producer): nat { if p.holding.Some? then 1 else 0 }

  function CountHeld(ps: seq<Producer>): nat {
    if ps == [] then 0 else HeldBy(ps[0]) + CountHeld(ps[1..])
  }

  ghost function Weight(c: Call): nat { if c.Took? then |c.batch| else 0 }

  // Permits of batches taken but not yet returned.
  ghost function Unreturned<K>(calls: map<K, Call>): nat {
    if calls == map[] then 0 else
      var id :| id in calls;
      Weight(calls[id]) + Unreturned(calls - {id})
  }

  lemma {:induction false} UnreturnedRemove<K>(calls: map<K, Call>, id: K)
    requires id in calls
    ensures Unreturned(calls) == Weight(calls[id]) + Unreturned(calls - {id})
    decreases |calls|
  {
    var j :| j in calls && Unreturned(calls) == Weight(calls[j]) + Unreturned(calls - {j});
    if j != id {
      assert (calls - {j}) - {id} == (calls - {id}) - {j};
      UnreturnedRemove(calls - {j}, id);
      UnreturnedRemove(calls - {id}, j);
    }
  }

  lemma UnreturnedUpdate(calls: map<int, Call>, id: int, c: Call)
    ensures Unreturned(calls[id := c]) == Unreturned(calls) + Weight(c) - (if id in calls then Weight(calls[id]) else 0)
  {
    UnreturnedRemove(calls[id := c], id);
    if id in calls {
      UnreturnedRemove(calls, id);
      assert calls[id := c] - {id} == calls - {id};
    } else {
      assert calls[id := c] - {id} == calls;
    }
  }

  lemma {:induction false} HeldUpdate(ps: seq<Producer>, p: nat, pr: Producer)
    requires p < |ps|
    ensures CountHeld(ps[p := pr]) + HeldBy(ps[p]) == CountHeld(ps) + HeldBy(pr)
    decreases p
  {
    hide HeldBy;
    if p > 0 {
      HeldUpdate(ps[1..], p - 1, pr);
      assert ps[p := pr][1..] == ps[1..][p - 1 := pr];
    } else {
      assert ps[0 := pr][1..] == ps[1..];
    }
  }

  lemma {:induction false} OutstandingUpdate(ps: seq<Producer>, p: nat, pr: Producer)
    requires p < |ps|
    ensures Outstanding(ps[p := pr]) + Share(ps[p]) == Outstanding(ps) + Share(pr)
    decreases p
  {
    hide Share, Held;
    if p > 0 {
      OutstandingUpdate(ps[1..], p - 1, pr);
      assert ps[p := pr][1..] == ps[1..][p - 1 := pr];
      var h := Share(ps[0]);
      assert (h + Outstanding(ps[1..][p - 1 := pr])) + Share(ps[p]) == h + (Outstanding(ps[1..][p - 1 := pr]) + Share(ps[p]));
      assert (h + Outstanding(ps[1..])) + Share(pr) == h + (Outstanding(ps[1..]) + Share(pr));
    } else {
      assert ps[0 := pr][1..] == ps[1..];
      var r := Outstanding(ps[1..]);
      assert (Share(pr) + r) + Share(ps[0]) == (Share(ps[0]) + r) + Share(pr);
    }
  }

  // Slots: free, promised to a push, occupied, or taken and not yet returned.
  ghost predicate SlotsInv(s: System) {
    s.q.free + CountHeld(s.producers) + |s.q.items| + Unreturned(s.calls) == s.q.capacity
  }

  ghost function Times(n: nat, m: multiset<FileEntry>): multiset<FileEntry> {
    if n == 0 then multiset{} else m + Times(n - 1, m)
  }

  // Entries: handed out then buffered is exactly what was pushed, in order; the rest is still with a producer.
  ghost predicate EntriesInv(s: System, total: multiset<FileEntry>) {
    && Flatten(s.batches) + s.q.items == s.pushed
    && multiset(s.pushed) + Outstanding(s.producers) + s.dropped == total
  }

  ghost predicate DoneInv(s: System) {
    && (s.done ==> AllIdle(s.producers) && !s.failed && !s.loops)
    && (!s.loops ==> s.passes == 1)
    && (s.q.closed ==> s.cancel)
    && (forall id | id in s.calls && s.calls[id].LoadedDone? && s.calls[id].done :: s.done)
    // a call that was told "no more" had seen everything
    && (forall id | id in s.calls && s.calls[id].Answered? && !s.calls[id].hasMore :: s.done && s.q.items == [])
  }

  // What the passes begun so far had to push.
  ghost function Total(s: System): multiset<FileEntry> { Times(s.passes, AllOf(s.plan)) }

  ghost predicate Inv(s: System) { SlotsInv(s) && EntriesInv(s, Total(s)) && DoneInv(s) }

  lemma SlotsMoveAtProducer(s: System, s': System, p: nat)
    requires SlotsInv(s) && p < |s.producers| && |s'.producers| == |s.producers|
    requires s'.producers == s.producers[p := s'.producers[p]] && s'.calls == s.calls && s'.q.capacity == s.q.capacity
    requires s'.q.free + HeldBy(s'.producers[p]) + |s'.q.items| == s.q.free + HeldBy(s.producers[p]) + |s.q.items|
    ensures SlotsInv(s')
  {
    HeldUpdate(s.producers, p, s'.producers[p]);
  }

  lemma SlotsMoveAtCall(s: System, s': System, id: int)
    requires SlotsInv(s) && id in s'.calls && s'.calls == s.calls[id := s'.calls[id]]
    requires s'.producers == s.producers && s'.q.capacity == s.q.capacity
    requires s'.q.free + Weight(s'.calls[id]) + |s'.q.items|
          == s.q.free + (if id in s.calls then Weight(s.calls[id]) else 0) + |s.q.items|
    ensures SlotsInv(s')
  {
    UnreturnedUpdate(s.calls, id, s'.calls[id]);
  }

  lemma ProducerKeepsSlots(s: System, step: Step)
    requires SlotsInv(s) && Enabled(s, step)
    requires step.GetPermit? || step.Deposit? || step.GiveUp? || step.PushFails?
    ensures SlotsInv(Apply(s, step))
  {
    hide CountHeld, Unreturned, SlotsInv;
    SlotsMoveAtProducer(s, Apply(s, step), step.p);
  }

  lemma CallKeepsSlots(s: System, step: Step)
    requires SlotsInv(s) && Enabled(s, step)
    requires step.Call? || step.Drain? || step.GiveBack? || step.LoadDone? || step.CheckEmpty?
    ensures SlotsInv(Apply(s, step))
  {
    hide CountHeld, Unreturned, SlotsInv;
    SlotsMoveAtCall(s, Apply(s, step), step.id);
  }

  lemma RestartKeepsSlots(s: System)
    requires SlotsInv(s) && AllIdle(s.producers)
    ensures SlotsInv(s.(producers := Producers(s.plan), passes := s.passes + 1))
  {
    IdleHoldNothing(s.producers);
    BeginAccounts(s.plan);
    hide CountHeld, Unreturned;
  }

  lemma StepSlots(s: System, step: Step)
    requires SlotsInv(s) && Enabled(s, step)
    ensures SlotsInv(Apply(s, step))
  {
    hide CountHeld, Unreturned;
    match step {
      case GetPermit(_) => ProducerKeepsSlots(s, step);
      case Deposit(_) => ProducerKeepsSlots(s, step);
      case GiveUp(_) => ProducerKeepsSlots(s, step);
      case PushFails(_) => ProducerKeepsSlots(s, step);
      case PassRestarts => RestartKeepsSlots(s);
      case PassEnds =>
      case Cancel =>
      case _ => CallKeepsSlots(s, step);
    }
  }

  lemma FlattenAppend(batches: seq<seq<FileEntry>>, batch: seq<FileEntry>)
    ensures Flatten(batches + [batch]) == Flatten(batches) + batch
  {
    assert (batches + [batch])[..|batches|] == batches;
  }

  // A producer's share of the plan moves to the pushed or dropped entries.
  lemma ShareMoves(s: System, s': System, p: nat, total: multiset<FileEntry>)
    requires EntriesInv(s, total) && p < |s.producers| && |s'.producers| == |s.producers|
    requires s'.producers == s.producers[p := s'.producers[p]]
    requires multiset(s'.pushed) + s'.dropped + Share(s'.producers[p])
          == multiset(s.pushed) + s.dropped + Share(s.producers[p])
    ensures multiset(s'.pushed) + Outstanding(s'.producers) + s'.dropped == total
  {
    OutstandingUpdate(s.producers, p, s'.producers[p]);
    hide Outstanding, Held, Flatten;
    var a, a' := Share(s.producers[p]), Share(s'.producers[p]);
    var o, o' := Outstanding(s.producers), Outstanding(s'.producers);
    forall x ensures (multiset(s'.pushed) + o' + s'.dropped)[x] == total[x] {
      assert (o' + a)[x] == (o + a')[x];
      assert (multiset(s'.pushed) + s'.dropped + a')[x] == (multiset(s.pushed) + s.dropped + a)[x];
      assert (multiset(s.pushed) + o + s.dropped)[x] == total[x];
    }
  }

  lemma PermitKeepsEntries(s: System, p: nat, total: multiset<FileEntry>)
    requires EntriesInv(s, total) && Enabled(s, GetPermit(p))
    ensures EntriesInv(Apply(s, GetPermit(p)), total)
  {
    hide Outstanding, Flatten;
    var t := s.producers[p].todo;
    assert t == [t[0]] + t[1..];
    assert multiset(t) == multiset([t[0]]) + multiset(t[1..]);
    ShareMoves(s, Apply(s, GetPermit(p)), p, total);
  }

  lemma DepositKeepsEntries(s: System, p: nat, total: multiset<FileEntry>)
    requires EntriesInv(s, total) && Enabled(s, Deposit(p))
    ensures EntriesInv(Apply(s, Deposit(p)), total)
  {
    hide Outstanding, Flatten;
    var e, s' := s.producers[p].holding.value, Apply(s, Deposit(p));
    assert multiset(s.pushed + [e]) == multiset(s.pushed) + multiset{e};
    ShareMoves(s, s', p, total);
    assert Flatten(s.batches) + (s.q.items + [e]) == Flatten(s.batches) + s.q.items + [e];
  }

  lemma GiveUpKeepsEntries(s: System, step: Step, total: multiset<FileEntry>)
    requires EntriesInv(s, total) && Enabled(s, step) && (step.GiveUp? || step.PushFails?)
    ensures EntriesInv(Apply(s, step), total)
  {
    hide Outstanding, Flatten;
    var none: seq<FileEntry> := [];
    assert multiset(none) == multiset{};
    ShareMoves(s, Apply(s, step), step.p, total);
  }

  lemma DrainKeepsEntries(s: System, id: int, total: multiset<FileEntry>)
    requires EntriesInv(s, total) && Enabled(s, Drain(id))
    ensures EntriesInv(Apply(s, Drain(id)), total)
  {
    hide Outstanding, Flatten, Take;
    var (q, out) := Take(s.q, s.calls[id].size);
    TakeSplits(s.q, s.calls[id].size);
    FlattenAppend(s.batches, out);
    Regroup(Flatten(s.batches), out, q.items);
    if out == [] { assert Flatten(s.batches) + out == Flatten(s.batches); }
  }

  lemma Regroup(a: seq<FileEntry>, b: seq<FileEntry>, c: seq<FileEntry>)
    ensures a + (b + c) == a + b + c
  {}

  lemma RestartKeepsEntries(s: System)
    requires EntriesInv(s, Total(s)) && Enabled(s, PassRestarts)
    ensures EntriesInv(Apply(s, PassRestarts), Total(Apply(s, PassRestarts)))
  {
    IdleHoldNothing(s.producers);
    BeginAccounts(s.plan);
    var all := AllOf(s.plan);
    assert Total(Apply(s, PassRestarts)) == all + Total(s);
    hide Outstanding, Flatten, AllOf, Total, AllIdle;
    OneMorePass(multiset(s.pushed), all, s.dropped);
  }

  lemma OneMorePass(pushed: multiset<FileEntry>, all: multiset<FileEntry>, dropped: multiset<FileEntry>)
    ensures pushed + all + dropped == all + (pushed + multiset{} + dropped)
  {}

  lemma StepEntries(s: System, step: Step)
    requires EntriesInv(s, Total(s)) && Enabled(s, step)
    ensures EntriesInv(Apply(s, step), Total(Apply(s, step)))
  {
    hide Outstanding, Flatten, AllOf, Times;
    match step {
      case GetPermit(p) => PermitKeepsEntries(s, p, Total(s));
      case Deposit(p) => DepositKeepsEntries(s, p, Total(s));
      case GiveUp(_) => GiveUpKeepsEntries(s, step, Total(s));
      case PushFails(_) => GiveUpKeepsEntries(s, step, Total(s));
      case PassRestarts => RestartKeepsEntries(s);
      case Drain(id) => DrainKeepsEntries(s, id, Total(s));
      case _ =>
    }
  }

  lemma StepDone(s: System, step: Step)
    requires DoneInv(s) && Enabled(s, step)
    ensures DoneInv(Apply(s, step))
  {}

  lemma {:induction false} BeginAccounts(plan: seq<seq<FileEntry>>)
    ensures CountHeld(Producers(plan)) == 0 && Outstanding(Producers(plan)) == AllOf(plan)
  {
    if plan != [] {
      var ps := Producers(plan);
      assert ps[1..] == Producers(plan[1..]);
      BeginAccounts(plan[1..]);
    }
  }

  lemma {:induction false} IdleHoldNothing(ps: seq<Producer>)
    requires AllIdle(ps)
    ensures Outstanding(ps) == multiset{} && CountHeld(ps) == 0
  {
    if ps != [] {
      assert forall p | 0 <= p < |ps[1..]| :: ps[1..][p] == ps[p + 1];
      IdleHoldNothing(ps[1..]);
      assert Share(ps[0]) == multiset{};
    }
  }

  lemma BeginInv(capacity: nat, plan: seq<seq<FileEntry>>, loops: bool)
    ensures Inv(Begin(capacity, plan, loops))
  {
    var s := Begin(capacity, plan, loops);
    BeginAccounts(plan);
    hide CountHeld, Outstanding, AllOf;
    assert Unreturned(s.calls) == 0;
    var none: seq<FileEntry> := [];
    assert multiset(none) == multiset{};
    assert Times(1, AllOf(plan)) == AllOf(plan) + Times(0, AllOf(plan));
  }

  lemma StepInv(s: System, step: Step)
    requires Inv(s) && Enabled(s, step)
    ensures Inv(Apply(s, step)) && SameJob(s, Apply(s, step))
  {
    hide SlotsInv, EntriesInv, DoneInv, Apply, Enabled, Total;
    StepSlots(s, step);
    StepEntries(s, step);
    StepDone(s, step);
    StepSameJob(s, step);
  }

  // What no step changes.
  predicate SameJob(s: System, s': System) { s'.plan == s.plan && s'.loops == s.loops && s'.q.capacity == s.q.capacity }

  lemma StepSameJob(s: System, step: Step)
    requires Enabled(s, step)
    ensures SameJob(s, Apply(s, step))
  {}

  lemma StepAt(states: seq<System>, steps: seq<Step>, i: nat)
    requires IsRun(states, steps) && i + 1 < |states|
    ensures |states| == |steps| + 1 && Enabled(states[i], steps[i]) && states[i + 1] == Apply(states[i], steps[i])
  {
    hide Enabled, Apply;
  }

  lemma {:induction false} RunInv(capacity: nat, plan: seq<seq<FileEntry>>, loops: bool,
                                  states: seq<System>, steps: seq<Step>, i: nat)
    requires IsRun(states, steps) && i < |states| && states[0] == Begin(capacity, plan, loops)
    ensures Inv(states[i]) && SameJob(states[0], states[i])
  {
    hide *;
    if i == 0 {
      BeginInv(capacity, plan, loops);
      SameSelf(states[0]);
    } else {
      StepAt(states, steps, i - 1);
      RunInv(capacity, plan, loops, states, steps, i - 1);
      StepInv(states[i - 1], steps[i - 1]);
      SameOn(states[0], states[i - 1], states[i]);
    }
  }

  lemma SameSelf(s: System)
    ensures SameJob(s, s)
  {}

  lemma SameOn(s: System, t: System, u: System)
    requires SameJob(s, t) && SameJob(t, u)
    ensures SameJob(s, u)
  {}

  // --------------------------------------------------------------- what it promises

  /** The buffer never holds more than the capacity, and every slot is accounted for. */
  lemma NeverOverfull(capacity: nat, plan: seq<seq<FileEntry>>, loops: bool, states: seq<System>, steps: seq<Step>, i: nat)
    requires IsRun(states, steps) && i < |states| && states[0] == Begin(capacity, plan, loops)
    ensures |states[i].q.items| <= if capacity == 0 then 1 else capacity
    ensures states[i].q.free + CountHeld(states[i].producers) + |states[i].q.items| + Unreturned(states[i].calls)
         == if capacity == 0 then 1 else capacity
  {
    RunInv(capacity, plan, loops, states, steps, i);
  }

  /** Whoever drains, the batches put one after the other are what was pushed, in order: nothing twice, nothing lost. */
  lemma BatchesAreThePushes(capacity: nat, plan: seq<seq<FileEntry>>, loops: bool,
                            states: seq<System>, steps: seq<Step>, i: nat)
    requires IsRun(states, steps) && i < |states| && states[0] == Begin(capacity, plan, loops)
    ensures Flatten(states[i].batches) + states[i].q.items == states[i].pushed
  {
    RunInv(capacity, plan, loops, states, steps, i);
  }

  // The step leaves entries behind: a producer saw the cancel flag, or a closed queue, with some still to push.
  predicate Abandons(s: System, step: Step) {
    (step.GiveUp? || step.PushFails?) && step.p < |s.producers| && s.producers[step.p].todo != []
  }

  lemma StepDrops(s: System, step: Step)
    requires Enabled(s, step)
    ensures Apply(s, step).dropped == multiset{} <==> s.dropped == multiset{} && !Abandons(s, step)
    ensures Apply(s, step).failed <==> s.failed || step.PushFails?
  {
    if step.GiveUp? || step.PushFails? {
      var t := s.producers[step.p].todo;
      if t != [] { assert t[0] in multiset(t); } else { assert multiset(t) == multiset{}; }
    }
  }

  lemma {:induction false} DroppedIff(capacity: nat, plan: seq<seq<FileEntry>>, loops: bool,
                                      states: seq<System>, steps: seq<Step>, i: nat)
    requires IsRun(states, steps) && i < |states| && states[0] == Begin(capacity, plan, loops)
    ensures i <= |steps|
    ensures states[i].dropped == multiset{} <==> forall k | 0 <= k < i :: !Abandons(states[k], steps[k])
    ensures states[i].failed <==> exists k :: 0 <= k < i && steps[k].PushFails?
  {
    if i > 0 {
      hide Enabled, Apply, Abandons;
      StepAt(states, steps, i - 1);
      hide IsRun;
      DroppedIff(capacity, plan, loops, states, steps, i - 1);
      StepDrops(states[i - 1], steps[i - 1]);
    }
  }

  // A producer has looked at the cancel flag, found it set, and returned with entries still to push.
  predicate GivesUp(s: System, step: Step) { step.GiveUp? && Abandons(s, step) }

  /**
   A worker told `has_more = false` has, with all the others, been handed every
   entry of the manifest exactly once if and only if no producer came to see the
   cancel flag with entries still to push; a push that failed instead would have
   kept the answer from being given. Without a cancel that cannot have happened;
   and even then no entry was handed out twice.
   */
  lemma NoMoreMeansAllHandedOut(capacity: nat, plan: seq<seq<FileEntry>>, loops: bool,
                                states: seq<System>, steps: seq<Step>, i: nat, id: int)
    requires IsRun(states, steps) && i < |states| && states[0] == Begin(capacity, plan, loops)
    requires id in states[i].calls && states[i].calls[id].Answered? && !states[i].calls[id].hasMore
    ensures i <= |steps|
    ensures multiset(Flatten(states[i].batches)) == AllOf(plan) <==> forall k | 0 <= k < i :: !GivesUp(states[k], steps[k])
    ensures !states[i].cancel ==> forall k | 0 <= k < i :: !GivesUp(states[k], steps[k])
    ensures multiset(Flatten(states[i].batches)) <= AllOf(plan)
  {
    RunInv(capacity, plan, loops, states, steps, i);
    DroppedIff(capacity, plan, loops, states, steps, i);
    HandedOutPlusDropped(states[i], plan, id);
    forall k | 0 <= k < i ensures GivesUp(states[k], steps[k]) <==> Abandons(states[k], steps[k]) {
      assert !steps[k].PushFails?;
    }
    if !states[i].cancel {
      forall k | 0 <= k < i ensures !GivesUp(states[k], steps[k]) { CancelStays(states, steps, k, i); }
    }
    var h, dropped := multiset(Flatten(states[i].batches)), states[i].dropped;
    hide *;
    if h == AllOf(plan) { assert |h + dropped| == |h| + |dropped|; }
  }

  lemma HandedOutPlusDropped(s: System, plan: seq<seq<FileEntry>>, id: int)
    requires Inv(s) && s.plan == plan && id in s.calls && s.calls[id].Answered? && !s.calls[id].hasMore
    ensures multiset(Flatten(s.batches)) + s.dropped == AllOf(plan) && !s.failed
  {
    IdleHoldNothing(s.producers);
    hide Outstanding, AllOf;
    var h := Flatten(s.batches);
    hide Flatten;
    assert h + [] == h;
    assert multiset(h) + multiset{} + s.dropped == multiset(h) + s.dropped;
    assert Times(1, AllOf(plan)) == AllOf(plan) + Times(0, AllOf(plan));
  }

  lemma {:induction false} CancelStays(states: seq<System>, steps: seq<Step>, k: nat, i: nat)
    requires IsRun(states, steps) && k < i < |states| && !states[i].cancel
    ensures k < |steps| && !GivesUp(states[k], steps[k]) && !states[k].cancel
    decreases i - k
  {
    StepAt(states, steps, k);
    hide IsRun;
    if k + 1 < i { CancelStays(states, steps, k + 1, i); }
  }

  /** With `loop_files` nobody is ever told that there is nothing more. */
  lemma LoopingNeverEnds(capacity: nat, plan: seq<seq<FileEntry>>, states: seq<System>, steps: seq<Step>, i: nat, id: int)
    requires IsRun(states, steps) && i < |states| && states[0] == Begin(capacity, plan, true)
    requires id in states[i].calls && states[i].calls[id].Answered?
    ensures states[i].calls[id].hasMore
  {
    RunInv(capacity, plan, true, states, steps, i);
  }

  /**
   The condition can fail: a call let through before the job was cancelled is
   answered "no more" after the cancelled pass has marked itself done, and the
   entry was never handed out.
   */
  lemma CancelledPassIsIncomplete(a: FileEntry) returns (states: seq<System>, steps: seq<Step>)
    ensures IsRun(states, steps) && states[0] == Begin(1, [[a]], false)
    ensures 1 in states[|steps|].calls && states[|steps|].calls[1] == Answered([], false)
    ensures multiset(Flatten(states[|steps|].batches)) != AllOf([[a]])
  {
    hide Flatten, AllOf, IsRun;
    states, steps := CancelledPass(a);
    states, steps := Then(states, steps, Drain(1));
    states, steps := Then(states, steps, LoadDone(1));
    states, steps := Then(states, steps, CheckEmpty(1));
    NothingHandedOut(a);
  }

  lemma CancelledPass(a: FileEntry) returns (states: seq<System>, steps: seq<Step>)
    ensures IsRun(states, steps) && states[0] == Begin(1, [[a]], false)
    ensures var s := states[|steps|];
      s.done && s.q.items == [] && s.calls == map[1 := Fresh(DEFAULT_BATCH)] && s.batches == []
  {
    hide IsRun;
    states, steps := [Begin(1, [[a]], false)], [];
    StartRun(states[0]);
    states, steps := Then(states, steps, Call(1, 0));
    states, steps := Then(states, steps, Cancel);
    states, steps := Then(states, steps, GiveUp(0));
    states, steps := Then(states, steps, PassEnds);
  }

  lemma StartRun(s: System)
    ensures IsRun([s], [])
  {}

  lemma Then(states: seq<System>, steps: seq<Step>, step: Step) returns (states': seq<System>, steps': seq<Step>)
    requires IsRun(states, steps) && Enabled(states[|steps|], step)
    ensures IsRun(states', steps') && states'[0] == states[0]
    ensures states'[|steps'|] == Apply(states[|steps|], step)
  {
    hide Enabled, Apply;
    states', steps' := states + [Apply(states[|steps|], step)], steps + [step];
  }

  lemma NothingHandedOut(a: FileEntry)
    ensures multiset(Flatten([])) != AllOf([[a]])
  {
    assert AllOf([[a]]) == multiset([a]) + AllOf([[a]][1..]);
    assert a in AllOf([[a]]);
  }

  // -------------------------------------------------------- what a call hands out

  // How many entries a call asking for `requested` gets at most.
  ghost predicate Asks(requested: int, n: int) {
    if requested <= 0 then n == 1000 else if requested <= 10_000 then n == requested else n == 10_000
  }

  // Step `k` is the call `id`, and it is drained at step `d`, `d` being after `k`.
  ghost predicate DrainedCall(states: seq<System>, steps: seq<Step>, k: nat, d: nat, id: int) {
    && k < d < |steps| && |states| == |steps| + 1
    && steps[k].Call? && steps[k].id == id && steps[d] == Drain(id)
  }

  // What the step that made it says of a call's state.
  lemma CallStep(s: System, step: Step, id: int)
    requires Enabled(s, step)
    ensures var s' := Apply(s, step);
      && (id in s.calls ==> id in s'.calls)
      && (id in s'.calls && s'.calls[id].Fresh? ==>
            || (id in s.calls && s.calls[id] == s'.calls[id])
            || (step.Call? && step.id == id && Asks(step.requested, s'.calls[id].size)))
      && (step.Call? && step.id == id ==> id !in s.calls)
      && (step == Drain(id) ==> id in s.calls && s.calls[id].Fresh? && id in s'.calls && s'.calls[id].Took?)
  {}

  // A call still waiting to be drained was made, with the size it has, at one step before.
  lemma {:induction false} WaitingCall(states: seq<System>, steps: seq<Step>, i: nat, id: int) returns (k: nat)
    requires IsRun(states, steps) && i < |states| && states[0].calls == map[]
    requires id in states[i].calls && states[i].calls[id].Fresh?
    ensures k < i && k < |steps| && steps[k].Call? && steps[k].id == id && Asks(steps[k].requested, states[i].calls[id].size)
  {
    hide *;
    assert i > 0;
    StepAt(states, steps, i - 1);
    CallStep(states[i - 1], steps[i - 1], id);
    if id in states[i - 1].calls && states[i - 1].calls[id] == states[i].calls[id] {
      k := WaitingCall(states, steps, i - 1, id);
    } else {
      k := i - 1;
    }
  }

  // No id is used for two calls.
  lemma {:induction false} CallIdsStay(states: seq<System>, steps: seq<Step>, k: nat, i: nat, id: int)
    requires IsRun(states, steps) && k < i < |states| && k < |steps| && steps[k].Call? && steps[k].id == id
    ensures id in states[i].calls
  {
    hide *;
    StepAt(states, steps, i - 1);
    if i - 1 > k {
      CallIdsStay(states, steps, k, i - 1, id);
      CallStep(states[i - 1], steps[i - 1], id);
    } else {
      CallAdds(states[k], steps[k]);
    }
  }

  lemma CallAdds(s: System, step: Step)
    requires Enabled(s, step) && step.Call?
    ensures step.id !in s.calls && step.id in Apply(s, step).calls
  {}

  /**
   A FetchFileBatch gets the oldest entries, as many as it asked for or as there are: it asks
   for `requested` if that is between 1 and 10000, for 1000 if not positive, for 10000 if more.
   */
  lemma DrainTakesWhatWasAsked(capacity: nat, plan: seq<seq<FileEntry>>, loops: bool,
                               states: seq<System>, steps: seq<Step>, k: nat, d: nat, id: int, n: nat)
    requires IsRun(states, steps) && states[0] == Begin(capacity, plan, loops) && DrainedCall(states, steps, k, d, id)
    requires Asks(steps[k].requested, n)
    ensures id in states[d + 1].calls && states[d + 1].calls[id].Took?
    ensures var buffered := states[d].q.items; var taken := if n < |buffered| then n else |buffered|;
      states[d + 1].calls[id].batch == buffered[..taken] && states[d + 1].q.items == buffered[taken..]
  {
    hide IsRun, Enabled, Apply, Asks;
    NoCallsAtFirst(capacity, plan, loops);
    StepAt(states, steps, d);
    CallStep(states[d], steps[d], id);
    var k' := WaitingCall(states, steps, d, id);
    if k < k' { CalledTwice(states, steps, k, k', id); }
    if k' < k { CalledTwice(states, steps, k', k, id); }
    AsksOnce(steps[k].requested, n, states[d].calls[id].size);
    DrainTakes(states[d], id);
  }

  lemma NoCallsAtFirst(capacity: nat, plan: seq<seq<FileEntry>>, loops: bool)
    ensures Begin(capacity, plan, loops).calls == map[]
  {}

  lemma CalledTwice(states: seq<System>, steps: seq<Step>, k: nat, l: nat, id: int)
    requires IsRun(states, steps) && k < l < |steps| && steps[k].Call? && steps[k].id == id
    ensures !(steps[l].Call? && steps[l].id == id)
  {
    hide Enabled, Apply;
    CallIdsStay(states, steps, k, l, id);
    StepAt(states, steps, l);
    CallStep(states[l], steps[l], id);
  }

  lemma AsksOnce(requested: int, n: int, n': int)
    requires Asks(requested, n) && Asks(requested, n')
    ensures n == n'
  {}

  lemma DrainTakes(s: System, id: int)
    requires Enabled(s, Drain(id))
    ensures var s' := Apply(s, Drain(id)); var size := s.calls[id].size;
      var taken := if size < |s.q.items| then size else |s.q.items|;
      id in s'.calls && s'.calls[id] == Took(s.q.items[..taken]) && s'.q.items == s.q.items[taken..]
  {}

  // A call that has been drained, at the state after which it was.
  ghost predicate DrainedAt(states: seq<System>, steps: seq<Step>, d: nat, id: int, batch: seq<FileEntry>) {
    && d + 1 < |states| && d < |steps| && steps[d] == Drain(id)
    && id in states[d + 1].calls && states[d + 1].calls[id] == Took(batch)
  }

  lemma DrainedStep(s: System, step: Step, id: int)
    requires Enabled(s, step) && id in Apply(s, step).calls && !Apply(s, step).calls[id].Fresh?
    ensures step == Drain(id) ==> Apply(s, step).calls[id].Took?
    ensures step != Drain(id) ==> id in s.calls && !s.calls[id].Fresh? && Handed(s.calls[id]) == Handed(Apply(s, step).calls[id])
  {}

  // What the call took, or answered with.
  function Handed(c: Call): seq<FileEntry> {
    match c
    case Took(batch) => batch
    case Answered(files, _) => files
    case _ => []
  }

  lemma {:induction false} WasDrained(states: seq<System>, steps: seq<Step>, i: nat, id: int) returns (d: nat)
    requires IsRun(states, steps) && i < |states| && states[0].calls == map[]
    requires id in states[i].calls && !states[i].calls[id].Fresh?
    ensures d < i && DrainedAt(states, steps, d, id, Handed(states[i].calls[id]))
  {
    hide IsRun, Enabled, Apply;
    assert i > 0;
    StepAt(states, steps, i - 1);
    DrainedStep(states[i - 1], steps[i - 1], id);
    if steps[i - 1] == Drain(id) { d := i - 1; } else { d := WasDrained(states, steps, i - 1, id); }
  }

  /**
   Nobody goes away with nothing while there is something: the files a call is answered with
   are those of its own drain, at least one if the buffer then held any.
   */
  lemma EmptyAnswerMeansEmptyQueue(capacity: nat, plan: seq<seq<FileEntry>>, loops: bool,
                                   states: seq<System>, steps: seq<Step>, i: nat, id: int) returns (d: nat)
    requires IsRun(states, steps) && i < |states| && states[0] == Begin(capacity, plan, loops)
    requires id in states[i].calls && states[i].calls[id].Answered?
    ensures d < i && d < |steps| && steps[d] == Drain(id)
    ensures states[i].calls[id].files <= states[d].q.items
    ensures states[i].calls[id].files == [] <==> states[d].q.items == []
  {
    hide IsRun, Enabled, Apply;
    NoCallsAtFirst(capacity, plan, loops);
    d := WasDrained(states, steps, i, id);
    StepAt(states, steps, d);
    CallStep(states[d], steps[d], id);
    var k := WaitingCall(states, steps, d, id);
    AsksSome(steps[k].requested, states[d].calls[id].size);
    DrainTakes(states[d], id);
  }

  lemma AsksSome(requested: int, n: int)
    requires Asks(requested, n)
    ensures n >= 1
  {}

  /**
   The queue moves: a producer with an entry to push, in a pass nobody has cancelled, is held up
   only while the buffer holds entries or a worker that took some has yet to free their slots.
   */
  lemma ProducersWaitForWorkersOnly(capacity: nat, plan: seq<seq<FileEntry>>, loops: bool,
                                    states: seq<System>, steps: seq<Step>, i: nat, p: nat)
    requires IsRun(states, steps) && i < |states| && states[0] == Begin(capacity, plan, loops)
    requires !states[i].cancel && p < |states[i].producers| && !Idle(states[i].producers[p])
    ensures || (exists r :: 0 <= r < |states[i].producers| && Enabled(states[i], Deposit(r)))
            || Enabled(states[i], GetPermit(p))
            || states[i].q.items != []
            || exists id :: id in states[i].calls && Enabled(states[i], GiveBack(id))
  {
    RunInv(capacity, plan, loops, states, steps, i);
    hide IsRun;
    CapacityIs(capacity, plan, loops);
    SomethingHoldsThem(states[i], p);
  }

  lemma CapacityIs(capacity: nat, plan: seq<seq<FileEntry>>, loops: bool)
    ensures Begin(capacity, plan, loops).q.capacity >= 1
  {}

  lemma {:induction false} NobodyHolds(ps: seq<Producer>)
    requires forall r | 0 <= r < |ps| :: ps[r].holding.None?
    ensures CountHeld(ps) == 0
  {
    if ps != [] { NobodyHolds(ps[1..]); }
  }

  lemma {:induction false} NothingUnreturned<K>(calls: map<K, Call>)
    requires forall id | id in calls :: !(calls[id].Took? && calls[id].batch != [])
    ensures Unreturned(calls) == 0
    decreases |calls|
  {
    if calls != map[] {
      var id :| id in calls;
      UnreturnedRemove(calls, id);
      NothingUnreturned(calls - {id});
    }
  }

  lemma SomethingHoldsThem(s: System, p: nat)
    requires Inv(s) && s.q.capacity >= 1 && !s.cancel && p < |s.producers| && !Idle(s.producers[p])
    ensures || (exists r :: 0 <= r < |s.producers| && Enabled(s, Deposit(r)))
            || Enabled(s, GetPermit(p)) || s.q.items != []
            || exists id :: id in s.calls && Enabled(s, GiveBack(id))
  {
    hide EntriesInv, CountHeld, Unreturned;
    if forall r | 0 <= r < |s.producers| :: s.producers[r].holding.None? {
      NobodyHolds(s.producers);
      if forall id | id in s.calls :: !(s.calls[id].Took? && s.calls[id].batch != []) {
        NothingUnreturned(s.calls);
      } else {
        var id :| id in s.calls && s.calls[id].Took? && s.calls[id].batch != [];
        assert Enabled(s, GiveBack(id));
      }
    } else {
      var r :| 0 <= r < |s.producers| && s.producers[r].holding.Some?;
      assert Enabled(s, Deposit(r));
    }
  }
}
