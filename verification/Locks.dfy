/**
 The master's mutexes. Every request, tick and background task is here the path of
 lock operations it executes; a path holds at most three locks at once and always
 takes them in the order jobs, pending queue, active bindings, subscribers, file
 queue, directory queue. That order is why no set of requests can block one another
 for ever, in whatever way the scheduler interleaves them.
 */
module Locks {

  datatype Lock = Jobs | Pending | Active | Subscribers | FileQueue | DirQueue

  function Rank(l: Lock): nat {
    match l
    case Jobs => 0
    case Pending => 1
    case Active => 2
    case Subscribers => 3
    case FileQueue => 4
    case DirQueue => 5
  }

  datatype Op = Acquire(lock: Lock) | Release(lock: Lock)

  type Path = seq<Op>

  // ------------------------------------------------------------ the master's paths

  function Under(l: Lock, inner: Path): Path { [Acquire(l)] + inner + [Release(l)] }

  function Only(l: Lock): Path { Under(l, []) }

  // `emit_for_job`, `subscribe_with_snapshot` and `terminate` lock the registry only.
  function EmitUnderJobs(): Path { Under(Jobs, Only(Subscribers)) }

  function Repeat(n: nat, p: Path): Path { if n == 0 then [] else p + Repeat(n - 1, p) }

  datatype Request =
    | CreateJob
    | FetchJob(entersPreparing: bool)
    | ReportReady(emits: bool)
    | ReportReadyError
    | ReportProgress(emits: bool)
    | FetchFileBatch(drains: bool, checksEmpty: bool)
    | ReportResult(becomesTerminal: bool)
    | DeleteJob(wasPending: bool, hasWorkers: bool)
    | WatchJob
    | ReadJobs                      // QueryJob, ListJobs, the metrics page
    | StalenessTick(failed: nat)
    | GcTick(removes: bool)
    | ManifestFailure
    | PushEntry
    | DirQueueCall

  function PathOf(r: Request): Path {
    match r
    case CreateJob => EmitUnderJobs() + Only(Pending)
    case FetchJob(enters) => Under(Jobs, Under(Pending, Under(Active, if enters then Only(Subscribers) else [])))
    case ReportReady(emits) => Under(Jobs, if emits then Only(Subscribers) else [])
    case ReportReadyError => EmitUnderJobs() + Only(Active) + Only(Subscribers)
    case ReportProgress(emits) => Under(Jobs, if emits then Only(Subscribers) else [])
    case FetchFileBatch(drains, checks) =>
      Only(Jobs) + (if drains then Only(FileQueue) + (if checks then Only(FileQueue) else []) else [])
    case ReportResult(terminal) =>
      (if terminal then EmitUnderJobs() + Only(Subscribers) else Only(Jobs)) + Only(Active)
    case DeleteJob(pending, workers) =>
      EmitUnderJobs() + Only(Subscribers) + (if pending then Only(Pending) else []) + (if workers then Only(Active) else [])
    case WatchJob => EmitUnderJobs()
    case ReadJobs => Only(Jobs)
    case StalenessTick(n) =>
      Under(Jobs, Repeat(n, Only(Subscribers))) + (if n > 0 then Only(Active) + Repeat(n, Only(Subscribers)) else [])
    case GcTick(removes) => Only(Jobs) + (if removes then Only(Jobs) else [])
    case ManifestFailure => EmitUnderJobs() + Only(Active) + Only(Subscribers)
    case PushEntry => Only(FileQueue)
    case DirQueueCall => Only(DirQueue)
  }

  // -------------------------------------------------------------------- discipline

  // Starting with `held`, the path takes locks upwards only, releases what it holds, and ends holding nothing.
  ghost predicate Ordered(held: set<Lock>, p: Path)
    decreases |p|
  {
    if p == [] then held == {}
    else match p[0]
      case Acquire(l) => (forall h | h in held :: Rank(h) < Rank(l)) && Ordered(held + {l}, p[1..])
      case Release(l) => l in held && Ordered(held - {l}, p[1..])
  }

  // A path that can be put in front of any ordered one: it ends holding again what it started with.
  ghost predicate Balanced(held: set<Lock>, p: Path) {
    forall rest :: Ordered(held, rest) ==> Ordered(held, p + rest)
  }

  lemma NothingIsBalanced(held: set<Lock>)
    ensures Balanced(held, [])
  {
    forall rest | Ordered(held, rest) ensures Ordered(held, [] + rest) { assert [] + rest == rest; }
  }

  lemma UnderIsBalanced(held: set<Lock>, l: Lock, inner: Path)
    requires forall h | h in held :: Rank(h) < Rank(l)
    requires Balanced(held + {l}, inner)
    ensures Balanced(held, Under(l, inner))
  {
    forall rest | Ordered(held, rest) ensures Ordered(held, Under(l, inner) + rest) {
      var tail := [Release(l)] + rest;
      assert tail[1..] == rest && (held + {l}) - {l} == held;
      assert Ordered(held + {l}, inner + tail);
      var all := Under(l, inner) + rest;
      assert all[0] == Acquire(l) && all[1..] == inner + tail;
    }
  }

  lemma OnlyIsBalanced(held: set<Lock>, l: Lock)
    requires forall h | h in held :: Rank(h) < Rank(l)
    ensures Balanced(held, Only(l))
  {
    NothingIsBalanced(held + {l});
    UnderIsBalanced(held, l, []);
  }

  lemma ThenIsBalanced(held: set<Lock>, p: Path, q: Path)
    requires Balanced(held, p) && Balanced(held, q)
    ensures Balanced(held, p + q)
  {
    forall rest | Ordered(held, rest) ensures Ordered(held, (p + q) + rest) {
      assert (p + q) + rest == p + (q + rest);
    }
  }

  lemma {:induction false} RepeatIsBalanced(held: set<Lock>, n: nat, p: Path)
    requires Balanced(held, p)
    ensures Balanced(held, Repeat(n, p))
  {
    if n == 0 {
      NothingIsBalanced(held);
    } else {
      RepeatIsBalanced(held, n - 1, p);
      ThenIsBalanced(held, p, Repeat(n - 1, p));
    }
  }

  lemma EmitIsBalanced()
    ensures Balanced({}, EmitUnderJobs())
  {
    OnlyIsBalanced({Jobs}, Subscribers);
    UnderIsBalanced({}, Jobs, Only(Subscribers));
  }

  /** Every path of the master takes its locks upwards and ends holding none, however many jobs a tick fails. */
  lemma EveryPathIsOrdered(r: Request)
    ensures Ordered({}, PathOf(r))
  {
    var none: Path := [];
    assert PathOf(r) + none == PathOf(r);
    assert Ordered({}, none);
    assert Balanced({}, PathOf(r)) by {
      NothingIsBalanced({});
      NothingIsBalanced({Jobs});
      assert {} + {Jobs} == {Jobs};
      EmitIsBalanced();
      OnlyIsBalanced({Jobs}, Subscribers);
      forall l ensures Balanced({}, Only(l)) { OnlyIsBalanced({}, l); }
      hide Balanced, Under, Only, EmitUnderJobs, Repeat;
      match r {
        case CreateJob => ThenIsBalanced({}, EmitUnderJobs(), Only(Pending));
        case FetchJob(enters) => FetchJobIsBalanced(enters);
        case ReportReady(emits) => UnderIsBalanced({}, Jobs, if emits then Only(Subscribers) else []);
        case ReportReadyError =>
          ThenIsBalanced({}, EmitUnderJobs(), Only(Active));
          ThenIsBalanced({}, EmitUnderJobs() + Only(Active), Only(Subscribers));
        case ReportProgress(emits) => UnderIsBalanced({}, Jobs, if emits then Only(Subscribers) else []);
        case FetchFileBatch(drains, checks) =>
          ThenIsBalanced({}, Only(FileQueue), if checks then Only(FileQueue) else []);
          ThenIsBalanced({}, Only(Jobs),
            if drains then Only(FileQueue) + (if checks then Only(FileQueue) else []) else []);
        case ReportResult(terminal) =>
          ThenIsBalanced({}, EmitUnderJobs(), Only(Subscribers));
          ThenIsBalanced({}, if terminal then EmitUnderJobs() + Only(Subscribers) else Only(Jobs), Only(Active));
        case DeleteJob(pending, workers) =>
          var first := EmitUnderJobs() + Only(Subscribers);
          var second := if pending then Only(Pending) else [];
          ThenIsBalanced({}, EmitUnderJobs(), Only(Subscribers));
          ThenIsBalanced({}, first, second);
          ThenIsBalanced({}, first + second, if workers then Only(Active) else []);
        case StalenessTick(n) => TickIsBalanced(n);
        case GcTick(removes) => ThenIsBalanced({}, Only(Jobs), if removes then Only(Jobs) else []);
        case ManifestFailure =>
          ThenIsBalanced({}, EmitUnderJobs(), Only(Active));
          ThenIsBalanced({}, EmitUnderJobs() + Only(Active), Only(Subscribers));
        case _ =>
      }
    }
  }

  lemma FetchJobIsBalanced(enters: bool)
    ensures Balanced({}, PathOf(FetchJob(enters)))
  {
    var inner := if enters then Only(Subscribers) else [];
    var three := {Jobs, Pending, Active};
    NothingIsBalanced(three);
    OnlyIsBalanced(three, Subscribers);
    hide Balanced, Under, Only;
    assert {Jobs, Pending} + {Active} == three && {Jobs} + {Pending} == {Jobs, Pending} && {} + {Jobs} == {Jobs};
    UnderIsBalanced({Jobs, Pending}, Active, inner);
    UnderIsBalanced({Jobs}, Pending, Under(Active, inner));
    UnderIsBalanced({}, Jobs, Under(Pending, Under(Active, inner)));
  }

  lemma TickIsBalanced(n: nat)
    ensures Balanced({}, PathOf(StalenessTick(n)))
  {
    OnlyIsBalanced({Jobs}, Subscribers);
    OnlyIsBalanced({}, Subscribers);
    OnlyIsBalanced({}, Active);
    NothingIsBalanced({});
    hide Balanced, Under, Only, Repeat;
    var emits := Repeat(n, Only(Subscribers));
    RepeatIsBalanced({Jobs}, n, Only(Subscribers));
    RepeatIsBalanced({}, n, Only(Subscribers));
    assert {} + {Jobs} == {Jobs};
    UnderIsBalanced({}, Jobs, emits);
    ThenIsBalanced({}, Only(Active), emits);
    ThenIsBalanced({}, Under(Jobs, emits), if n > 0 then Only(Active) + emits else []);
  }

  // ---------------------------------------------------------------- any set of threads

  // What a thread still has to do, and what it holds.
  datatype Thread = Thread(todo: Path, held: set<Lock>)

  ghost predicate CanStep(ts: seq<Thread>, i: nat) {
    && i < |ts| && ts[i].todo != []
    && (ts[i].todo[0].Acquire? ==> forall k | 0 <= k < |ts| :: ts[i].todo[0].lock !in ts[k].held)
  }

  function Advance(t: Thread): Thread
    requires t.todo != []
  {
    match t.todo[0]
    case Acquire(l) => Thread(t.todo[1..], t.held + {l})
    case Release(l) => Thread(t.todo[1..], t.held - {l})
  }

  function Start(rs: seq<Request>): seq<Thread> { seq(|rs|, i requires 0 <= i < |rs| => Thread(PathOf(rs[i]), {})) }

  // `picks[n]` is the thread that makes the n-th step.
  ghost predicate IsRun(states: seq<seq<Thread>>, picks: seq<nat>) {
    && |states| == |picks| + 1
    && forall n | 0 <= n < |picks| ::
         && CanStep(states[n], picks[n])
         && states[n + 1] == states[n][picks[n] := Advance(states[n][picks[n]])]
  }

  ghost predicate Sound(ts: seq<Thread>) {
    && (forall i | 0 <= i < |ts| :: Ordered(ts[i].held, ts[i].todo))
    && (forall i, k | 0 <= i < k < |ts| :: ts[i].held !! ts[k].held)
  }

  lemma StepIsSound(ts: seq<Thread>, i: nat)
    requires Sound(ts) && CanStep(ts, i)
    ensures Sound(ts[i := Advance(ts[i])])
  {
  }

  lemma {:induction false} RunIsSound(rs: seq<Request>, states: seq<seq<Thread>>, picks: seq<nat>, n: nat)
    requires IsRun(states, picks) && states[0] == Start(rs) && n < |states|
    ensures Sound(states[n]) && |states[n]| == |rs|
  {
    if n == 0 {
      forall i | 0 <= i < |rs| ensures Ordered({}, PathOf(rs[i])) { EveryPathIsOrdered(rs[i]); }
    } else {
      RunIsSound(rs, states, picks, n - 1);
      StepIsSound(states[n - 1], picks[n - 1]);
    }
  }

  // A thread that holds the highest lock of all is never blocked.
  lemma {:induction false} SomeoneCanStep(ts: seq<Thread>, i: nat, rank: nat) returns (j: nat)
    requires Sound(ts) && i < |ts| && ts[i].todo != [] && rank <= 6
    requires ts[i].todo[0].Acquire? ==> Rank(ts[i].todo[0].lock) >= rank
    ensures CanStep(ts, j)
    decreases 6 - rank
  {
    if CanStep(ts, i) {
      j := i;
    } else {
      var l := ts[i].todo[0].lock;
      var k :| 0 <= k < |ts| && l in ts[k].held;
      assert Ordered(ts[k].held, ts[k].todo);
      j := SomeoneCanStep(ts, k, Rank(l) + 1);
    }
  }

  /** No deadlock: in every reachable state of any set of requests, if one is unfinished, one can go on. */
  lemma NoDeadlock(rs: seq<Request>, states: seq<seq<Thread>>, picks: seq<nat>, n: nat, i: nat)
    requires IsRun(states, picks) && states[0] == Start(rs) && n < |states|
    requires i < |rs| && i < |states[n]| && states[n][i].todo != []
    ensures exists j: nat :: CanStep(states[n], j)
  {
    RunIsSound(rs, states, picks, n);
    var j := SomeoneCanStep(states[n], i, 0);
    assert CanStep(states[n], j);
  }

  /** Mutual exclusion, and nothing left locked: a finished thread holds no lock, a held lock has one holder. */
  lemma FinishedHoldsNothing(rs: seq<Request>, states: seq<seq<Thread>>, picks: seq<nat>, n: nat)
    requires IsRun(states, picks) && states[0] == Start(rs) && n < |states|
    ensures forall i | 0 <= i < |states[n]| && states[n][i].todo == [] :: states[n][i].held == {}
    ensures forall i, k, l | 0 <= i < |states[n]| && 0 <= k < |states[n]| && l in states[n][i].held && l in states[n][k].held :: i == k
  {
    RunIsSound(rs, states, picks, n);
  }

  ghost function Work(ts: seq<Thread>): nat { if ts == [] then 0 else |ts[0].todo| + Work(ts[1..]) }

  lemma {:induction false} StepDoesWork(ts: seq<Thread>, i: nat)
    requires i < |ts| && ts[i].todo != []
    ensures Work(ts[i := Advance(ts[i])]) + 1 == Work(ts)
  {
    if i == 0 {
      assert ts[0 := Advance(ts[0])][1..] == ts[1..];
    } else {
      StepDoesWork(ts[1..], i - 1);
      assert ts[i := Advance(ts[i])][1..] == ts[1..][i - 1 := Advance(ts[i])];
    }
  }

  /** With `NoDeadlock`: whoever is scheduled, after as many steps as there are lock operations everybody is done. */
  lemma {:induction false} EveryoneFinishes(rs: seq<Request>, states: seq<seq<Thread>>, picks: seq<nat>, n: nat)
    requires IsRun(states, picks) && states[0] == Start(rs) && n < |states|
    ensures Work(states[n]) + n == Work(Start(rs))
  {
    if n > 0 {
      EveryoneFinishes(rs, states, picks, n - 1);
      StepDoesWork(states[n - 1], picks[n - 1]);
    }
  }
}
