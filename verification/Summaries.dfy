/**
 What the summary of a job says, in terms of the workers' results alone: each counter
 is the exact sum cut off at the 64-bit limit, each histogram the successful workers'
 samples, and the window that of the results with any counts
 (crates/cvd-common/src/metrics/aggregate.rs).
 */
module Summaries {
  import opened Types
  import opened Aggregation

  datatype Counter = Ops | Bytes | Errors

  // A counter of one op of one worker, and of a merged line.
  function Raw(m: OpMetrics, c: Counter): int {
    match c
    case Ops => m.ops
    case Bytes => m.bytes
    case Errors => m.errors
  }

  function Line(m: Merged, c: Counter): int {
    match c
    case Ops => m.ops
    case Bytes => m.bytes
    case Errors => m.errors
  }

  // One worker's counter over all its ops.
  ghost function OpSum(t: map<string, OpMetrics>, c: Counter): int {
    if t == map[] then 0 else
      var k :| k in t;
      Raw(t[k], c) + OpSum(t - {k}, c)
  }

  // All workers' counter over all their ops.
  ghost function TotalSum(ws: multiset<WorkerResult>, c: Counter): int {
    if ws == multiset{} then 0 else
      var w :| w in ws;
      OpSum(w.perOp, c) + TotalSum(ws - multiset{w}, c)
  }

  // All workers' counter of one op.
  ghost function LineSum(ws: multiset<WorkerResult>, op: string, c: Counter): int {
    if ws == multiset{} then 0 else
      var w :| w in ws;
      (if op in w.perOp then Raw(w.perOp[op], c) else 0) + LineSum(ws - multiset{w}, op, c)
  }

  // The results that satisfy one of two tests, counted.
  datatype Kind = Successful | WithoutHistogram

  ghost predicate Is(w: WorkerResult, kind: Kind) {
    match kind
    case Successful => w.success
    case WithoutHistogram => w.success && exists k :: k in w.perOp && w.perOp[k].hist.Missing? && w.perOp[k].ops > 0
  }

  ghost function Count(ws: multiset<WorkerResult>, kind: Kind): nat {
    if ws == multiset{} then 0 else
      var w :| w in ws;
      (if Is(w, kind) then 1 else 0) + Count(ws - multiset{w}, kind)
  }

  // The sum as a 64-bit counter shows it.
  ghost predicate Shows(counter: int, sum: int) {
    counter == if sum <= 0x7fff_ffff_ffff_ffff then sum else 0x7fff_ffff_ffff_ffff
  }

  // -------------------------------------------------------------------- the sums

  lemma {:induction false} OpSumRemove(t: map<string, OpMetrics>, k: string, c: Counter)
    requires k in t
    ensures OpSum(t, c) == Raw(t[k], c) + OpSum(t - {k}, c)
    decreases |t|
  {
    var j :| j in t && OpSum(t, c) == Raw(t[j], c) + OpSum(t - {j}, c);
    if j != k {
      assert (t - {j}) - {k} == (t - {k}) - {j};
      OpSumRemove(t - {j}, k, c);
      OpSumRemove(t - {k}, j, c);
    }
  }

  // One worker's table, summed.
  lemma {:induction false} TableSums(w: WorkerResult, c: Counter)
    ensures Line(SumTable(TableOf(w)), c) == OpSum(w.perOp, c)
    decreases |w.perOp|
  {
    if w.perOp == map[] {
      assert TableOf(w) == map[];
    } else {
      var k :| k in w.perOp;
      var v := w.(perOp := w.perOp - {k});
      assert TableOf(v) == TableOf(w) - {k};
      SumTableRemove(TableOf(w), k);
      OpSumRemove(w.perOp, k, c);
      TableSums(v, c);
      LinesAdd(TableOf(w)[k], SumTable(TableOf(v)), c);
      ContributionShows(w.perOp[k], w.success, c);
    }
  }

  lemma LinesAdd(a: Merged, b: Merged, c: Counter)
    ensures Line(Add(a, b), c) == Line(a, c) + Line(b, c)
  {}

  lemma ContributionShows(m: OpMetrics, success: bool, c: Counter)
    ensures Line(Contribution(m, success), c) == Raw(m, c)
  {}

  lemma TotalSumFirst(ws: multiset<WorkerResult>, c: Counter) returns (w: WorkerResult)
    requires ws != multiset{}
    ensures w in ws && TotalSum(ws, c) == OpSum(w.perOp, c) + TotalSum(ws - multiset{w}, c)
  {
    w :| w in ws && TotalSum(ws, c) == OpSum(w.perOp, c) + TotalSum(ws - multiset{w}, c);
  }

  lemma {:induction false} TotalSums(ws: multiset<WorkerResult>, c: Counter)
    ensures Line(Fold(ws).total, c) == TotalSum(ws, c)
    decreases |ws|
  {
    if ws != multiset{} {
      hide Fold, TotalSum;
      var w := TotalSumFirst(ws, c);
      FoldRemove(ws, w);
      TotalSums(ws - multiset{w}, c);
      TableSums(w, c);
      hide SumTable, TableOf, OpSum;
      LinesAdd(SumTable(TableOf(w)), Fold(ws - multiset{w}).total, c);
    }
  }

  lemma {:induction false} LineSums(ws: multiset<WorkerResult>, op: string, c: Counter)
    ensures Line(Get(Fold(ws).perOp, op), c) == LineSum(ws, op, c)
    decreases |ws|
  {
    if ws != multiset{} {
      var w :| w in ws && LineSum(ws, op, c)
        == (if op in w.perOp then Raw(w.perOp[op], c) else 0) + LineSum(ws - multiset{w}, op, c);
      var rest := ws - multiset{w};
      FoldRemove(ws, w);
      LineSums(rest, op, c);
      OwnLine(w, op, c);
      hide Fold, LineSum, JoinTables, TableOf, Get;
      JoinTablesAt(TableOf(w), Fold(rest).perOp, op);
      LinesAdd(Get(TableOf(w), op), Get(Fold(rest).perOp, op), c);
    }
  }

  lemma OwnLine(w: WorkerResult, op: string, c: Counter)
    ensures Line(Get(TableOf(w), op), c) == if op in w.perOp then Raw(w.perOp[op], c) else 0
  {}

  // What one result adds to a count of the fold, and what the fold has of it.
  function Tally(a: Acc, kind: Kind): nat {
    match kind
    case Successful => a.successes
    case WithoutHistogram => a.missing
  }

  lemma OneTally(w: WorkerResult, a: Acc, kind: Kind)
    ensures Tally(Join(One(w), a), kind) == (if Is(w, kind) then 1 else 0) + Tally(a, kind)
  {}

  lemma {:induction false} Counts(ws: multiset<WorkerResult>, kind: Kind)
    ensures Tally(Fold(ws), kind) == Count(ws, kind)
    decreases |ws|
  {
    if ws != multiset{} {
      var w :| w in ws && Count(ws, kind) == (if Is(w, kind) then 1 else 0) + Count(ws - multiset{w}, kind);
      FoldRemove(ws, w);
      Counts(ws - multiset{w}, kind);
      OneTally(w, Fold(ws - multiset{w}), kind);
      hide Fold, Count, Tally, Is;
    }
  }

  // An op has a line when some worker ran it, and a histogram when a successful one sent it.
  ghost predicate Ran(w: WorkerResult, op: string) { op in w.perOp }

  ghost predicate Sampled(w: WorkerResult, op: string) { w.success && op in w.perOp && w.perOp[op].hist.Samples? }

  ghost predicate SomeRan(ws: multiset<WorkerResult>, op: string) { exists w :: w in ws && Ran(w, op) }

  ghost predicate SomeSampled(ws: multiset<WorkerResult>, op: string) { exists w :: w in ws && Sampled(w, op) }

  lemma OneMore(rest: multiset<WorkerResult>, w: WorkerResult, op: string)
    ensures SomeRan(rest + multiset{w}, op) <==> Ran(w, op) || SomeRan(rest, op)
    ensures SomeSampled(rest + multiset{w}, op) <==> Sampled(w, op) || SomeSampled(rest, op)
  {
    var ws := rest + multiset{w};
    hide Ran, Sampled;
    assert w in ws && forall x | x in rest :: x in ws;
    assert forall x | x in ws :: x == w || x in rest;
  }

  lemma {:induction false} Lines(ws: multiset<WorkerResult>, op: string)
    ensures op in Fold(ws).perOp <==> SomeRan(ws, op)
    ensures Get(Fold(ws).perOp, op).hist.Some? <==> SomeSampled(ws, op)
    decreases |ws|
  {
    if ws != multiset{} {
      var w :| w in ws;
      var rest := ws - multiset{w};
      FoldRemove(ws, w);
      Lines(rest, op);
      OneMore(rest, w, op);
      assert rest + multiset{w} == ws;
      hide Fold, SomeRan, SomeSampled, TableOf, Ran, Sampled, Get, JoinTables;
      OwnHist(w, op);
      JoinTablesAt(TableOf(w), Fold(rest).perOp, op);
      JoinKeys(TableOf(w), Fold(rest).perOp, op);
    }
  }

  lemma JoinKeys(a: map<string, Merged>, b: map<string, Merged>, op: string)
    ensures op in JoinTables(a, b) <==> op in a || op in b
  {}

  lemma OwnHist(w: WorkerResult, op: string)
    ensures op in TableOf(w) <==> Ran(w, op)
    ensures Get(TableOf(w), op).hist.Some? <==> Sampled(w, op)
  {}

  // ------------------------------------------------------------------ the summary

  /**
   Counters: every line and the grand total is the exact sum over the workers, cut off at
   the largest 64-bit value, whatever order and however many levels the code saturates in.
   */
  lemma CountersAreClampedSums(ws: multiset<WorkerResult>, s: Summary, op: string, c: Counter)
    requires SummaryFor(ws, s) && AllValid(ws)
    ensures Shows(Line(s.total, c), TotalSum(ws, c))
    ensures op in s.perOp <==> SomeRan(ws, op)
    ensures op in s.perOp ==> Shows(Line(s.perOp[op], c), LineSum(ws, op, c))
  {
    TotalSums(ws, c);
    LineSums(ws, op, c);
    Lines(ws, op);
    hide Fold, TotalSum, LineSum;
  }

  /** Histograms: exactly the successful workers' samples, and none where none was sent. */
  lemma HistogramsAreTheSamples(ws: multiset<WorkerResult>, s: Summary, op: string)
    requires SummaryFor(ws, s)
    ensures op in s.perOp <==> SomeRan(ws, op)
    ensures op in s.perOp ==>
      && Bag(s.perOp[op].hist) == SamplesOf(ws, op)
      && (s.perOp[op].hist.Some? <==> SomeSampled(ws, op))
  {
    Lines(ws, op);
    OnlySuccessfulSamples(ws, op);
    hide Fold, SamplesOf;
  }

  /** Workers: all their results, how many succeeded, and how many of those sent no histogram. */
  lemma WorkersAreCounted(ws: multiset<WorkerResult>, s: Summary)
    requires SummaryFor(ws, s)
    ensures s.perWorker == ws && s.successes == Count(ws, Successful) && s.missing == Count(ws, WithoutHistogram)
  {
    Counts(ws, Successful);
    Counts(ws, WithoutHistogram);
    hide Fold, Count;
  }

  // Some counter of the result is positive.
  ghost predicate Counted(w: WorkerResult) {
    exists k :: k in w.perOp && (w.perOp[k].ops > 0 || w.perOp[k].bytes > 0 || w.perOp[k].errors > 0)
  }

  lemma CountedContribute(ws: multiset<WorkerResult>)
    ensures forall w :: w in Contributors(ws) <==> w in ws && Counted(w)
  {}

  /** A job of one measuring worker has that worker's window, or failing that its duration. */
  lemma SoleWindow(ws: multiset<WorkerResult>, s: Summary, w: WorkerResult)
    requires SummaryFor(ws, s) && w in ws && Counted(w)
    requires ws[w] == 1 && forall x | x in ws && x != w :: !Counted(x)
    ensures !s.misaligned
    ensures s.window == if w.end > w.start then w.end - w.start else if w.duration > 0 then w.duration else 0
  {
    hide Fold, Contributors, Counted, Contributes, Meets, SummaryFor;
    FoldWindow(ws);
    OnlyContributor(ws, w);
    OwnWindow(ws, Fold(ws).window, w);
    WindowShown(ws, s);
  }

  lemma WindowShown(ws: multiset<WorkerResult>, s: Summary)
    requires SummaryFor(ws, s)
    ensures (s.window, s.misaligned) == EffectiveWindow(Fold(ws).window)
  {
    hide Fold, ClampTable, Clamp, AllValid, SameShape;
  }

  lemma OwnWindow(ws: multiset<WorkerResult>, v: Window, w: WorkerResult)
    requires Meets(ws, v) && |Contributors(ws)| == 1 && forall x :: Contributes(ws, x) <==> x == w
    ensures v == Window(1, w.start, w.end, w.duration)
  {
    hide Contributors, Contributes;
  }

  lemma OnlyContributor(ws: multiset<WorkerResult>, w: WorkerResult)
    requires w in ws && Counted(w) && ws[w] == 1 && forall x | x in ws && x != w :: !Counted(x)
    ensures |Contributors(ws)| == 1 && forall x :: Contributes(ws, x) <==> x == w
  {
    CountedContribute(ws);
    hide Counted, HasCounters, Contributors;
    assert Contributors(ws)[w] == 1;
    assert Contributors(ws) == multiset{w};
    forall x ensures Contributes(ws, x) <==> x in Contributors(ws) {}
  }

  /** Without any counts there is no window. */
  lemma NoWindow(ws: multiset<WorkerResult>, s: Summary)
    requires SummaryFor(ws, s) && forall x | x in ws :: !Counted(x)
    ensures !s.misaligned && s.window == 0
  {
    FoldWindow(ws);
    CountedContribute(ws);
    assert Contributors(ws) == multiset{};
    hide Fold, Contributors, HasCounters;
  }
}
