/**
 Merging of worker results (crates/cvd-common/src/metrics/aggregate.rs).

 The source sums counters with saturation at two levels (per op, then over ops)
 while walking hash maps in an unspecified order.  Here the meaning of a set of
 results is a commutative fold over their multiset without any saturation; the
 method that follows the source's loops is proved to compute exactly that
 meaning, clamped once, whatever order the maps are walked in.
 */
module Aggregation {
  import opened Types

  const I64_MAX: int := 0x7fff_ffff_ffff_ffff
  const I64_MIN: int := -0x8000_0000_0000_0000

  // An encoded latency histogram: absent, not decodable, or a bag of samples.
  datatype Histogram = Missing | Undecodable | Samples(bag: multiset<int>)

  datatype OpMetrics = OpMetrics(ops: int, bytes: int, errors: int, hist: Histogram)

  datatype WorkerResult = WorkerResult(
    success: bool,
    error: Option<string>,
    perOp: map<string, OpMetrics>,
    start: int,
    end: int,
    duration: int)

  // Counters of one op, or of all ops together.
  datatype Merged = Merged(ops: int, bytes: int, errors: int, hist: Option<multiset<int>>)

  datatype Summary = Summary(
    perOp: map<string, Merged>,
    total: Merged,
    perWorker: multiset<WorkerResult>,
    window: int,
    misaligned: bool,
    successes: nat,
    missing: nat)

  const ZERO := Merged(0, 0, 0, None)

  function SatAdd(a: int, b: int): int {
    if a + b > I64_MAX then I64_MAX else if a + b < I64_MIN then I64_MIN else a + b
  }

  function Cap(n: int): int { if n > I64_MAX then I64_MAX else n }

  function Clamp(m: Merged): Merged {
    Merged(Cap(m.ops), Cap(m.bytes), Cap(m.errors), m.hist)
  }

  function JoinHist(a: Option<multiset<int>>, b: Option<multiset<int>>): Option<multiset<int>> {
    match (a, b)
    case (None, _) => b
    case (_, None) => a
    case (Some(x), Some(y)) => Some(x + y)
  }

  function Add(a: Merged, b: Merged): Merged {
    Merged(a.ops + b.ops, a.bytes + b.bytes, a.errors + b.errors, JoinHist(a.hist, b.hist))
  }

  function AddSat(a: Merged, b: Merged): Merged {
    Merged(SatAdd(a.ops, b.ops), SatAdd(a.bytes, b.bytes), SatAdd(a.errors, b.errors), JoinHist(a.hist, b.hist))
  }

  /** What one op of one worker contributes; failed workers lend no samples. */
  function Contribution(m: OpMetrics, success: bool): Merged {
    Merged(m.ops, m.bytes, m.errors, if success && m.hist.Samples? then Some(m.hist.bag) else None)
  }

  predicate NonNegative(m: Merged) { 0 <= m.ops && 0 <= m.bytes && 0 <= m.errors }

  predicate ValidResult(w: WorkerResult) {
    forall k | k in w.perOp :: 0 <= w.perOp[k].ops && 0 <= w.perOp[k].bytes && 0 <= w.perOp[k].errors
  }

  predicate HasCounters(w: WorkerResult) {
    exists k | k in w.perOp :: w.perOp[k].ops > 0 || w.perOp[k].bytes > 0 || w.perOp[k].errors > 0
  }

  predicate LacksHistogram(w: WorkerResult) {
    w.success && exists k | k in w.perOp :: w.perOp[k].hist.Missing? && w.perOp[k].ops > 0
  }

  // ---------------------------------------------------------------- meaning

  /** The sum of a table, in no particular order. */
  ghost function SumTable(t: map<string, Merged>): Merged {
    if t == map[] then ZERO else
      var k :| k in t;
      Add(t[k], SumTable(t - {k}))
  }

  ghost function TableOf(w: WorkerResult): map<string, Merged> {
    map k | k in w.perOp :: Contribution(w.perOp[k], w.success)
  }

  function Get(t: map<string, Merged>, k: string): Merged { if k in t then t[k] else ZERO }

  function JoinTables(a: map<string, Merged>, b: map<string, Merged>): map<string, Merged> {
    map k | k in a.Keys + b.Keys :: Add(Get(a, k), Get(b, k))
  }

  // The measurement windows of the contributing workers: how many, the latest
  // start, the earliest end and the shortest reported duration.
  datatype Window = NoWindow | Window(count: nat, start: int, end: int, duration: int)

  function Min(a: int, b: int): int { if a < b then a else b }
  function Max(a: int, b: int): int { if a < b then b else a }

  function Meet(a: Window, b: Window): Window {
    match (a, b)
    case (NoWindow, _) => b
    case (_, NoWindow) => a
    case (Window(n, s, e, d), Window(n', s', e', d')) =>
      Window(n + n', Max(s, s'), Min(e, e'), Min(d, d'))
  }

  function WindowOf(w: WorkerResult): Window {
    if HasCounters(w) then Window(1, w.start, w.end, w.duration) else NoWindow
  }

  datatype Acc = Acc(perOp: map<string, Merged>, total: Merged, window: Window, successes: nat, missing: nat)

  const EMPTY := Acc(map[], ZERO, NoWindow, 0, 0)

  ghost function One(w: WorkerResult): Acc {
    Acc(TableOf(w), SumTable(TableOf(w)), WindowOf(w),
        if w.success then 1 else 0, if LacksHistogram(w) then 1 else 0)
  }

  ghost function Join(a: Acc, b: Acc): Acc {
    Acc(JoinTables(a.perOp, b.perOp), Add(a.total, b.total), Meet(a.window, b.window),
        a.successes + b.successes, a.missing + b.missing)
  }

  /** The meaning of a bag of results. */
  ghost function Fold(ws: multiset<WorkerResult>): Acc {
    if ws == multiset{} then EMPTY else
      var w :| w in ws;
      Join(One(w), Fold(ws - multiset{w}))
  }

  function EffectiveWindow(w: Window): (int, bool) {
    match w
    case NoWindow => (0, false)
    case Window(n, s, e, d) =>
      if n == 1 then (if e - s > 0 then e - s else Max(d, 0), false)
      else if e > s then (e - s, false)
      else (d, true)
  }

  function ClampTable(t: map<string, Merged>): map<string, Merged> { map k | k in t :: Clamp(t[k]) }

  ghost function Summarize(ws: multiset<WorkerResult>): Summary {
    var a := Fold(ws);
    Summary(ClampTable(a.perOp), Clamp(a.total), ws,
            EffectiveWindow(a.window).0, EffectiveWindow(a.window).1, a.successes, a.missing)
  }

  // ------------------------------------------------------- order independence

  lemma JoinHistSwap(a: Option<multiset<int>>, b: Option<multiset<int>>, c: Option<multiset<int>>)
    ensures JoinHist(a, JoinHist(b, c)) == JoinHist(b, JoinHist(a, c))
  {
    match (a, b, c) {
      case (Some(x), Some(y), Some(z)) => assert x + (y + z) == y + (x + z);
      case (Some(x), Some(y), None) => assert x + y == y + x;
      case _ =>
    }
  }

  lemma AddSwap(a: Merged, b: Merged, c: Merged)
    ensures Add(a, Add(b, c)) == Add(b, Add(a, c))
  {
    JoinHistSwap(a.hist, b.hist, c.hist);
  }

  /** A table may be summed starting from any of its keys. */
  lemma {:induction false} SumTableRemove(t: map<string, Merged>, k: string)
    requires k in t
    ensures SumTable(t) == Add(t[k], SumTable(t - {k}))
    decreases |t|
  {
    var j :| j in t && SumTable(t) == Add(t[j], SumTable(t - {j}));
    if j != k {
      assert (t - {j}) - {k} == (t - {k}) - {j};
      SumTableRemove(t - {j}, k);
      SumTableRemove(t - {k}, j);
      AddSwap(t[j], t[k], SumTable((t - {j}) - {k}));
    }
  }

  lemma JoinSwap(a: Acc, b: Acc, c: Acc)
    ensures Join(a, Join(b, c)) == Join(b, Join(a, c))
  {
    TablesSwap(a.perOp, b.perOp, c.perOp);
    AddSwap(a.total, b.total, c.total);
  }

  lemma JoinTablesAt(a: map<string, Merged>, b: map<string, Merged>, k: string)
    ensures Get(JoinTables(a, b), k) == Add(Get(a, k), Get(b, k))
  {}

  lemma TablesSwapAt(a: map<string, Merged>, b: map<string, Merged>, c: map<string, Merged>, k: string)
    ensures Get(JoinTables(a, JoinTables(b, c)), k) == Get(JoinTables(b, JoinTables(a, c)), k)
  {
    JoinTablesAt(a, JoinTables(b, c), k);
    JoinTablesAt(b, JoinTables(a, c), k);
    JoinTablesAt(b, c, k);
    JoinTablesAt(a, c, k);
    AddSwap(Get(a, k), Get(b, k), Get(c, k));
  }

  lemma TablesSwap(a: map<string, Merged>, b: map<string, Merged>, c: map<string, Merged>)
    ensures JoinTables(a, JoinTables(b, c)) == JoinTables(b, JoinTables(a, c))
  {
    hide Add;
    var l, r := JoinTables(a, JoinTables(b, c)), JoinTables(b, JoinTables(a, c));
    assert l.Keys == r.Keys by {
      assert l.Keys == a.Keys + (b.Keys + c.Keys);
      assert r.Keys == b.Keys + (a.Keys + c.Keys);
    }
    forall k | k in l ensures l[k] == r[k] {
      TablesSwapAt(a, b, c, k);
      assert Get(l, k) == l[k] && Get(r, k) == r[k];
    }
  }

  lemma FoldHead(ws: multiset<WorkerResult>) returns (v: WorkerResult)
    requires ws != multiset{}
    ensures v in ws && Fold(ws) == Join(One(v), Fold(ws - multiset{v}))
  {
    hide Join, One;
    v :| v in ws && Fold(ws) == Join(One(v), Fold(ws - multiset{v}));
  }

  /** The fold may start from any member: the order of the results is immaterial. */
  lemma {:induction false} FoldRemove(ws: multiset<WorkerResult>, w: WorkerResult)
    requires w in ws
    ensures Fold(ws) == Join(One(w), Fold(ws - multiset{w}))
    decreases |ws|
  {
    var v := FoldHead(ws);
    hide *;
    if v != w {
      var rest := ws - multiset{v} - multiset{w};
      assert ws - multiset{w} - multiset{v} == rest;
      FoldRemove(ws - multiset{v}, w);
      FoldRemove(ws - multiset{w}, v);
      JoinSwap(One(v), One(w), Fold(rest));
    }
  }

  // -------------------------------------------------------------- saturation

  lemma ClampAdd(x: Merged, y: Merged)
    requires NonNegative(x) && NonNegative(y)
    ensures AddSat(Clamp(x), y) == Clamp(Add(x, y))
    ensures AddSat(Clamp(x), Clamp(y)) == Clamp(Add(x, y))
    ensures NonNegative(Add(x, y))
  {}

  ghost predicate NonNegativeTable(t: map<string, Merged>) { forall k | k in t :: NonNegative(t[k]) }

  lemma {:induction false} SumTableNonNegative(t: map<string, Merged>)
    requires NonNegativeTable(t)
    ensures NonNegative(SumTable(t))
    decreases |t|
  {
    if t != map[] {
      var k :| k in t;
      SumTableRemove(t, k);
      SumTableNonNegative(t - {k});
    }
  }

  lemma AddFour(a: Merged, b: Merged, c: Merged, d: Merged)
    ensures Add(Add(a, b), Add(c, d)) == Add(Add(a, c), Add(b, d))
  {
    JoinHistFour(a.hist, b.hist, c.hist, d.hist);
  }

  lemma JoinHistFour(a: Option<multiset<int>>, b: Option<multiset<int>>, c: Option<multiset<int>>, d: Option<multiset<int>>)
    ensures JoinHist(JoinHist(a, b), JoinHist(c, d)) == JoinHist(JoinHist(a, c), JoinHist(b, d))
  {
    ghost var e := multiset{};
    var x := if a.Some? then a.value else e;
    var y := if b.Some? then b.value else e;
    var z := if c.Some? then c.value else e;
    var u := if d.Some? then d.value else e;
    assert (x + y) + (z + u) == (x + z) + (y + u);
    assert forall m: multiset<int> :: m + e == m && e + m == m;
  }

  lemma SumTableAt(t: map<string, Merged>, k: string)
    ensures SumTable(t) == Add(Get(t, k), SumTable(t - {k}))
  {
    if k in t { SumTableRemove(t, k); } else { assert t - {k} == t; }
  }

  lemma JoinTablesRemove(a: map<string, Merged>, b: map<string, Merged>, k: string)
    ensures JoinTables(a, b) - {k} == JoinTables(a - {k}, b - {k})
  {
    var l, r := JoinTables(a, b) - {k}, JoinTables(a - {k}, b - {k});
    assert l.Keys == r.Keys;
    forall j | j in l ensures l[j] == r[j] {
      assert Get(a, j) == Get(a - {k}, j) && Get(b, j) == Get(b - {k}, j);
    }
  }

  /** Summing two tables together is summing each and adding. */
  lemma {:induction false} SumTableJoin(a: map<string, Merged>, b: map<string, Merged>)
    ensures SumTable(JoinTables(a, b)) == Add(SumTable(a), SumTable(b))
    decreases |a.Keys + b.Keys|
  {
    hide Add, SumTable, JoinTables;
    if k :| k in a.Keys + b.Keys {
      SmallerTables(a, b, k);
      SumTableJoin(a - {k}, b - {k});
      SumTableJoinStep(a, b, k);
    } else {
      SumTableJoinEmpty(a, b);
    }
  }

  lemma SumTableJoinEmpty(a: map<string, Merged>, b: map<string, Merged>)
    requires a.Keys + b.Keys == {}
    ensures SumTable(JoinTables(a, b)) == Add(SumTable(a), SumTable(b))
  {
    assert a.Keys == {} && b.Keys == {};
    assert a == map[] && b == map[];
    assert JoinTables(a, b) == map[];
  }

  lemma SmallerTables(a: map<string, Merged>, b: map<string, Merged>, k: string)
    requires k in a.Keys + b.Keys
    ensures |(a - {k}).Keys + (b - {k}).Keys| < |a.Keys + b.Keys|
  {
    assert (a - {k}).Keys + (b - {k}).Keys == (a.Keys + b.Keys) - {k};
  }

  lemma SumTableJoinStep(a: map<string, Merged>, b: map<string, Merged>, k: string)
    requires SumTable(JoinTables(a - {k}, b - {k})) == Add(SumTable(a - {k}), SumTable(b - {k}))
    ensures SumTable(JoinTables(a, b)) == Add(SumTable(a), SumTable(b))
  {
    hide Add, SumTable, JoinTables;
    SumTableAt(JoinTables(a, b), k);
    JoinTablesRemove(a, b, k);
    JoinTablesAt(a, b, k);
    SumTableAt(a, k);
    SumTableAt(b, k);
    AddFour(Get(a, k), Get(b, k), SumTable(a - {k}), SumTable(b - {k}));
  }

  ghost predicate AllValid(ws: multiset<WorkerResult>) { forall w | w in ws :: ValidResult(w) }

  /** The grand total is the sum of the per-op table, and nothing in it is negative. */
  lemma {:induction false} FoldTotal(ws: multiset<WorkerResult>)
    ensures Fold(ws).total == SumTable(Fold(ws).perOp)
    ensures AllValid(ws) ==> NonNegativeTable(Fold(ws).perOp)
    decreases |ws|
  {
    if ws != multiset{} {
      var w :| w in ws;
      FoldRemove(ws, w);
      var rest := ws - multiset{w};
      FoldTotal(rest);
      SumTableJoin(TableOf(w), Fold(rest).perOp);
    }
  }

  // ---------------------------------------------------------------- algorithm

  lemma MergeOne(w: WorkerResult, exact: map<string, Merged>, op: string)
    requires ValidResult(w) && NonNegativeTable(exact) && op in w.perOp
    ensures AddSat(Clamp(Get(exact, op)), Contribution(w.perOp[op], w.success))
         == Clamp(Add(Contribution(w.perOp[op], w.success), Get(exact, op)))
  {
    var own := TableOf(w)[op];
    assert own == Contribution(w.perOp[op], w.success);
    ClampAdd(Get(exact, op), own);
    AddCommutes(Get(exact, op), own);
  }

  // The running table has the ops of the exact one and their histograms.
  ghost predicate SameShape(t: map<string, Merged>, exact: map<string, Merged>) {
    t.Keys == exact.Keys && forall k | k in t :: t[k].hist == exact[k].hist
  }

  // A table to which every op of the worker has been added is the joined one.
  lemma MergedIs(merged: map<string, Merged>, w: WorkerResult, exact: map<string, Merged>)
    requires merged.Keys == exact.Keys + w.perOp.Keys
    requires forall k | k in w.perOp :: merged[k] == Clamp(Add(Contribution(w.perOp[k], w.success), Get(exact, k)))
    requires forall k | k in exact && k !in w.perOp :: merged[k] == Clamp(exact[k])
    ensures merged == ClampTable(JoinTables(TableOf(w), exact))
  {
    var t := JoinTables(TableOf(w), exact);
    hide Add, Clamp, SumTable, Contribution;
    assert merged.Keys == t.Keys;
    forall k | k in t ensures merged[k] == Clamp(t[k]) {
      JoinTablesAt(TableOf(w), exact, k);
      if k !in w.perOp { AddZero(exact[k]); }
    }
  }

  lemma MergedShape(merged: map<string, Merged>, w: WorkerResult, exact: map<string, Merged>)
    requires merged.Keys == exact.Keys + w.perOp.Keys
    requires forall k | k in w.perOp :: merged[k].hist == Add(Get(exact, k), Contribution(w.perOp[k], w.success)).hist
    requires forall k | k in exact && k !in w.perOp :: merged[k].hist == exact[k].hist
    ensures SameShape(merged, JoinTables(TableOf(w), exact))
  {
    var t := JoinTables(TableOf(w), exact);
    hide SumTable;
    assert merged.Keys == t.Keys;
    forall k | k in t ensures merged[k].hist == t[k].hist {
      JoinTablesAt(TableOf(w), exact, k);
      if k in w.perOp { AddCommutes(Get(exact, k), TableOf(w)[k]); } else { AddZero(exact[k]); }
    }
  }

  lemma ClampShape(a: Merged, b: Merged, own: Merged)
    requires a.hist == b.hist
    ensures AddSat(a, own).hist == Add(b, own).hist
  {}

  /**
   Merges one worker's ops into the running table, in whatever order its map yields
   them. The ops and their histograms are those of the join; so are the counters,
   cut off once, as long as none is negative.
   */
  method MergeWorker(merged: map<string, Merged>, w: WorkerResult, ghost exact: map<string, Merged>)
    returns (merged': map<string, Merged>)
    requires SameShape(merged, exact)
    ensures SameShape(merged', JoinTables(TableOf(w), exact))
    ensures ValidResult(w) && NonNegativeTable(exact) && merged == ClampTable(exact) ==>
              merged' == ClampTable(JoinTables(TableOf(w), exact))
  {
    assert Clamp(ZERO) == ZERO;
    ghost var counted := ValidResult(w) && NonNegativeTable(exact) && merged == ClampTable(exact);
    hide Add, AddSat, Clamp, SumTable, Contribution, ValidResult, JoinTables, TableOf, NonNegativeTable;
    merged' := merged;
    var todo := w.perOp.Keys;
    ghost var done: set<string> := {};
    while todo != {}
      invariant todo + done == w.perOp.Keys && todo !! done
      invariant merged'.Keys == exact.Keys + done
      invariant forall k | k in done :: merged'[k].hist == Add(Get(exact, k), Contribution(w.perOp[k], w.success)).hist
      invariant forall k | k in exact && k !in done :: merged'[k].hist == exact[k].hist
      invariant counted ==>
        && (forall k | k in done :: merged'[k] == Clamp(Add(Contribution(w.perOp[k], w.success), Get(exact, k))))
        && (forall k | k in exact && k !in done :: merged'[k] == Clamp(exact[k]))
    {
      var op :| op in todo;
      ClampShape(Get(merged', op), Get(exact, op), Contribution(w.perOp[op], w.success));
      if counted {
        assert Get(merged', op) == Clamp(Get(exact, op));
        MergeOne(w, exact, op);
      }
      merged' := merged'[op := AddSat(Get(merged', op), Contribution(w.perOp[op], w.success))];
      todo, done := todo - {op}, done + {op};
    }
    assert done == w.perOp.Keys;
    MergedShape(merged', w, exact);
    if counted { MergedIs(merged', w, exact); }
  }

  lemma AddZero(a: Merged)
    ensures Add(ZERO, a) == a
  {}

  lemma AddCommutes(a: Merged, b: Merged)
    ensures Add(a, b) == Add(b, a)
  {
    if a.hist.Some? && b.hist.Some? {
      assert a.hist.value + b.hist.value == b.hist.value + a.hist.value;
    }
  }

  /** Adds up the merged ops, in whatever order the table yields them. */
  method MergeOps(merged: map<string, Merged>, ghost exact: map<string, Merged>) returns (total: Merged)
    requires SameShape(merged, exact)
    ensures total.hist == SumTable(exact).hist
    ensures NonNegativeTable(exact) && merged == ClampTable(exact) ==> total == Clamp(SumTable(exact))
  {
    ghost var counted := NonNegativeTable(exact) && merged == ClampTable(exact);
    total := ZERO;
    var todo := merged.Keys;
    ghost var done: map<string, Merged> := map[];
    while todo != {}
      invariant done.Keys + todo == exact.Keys && done.Keys !! todo
      invariant forall k | k in done :: done[k] == exact[k]
      invariant total.hist == SumTable(done).hist
      invariant counted ==> total == Clamp(SumTable(done))
    {
      var op :| op in todo;
      todo := todo - {op};
      ghost var before := done;
      done := done[op := exact[op]];
      assert done - {op} == before;
      AddOneOp(total, merged[op], before, op, exact[op], counted);
      total := AddSat(total, merged[op]);
    }
    assert done == exact;
  }

  lemma AddOneOp(total: Merged, line: Merged, before: map<string, Merged>, op: string, exact: Merged, counted: bool)
    requires op !in before && line.hist == exact.hist && total.hist == SumTable(before).hist
    requires counted ==> total == Clamp(SumTable(before)) && line == Clamp(exact) && NonNegative(exact) && NonNegativeTable(before)
    ensures AddSat(total, line).hist == SumTable(before[op := exact]).hist
    ensures counted ==> AddSat(total, line) == Clamp(SumTable(before[op := exact]))
  {
    var done := before[op := exact];
    assert done - {op} == before;
    SumTableRemove(done, op);
    AddCommutes(SumTable(before), exact);
    ClampShape(total, SumTable(before), line);
    if counted {
      SumTableNonNegative(before);
      ClampAdd(SumTable(before), exact);
    }
  }

  lemma FoldStep(workers: seq<WorkerResult>, i: nat)
    requires i < |workers|
    ensures Fold(multiset(workers[..i + 1])) == Join(One(workers[i]), Fold(multiset(workers[..i])))
  {
    assert workers[..i + 1] == workers[..i] + [workers[i]];
    FoldRemove(multiset(workers[..i + 1]), workers[i]);
    assert multiset(workers[..i + 1]) - multiset{workers[i]} == multiset(workers[..i]);
  }

  /**
   What any walk over the results must come to: everything but the counters in any
   case, and the counters, cut off once, if none is negative. (With negative ones
   the code's sums depend on the order: `Saturation.OrderFreeIff`.)
   */
  ghost predicate SummaryFor(ws: multiset<WorkerResult>, s: Summary) {
    var a := Summarize(ws);
    && SameShape(s.perOp, a.perOp) && s.total.hist == a.total.hist && s.perWorker == ws
    && s.window == a.window && s.misaligned == a.misaligned && s.successes == a.successes && s.missing == a.missing
    && (AllValid(ws) ==> s == a)
  }

  /** Follows `aggregate`. */
  method Aggregate(workers: seq<WorkerResult>) returns (summary: Summary)
    ensures SummaryFor(multiset(workers), summary)
  {
    hide *;
    var merged: map<string, Merged> := map[];
    var window, successes, missing := NoWindow, 0, 0;
    ghost var acc := EMPTY;
    ghost var counted := AllValid(multiset(workers));
    EmptyWalk(workers, merged);
    for i := 0 to |workers|
      invariant acc == Fold(multiset(workers[..i])) && SameShape(merged, acc.perOp)
      invariant counted ==> AllValid(multiset(workers)) && merged == ClampTable(acc.perOp)
      invariant window == acc.window && successes == acc.successes && missing == acc.missing
    {
      var w := workers[i];
      if counted { PrefixCounted(workers, i); }
      merged := MergeWorker(merged, w, acc.perOp);
      acc := NextAcc(workers, i, acc);
      window := Meet(WindowOf(w), window);
      successes := (if w.success then 1 else 0) + successes;
      missing := (if LacksHistogram(w) then 1 else 0) + missing;
    }
    assert workers[..|workers|] == workers;
    if counted { PrefixCounted(workers, |workers|); }
    var total := MergeOps(merged, acc.perOp);
    var effective := EffectiveWindow(window);
    summary := Summary(merged, total, multiset(workers), effective.0, effective.1, successes, missing);
    WalkIsSummary(multiset(workers), acc, merged, total);
  }

  lemma EmptyWalk(workers: seq<WorkerResult>, merged: map<string, Merged>)
    requires merged == map[]
    ensures EMPTY == Fold(multiset(workers[..0])) && SameShape(merged, EMPTY.perOp) && merged == ClampTable(EMPTY.perOp)
    ensures EMPTY.window == NoWindow && EMPTY.successes == 0 && EMPTY.missing == 0
  {
    assert multiset(workers[..0]) == multiset{};
  }

  lemma SummaryOf(ws: multiset<WorkerResult>)
    ensures var a := Fold(ws);
      Summarize(ws) == Summary(ClampTable(a.perOp), Clamp(SumTable(a.perOp)), ws,
                               EffectiveWindow(a.window).0, EffectiveWindow(a.window).1, a.successes, a.missing)
  {
    FoldTotal(ws);
  }

  lemma WalkIsSummary(ws: multiset<WorkerResult>, acc: Acc, merged: map<string, Merged>, total: Merged)
    requires acc == Fold(ws) && SameShape(merged, acc.perOp) && total.hist == SumTable(acc.perOp).hist
    requires AllValid(ws) ==> merged == ClampTable(acc.perOp) && total == Clamp(SumTable(acc.perOp))
    ensures SummaryFor(ws, Summary(merged, total, ws, EffectiveWindow(acc.window).0, EffectiveWindow(acc.window).1,
                                   acc.successes, acc.missing))
  {
    SummaryOf(ws);
    hide Fold, EffectiveWindow, SumTable;
  }

  lemma NextAcc(workers: seq<WorkerResult>, i: nat, acc: Acc) returns (next: Acc)
    requires i < |workers| && acc == Fold(multiset(workers[..i]))
    ensures next == Fold(multiset(workers[..i + 1]))
    ensures next.perOp == JoinTables(TableOf(workers[i]), acc.perOp)
    ensures next.window == Meet(WindowOf(workers[i]), acc.window)
    ensures next.successes == (if workers[i].success then 1 else 0) + acc.successes
    ensures next.missing == (if LacksHistogram(workers[i]) then 1 else 0) + acc.missing
  {
    FoldStep(workers, i);
    next := Join(One(workers[i]), acc);
  }

  lemma PrefixCounted(workers: seq<WorkerResult>, i: nat)
    requires i <= |workers| && AllValid(multiset(workers))
    ensures NonNegativeTable(Fold(multiset(workers[..i])).perOp)
    ensures i < |workers| ==> ValidResult(workers[i])
  {
    forall w | w in multiset(workers[..i]) ensures ValidResult(w) {
      assert w in workers[..i];
      assert w in multiset(workers);
    }
    FoldTotal(multiset(workers[..i]));
    if i < |workers| { assert workers[i] in multiset(workers); }
  }

  // -------------------------------------------------- what the summary promises

  ghost predicate ErrorsWithinOps(t: map<string, Merged>) { forall k | k in t :: t[k].errors <= t[k].ops }

  lemma {:induction false} SumTableErrors(t: map<string, Merged>)
    requires ErrorsWithinOps(t)
    ensures SumTable(t).errors <= SumTable(t).ops
    decreases |t|
  {
    if t != map[] {
      var k :| k in t;
      SumTableRemove(t, k);
      SumTableErrors(t - {k});
    }
  }

  lemma {:induction false} FoldErrors(ws: multiset<WorkerResult>)
    requires forall w | w in ws :: ErrorsWithinOps(TableOf(w))
    ensures ErrorsWithinOps(Fold(ws).perOp)
    decreases |ws|
  {
    if ws != multiset{} {
      var w :| w in ws;
      FoldRemove(ws, w);
      FoldErrors(ws - multiset{w});
    }
  }

  /** If no worker reports more errors than ops, neither does any merged line, saturated or not. */
  lemma ErrorsNeverExceedOps(ws: multiset<WorkerResult>)
    requires forall w | w in ws :: ErrorsWithinOps(TableOf(w))
    ensures Summarize(ws).total.errors <= Summarize(ws).total.ops
    ensures ErrorsWithinOps(Summarize(ws).perOp)
  {
    FoldErrors(ws);
    FoldTotal(ws);
    SumTableErrors(Fold(ws).perOp);
  }

  // The samples one worker lends to an op: none unless it succeeded and its histogram can be read.
  ghost function Lent(w: WorkerResult, op: string): multiset<int> {
    if w.success && op in w.perOp && w.perOp[op].hist.Samples? then w.perOp[op].hist.bag else multiset{}
  }

  /** All samples of an op, over the successful workers, with multiplicity. */
  ghost function SamplesOf(ws: multiset<WorkerResult>, op: string): multiset<int> {
    if ws == multiset{} then multiset{} else
      var w :| w in ws;
      Lent(w, op) + SamplesOf(ws - multiset{w}, op)
  }

  function Bag(h: Option<multiset<int>>): multiset<int> { if h.Some? then h.value else multiset{} }

  /** An op's merged histogram holds exactly the samples of the successful workers. */
  lemma {:induction false} OnlySuccessfulSamples(ws: multiset<WorkerResult>, op: string)
    ensures Bag(Get(Fold(ws).perOp, op).hist) == SamplesOf(ws, op)
    decreases |ws|
  {
    if ws != multiset{} {
      var w :| w in ws && SamplesOf(ws, op) == Lent(w, op) + SamplesOf(ws - multiset{w}, op);
      var rest := ws - multiset{w};
      FoldRemove(ws, w);
      OnlySuccessfulSamples(rest, op);
      hide Fold, SamplesOf, JoinTables, TableOf, Add, Get, Bag, Lent;
      LentIs(w, op);
      JoinTablesAt(TableOf(w), Fold(rest).perOp, op);
      AddSamples(Get(TableOf(w), op), Get(Fold(rest).perOp, op));
    }
  }

  lemma LentIs(w: WorkerResult, op: string)
    ensures Bag(Get(TableOf(w), op).hist) == Lent(w, op)
  {}

  lemma AddSamples(a: Merged, b: Merged)
    ensures Bag(Add(a, b).hist) == Bag(a.hist) + Bag(b.hist)
  {}

  ghost predicate Inside(t: int, w: WorkerResult) { w.start <= t <= w.end }

  ghost predicate Contributes(ws: multiset<WorkerResult>, w: WorkerResult) { w in ws && HasCounters(w) }

  /** The results with counters, as often as they occur. */
  ghost function Contributors(ws: multiset<WorkerResult>): (c: multiset<WorkerResult>)
    ensures forall w :: c[w] == if HasCounters(w) then ws[w] else 0
    decreases |ws|
  {
    if ws == multiset{} then multiset{} else
      var w :| w in ws;
      (if HasCounters(w) then multiset{w} else multiset{}) + Contributors(ws - multiset{w})
  }

  lemma ContributorsStep(rest: multiset<WorkerResult>, w: WorkerResult)
    ensures Contributors(rest + multiset{w}) == (if HasCounters(w) then multiset{w} else multiset{}) + Contributors(rest)
  {}

  // `v` is the intersection of the contributors' windows and counts them.
  ghost predicate Meets(ws: multiset<WorkerResult>, v: Window) {
    match v
    case NoWindow => |Contributors(ws)| == 0 && forall w | w in ws :: !HasCounters(w)
    case Window(n, s, e, d) =>
      && n == |Contributors(ws)| >= 1
      && (forall w | Contributes(ws, w) :: w.start <= s && e <= w.end && d <= w.duration)
      && (exists w :: Contributes(ws, w) && w.start == s)
      && (exists w :: Contributes(ws, w) && w.end == e)
      && (exists w :: Contributes(ws, w) && w.duration == d)
  }

  lemma MeetsStep(rest: multiset<WorkerResult>, v: Window, w: WorkerResult)
    requires Meets(rest, v)
    ensures Meets(rest + multiset{w}, Meet(WindowOf(w), v))
  {
    var ws := rest + multiset{w};
    ContributorsStep(rest, w);
    hide Contributors, HasCounters;
    assert forall x | Contributes(rest, x) :: Contributes(ws, x);
    assert forall x | Contributes(ws, x) :: x == w || Contributes(rest, x);
    assert HasCounters(w) ==> Contributes(ws, w);
  }

  lemma {:induction false} FoldWindow(ws: multiset<WorkerResult>)
    ensures Meets(ws, Fold(ws).window)
    decreases |ws|
  {
    if ws != multiset{} {
      var w :| w in ws;
      FoldRemove(ws, w);
      var rest := ws - multiset{w};
      FoldWindow(rest);
      hide Fold, Meets, Contributors;
      MeetsStep(rest, Fold(rest).window, w);
      assert rest + multiset{w} == ws;
    }
  }

  ghost predicate Measured(ws: multiset<WorkerResult>, t: int) { forall w | Contributes(ws, w) :: Inside(t, w) }

  /**
   With two or more contributors a window not flagged as misaligned is the length
   of the instants all of them measured, and no longer than any one of them.
   It is flagged exactly when the windows share no interval.
   */
  lemma WindowIsIntersection(ws: multiset<WorkerResult>)
    requires |Contributors(ws)| >= 2
    ensures Fold(ws).window.Window?
    ensures var v := Fold(ws).window;
      && (forall t :: Measured(ws, t) <==> v.start <= t <= v.end)
      && (Summarize(ws).misaligned <==> v.end <= v.start)
      && (!Summarize(ws).misaligned ==>
           Summarize(ws).window == v.end - v.start
           && forall w | Contributes(ws, w) :: Summarize(ws).window <= w.end - w.start)
      && (Summarize(ws).misaligned ==>
           && (forall w | Contributes(ws, w) :: Summarize(ws).window <= w.duration)
           && exists w :: Contributes(ws, w) && w.duration == Summarize(ws).window)
  {
    FoldWindow(ws);
    hide Fold, Contributors, ClampTable, Clamp, HasCounters;
    var v := Fold(ws).window;
    var a :| Contributes(ws, a) && a.start == v.start;
    var b :| Contributes(ws, b) && b.end == v.end;
    forall t ensures Measured(ws, t) <==> v.start <= t <= v.end {
      if Measured(ws, t) {
        assert Inside(t, a) && Inside(t, b);
      }
    }
  }

  // ------------------------------------------------------------ a map's values

  /** The values of a map, with multiplicity: what iterating over it yields, order aside. */
  ghost function Values<K>(m: map<K, WorkerResult>): multiset<WorkerResult> {
    if m == map[] then multiset{} else
      var k :| k in m;
      multiset{m[k]} + Values(m - {k})
  }

  lemma {:induction false} ValuesRemove<K>(m: map<K, WorkerResult>, k: K)
    requires k in m
    ensures Values(m) == multiset{m[k]} + Values(m - {k})
    decreases |m|
  {
    var j :| j in m && Values(m) == multiset{m[j]} + Values(m - {j});
    if j != k {
      assert (m - {j}) - {k} == (m - {k}) - {j};
      ValuesRemove(m - {j}, k);
      ValuesRemove(m - {k}, j);
    }
  }
}
