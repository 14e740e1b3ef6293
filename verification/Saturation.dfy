/**
 When a saturating sum depends on the order of its terms. The code adds counters with
 i64::saturating_add while walking hash maps; nothing in it rules out negative
 counters, so this says for all terms when the order of the walk shows.
 */
module Saturation {
  import opened Aggregation

  // The running sum, started at zero, term after term.
  function SatSum(xs: seq<int>): int {
    if xs == [] then 0 else SatAdd(SatSum(xs[..|xs| - 1]), xs[|xs| - 1])
  }

  function Gains(xs: seq<int>): nat {
    if xs == [] then 0 else Gains(xs[..|xs| - 1]) + Max(xs[|xs| - 1], 0)
  }

  function Losses(xs: seq<int>): nat {
    if xs == [] then 0 else Losses(xs[..|xs| - 1]) + Max(-xs[|xs| - 1], 0)
  }

  // No order saturates, or all terms have one sign.
  predicate OneWay(xs: seq<int>) {
    Losses(xs) == 0 || Gains(xs) == 0 || (Gains(xs) <= I64_MAX && 0 - Losses(xs) >= I64_MIN)
  }

  function Clip(n: int): int { if n > I64_MAX then I64_MAX else if n < I64_MIN then I64_MIN else n }

  lemma {:induction false} SumOfOneWay(xs: seq<int>)
    requires OneWay(xs)
    ensures SatSum(xs) == Clip(Gains(xs) - Losses(xs))
  {
    if xs != [] { SumOfOneWay(xs[..|xs| - 1]); }
  }

  lemma {:induction false} GainsRemove(xs: seq<int>, k: nat)
    requires k < |xs|
    ensures Gains(xs) == Gains(xs[..k] + xs[k + 1..]) + Max(xs[k], 0)
    ensures Losses(xs) == Losses(xs[..k] + xs[k + 1..]) + Max(-xs[k], 0)
    decreases |xs|
  {
    var n := |xs| - 1;
    var rest := xs[..k] + xs[k + 1..];
    if k < n {
      GainsRemove(xs[..n], k);
      assert rest[..n - 1] == xs[..n][..k] + xs[..n][k + 1..];
    } else {
      assert rest == xs[..n];
    }
  }

  lemma WithoutOne(xs: seq<int>, k: nat)
    requires k < |xs|
    ensures multiset(xs[..k] + xs[k + 1..]) == multiset(xs) - multiset{xs[k]}
  {
    assert xs == xs[..k] + [xs[k]] + xs[k + 1..];
  }

  lemma {:induction false} SameTerms(xs: seq<int>, ys: seq<int>)
    requires multiset(xs) == multiset(ys)
    ensures Gains(xs) == Gains(ys) && Losses(xs) == Losses(ys)
    decreases |xs|
  {
    assert |xs| == |multiset(xs)| == |multiset(ys)| == |ys|;
    if xs != [] {
      var n := |xs| - 1;
      assert xs[n] in multiset(ys);
      var k :| 0 <= k < |ys| && ys[k] == xs[n];
      var rest := ys[..k] + ys[k + 1..];
      WithoutOne(xs, n);
      WithoutOne(ys, k);
      assert xs[..n] + xs[n + 1..] == xs[..n];
      SameTerms(xs[..n], rest);
      GainsRemove(ys, k);
    }
  }

  function Pick(xs: seq<int>, up: bool): seq<int> {
    if xs == [] then []
    else Pick(xs[..|xs| - 1], up) + (if (xs[|xs| - 1] > 0) == up then [xs[|xs| - 1]] else [])
  }

  lemma {:induction false} PickSplits(xs: seq<int>)
    ensures multiset(xs) == multiset(Pick(xs, true)) + multiset(Pick(xs, false))
  {
    if xs != [] {
      var n := |xs| - 1;
      PickSplits(xs[..n]);
      assert xs == xs[..n] + [xs[n]];
      assert multiset(xs) == multiset(xs[..n]) + multiset{xs[n]};
    }
  }

  lemma {:induction false} PickSums(xs: seq<int>)
    ensures Gains(Pick(xs, true)) == Gains(xs) && Losses(Pick(xs, true)) == 0
    ensures Gains(Pick(xs, false)) == 0 && Losses(Pick(xs, false)) == Losses(xs)
  {
    if xs != [] {
      var n := |xs| - 1;
      PickSums(xs[..n]);
      Appended(Pick(xs[..n], true), xs[n]);
      Appended(Pick(xs[..n], false), xs[n]);
      hide Gains, Losses;
      assert Pick(xs, true) == if xs[n] > 0 then Pick(xs[..n], true) + [xs[n]] else Pick(xs[..n], true);
      assert Pick(xs, false) == if xs[n] > 0 then Pick(xs[..n], false) else Pick(xs[..n], false) + [xs[n]];
      SumsStep(xs);
    }
  }

  lemma SumsStep(xs: seq<int>)
    requires xs != []
    ensures var n := |xs| - 1;
      Gains(xs) == Gains(xs[..n]) + Max(xs[n], 0) && Losses(xs) == Losses(xs[..n]) + Max(-xs[n], 0)
  {}

  // Ups before downs and downs before ups come to different sums once a limit is reached.
  lemma LimitsShow(gains: nat, losses: nat)
    requires gains > 0 && losses > 0 && (gains > I64_MAX || 0 - losses < I64_MIN)
    ensures Clip(Clip(gains) - losses) != Clip(Clip(0 - losses) + gains)
  {}

  lemma Appended(xs: seq<int>, x: int)
    ensures Gains(xs + [x]) == Gains(xs) + Max(x, 0) && Losses(xs + [x]) == Losses(xs) + Max(-x, 0)
    ensures SatSum(xs + [x]) == SatAdd(SatSum(xs), x)
  {
    assert (xs + [x])[..|xs|] == xs;
  }

  // Terms of one sign put after any others move the sum one way.
  lemma {:induction false} ThenOneSign(xs: seq<int>, ys: seq<int>)
    requires I64_MIN <= SatSum(xs) <= I64_MAX
    requires Gains(ys) == 0 || Losses(ys) == 0
    ensures SatSum(xs + ys) == Clip(SatSum(xs) + Gains(ys) - Losses(ys))
    decreases |ys|
  {
    if ys == [] {
      assert xs + ys == xs;
    } else {
      var n := |ys| - 1;
      ThenOneSign(xs, ys[..n]);
      assert xs + ys == (xs + ys[..n]) + [ys[n]];
      Appended(xs + ys[..n], ys[n]);
    }
  }

  ghost predicate OrderFree(xs: seq<int>) { forall ys: seq<int> | multiset(ys) == multiset(xs) :: SatSum(ys) == SatSum(xs) }

  /**
   The order of the terms is immaterial exactly when all have one sign or when no
   order can reach a limit: in particular for the non-negative counters a worker
   produces.
   */
  lemma OrderFreeIff(xs: seq<int>)
    ensures OrderFree(xs) <==> OneWay(xs)
  {
    hide *;
    if OneWay(xs) {
      OneWayIsFree(xs);
    } else {
      var ys, zs := TwoOrders(xs);
      FreeMeans(xs, ys);
      FreeMeans(xs, zs);
    }
  }

  lemma OneWayIsFree(xs: seq<int>)
    requires OneWay(xs)
    ensures OrderFree(xs)
  {
    hide SatSum, Gains, Losses;
    SumOfOneWay(xs);
    forall ys: seq<int> | multiset(ys) == multiset(xs) ensures SatSum(ys) == SatSum(xs) {
      SameTerms(xs, ys);
      SumOfOneWay(ys);
    }
  }

  lemma FreeMeans(xs: seq<int>, ys: seq<int>)
    requires multiset(ys) == multiset(xs)
    ensures OrderFree(xs) ==> SatSum(ys) == SatSum(xs)
  {}

  // Ups first, or downs first.
  lemma TwoOrders(xs: seq<int>) returns (ys: seq<int>, zs: seq<int>)
    requires !OneWay(xs)
    ensures multiset(ys) == multiset(xs) && multiset(zs) == multiset(xs) && SatSum(ys) != SatSum(zs)
  {
    hide Pick, SatSum, Gains, Losses;
    var ups, downs := Pick(xs, true), Pick(xs, false);
    PickSplits(xs);
    PickSums(xs);
    LimitsShow(Gains(xs), Losses(xs));
    SumOfOneWay(ups);
    SumOfOneWay(downs);
    ThenOneSign(ups, downs);
    ThenOneSign(downs, ups);
    ys, zs := ups + downs, downs + ups;
    hide *;
    assert multiset(ys) == multiset(ups) + multiset(downs) == multiset(xs);
    assert multiset(zs) == multiset(downs) + multiset(ups) == multiset(xs);
  }
}
