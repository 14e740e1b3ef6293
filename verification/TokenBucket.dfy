/**
 The worker's rate limiter (crates/cvd-worker/src/rate_limit.rs), over exact reals.
 One bucket belongs to one task, but nothing here depends on that: attempts may come
 from any number of callers, in the order in which they take the lock.
 */
module TokenBucket {
  import opened Types

  datatype State = State(rate: real, capacity: real, tokens: real, lastRefill: real)

  ghost predicate Valid(s: State) { s.rate >= 1.0 && s.capacity > 0.0 && s.tokens <= s.capacity }

  function MinReal(a: real, b: real): real { if a <= b then a else b }

  function MaxReal(a: real, b: real): real { if a <= b then b else a }

  function NewState(ratePerSec: nat, now: real): State {
    var rate := if ratePerSec < 1 then 1.0 else ratePerSec as real;
    State(rate, rate, rate, now)
  }

  function Demand(n: nat): real { if n < 1 then 1.0 else n as real }

  // Tokens that come in between two instants.
  function Income(rate: real, from: real, to: real): real { (to - from) * rate }

  function Refill(s: State, now: real): State {
    s.(tokens := MinReal(s.tokens + Income(s.rate, s.lastRefill, now), s.capacity), lastRefill := now)
  }

  function Granted(s: State, n: nat, now: real): bool {
    Refill(s, now).tokens >= MinReal(Demand(n), s.capacity)
  }

  // One locked section of `acquire`.
  function Attempt(s: State, n: nat, now: real): State {
    var s' := Refill(s, now);
    if Granted(s, n, now) then s'.(tokens := s'.tokens - Demand(n)) else s'
  }

  // How long a refused caller sleeps.
  function Pause(s: State, n: nat, now: real): real
    requires s.rate != 0.0
  {
    (MinReal(Demand(n), s.capacity) - Refill(s, now).tokens) / s.rate
  }

  class TokenBucket {
    const rate: real
    const capacity: real
    var tokens: real
    var lastRefill: real

    ghost function Value(): State
      reads this
    {
      State(rate, capacity, tokens, lastRefill)
    }

    constructor (ratePerSec: nat, now: real)
      ensures Value() == NewState(ratePerSec, now) && Valid(Value())
    {
      var r := if ratePerSec < 1 then 1.0 else ratePerSec as real;
      rate, capacity, tokens, lastRefill := r, r, r, now;
    }

    method TryAcquire(n: nat, now: real) returns (pause: Option<real>)
      requires Valid(Value())
      modifies this
      ensures Value() == Attempt(old(Value()), n, now)
      ensures pause == if Granted(old(Value()), n, now) then None else Some(Pause(old(Value()), n, now))
    {
      var need := if n < 1 then 1.0 else n as real;
      var filled := tokens + (now - lastRefill) * rate;
      tokens := if filled <= capacity then filled else capacity;
      lastRefill := now;
      var least := if need <= capacity then need else capacity;
      if tokens >= least {
        tokens := tokens - need;
        return None;
      }
      pause := Some((least - tokens) / rate);
    }

    /**
     `acquire` with nobody else at the bucket: it returns after at most one sleep,
     however much longer than asked that sleep takes, and grants the request at its
     last attempt.
     */
    method Acquire(n: nat, start: real) returns (end: real, sleeps: nat)
      requires Valid(Value()) && lastRefill <= start
      modifies this
      ensures Valid(Value()) && sleeps <= 1 && start <= end && lastRefill == end
      ensures sleeps == 0 <==> Granted(old(Value()), n, start)
      ensures sleeps == 0 ==> end == start
      ensures sleeps == 1 ==> end >= start + Pause(old(Value()), n, start)
      ensures tokens == Refill(old(Value()), end).tokens - Demand(n)
    {
      ghost var before := Value();
      var now := start;
      sleeps := 0;
      while true
        invariant Valid(Value()) && sleeps <= 1
        invariant sleeps == 0 ==> Value() == before && now == start
        invariant sleeps == 1 ==> !Granted(before, n, start) && Value() == Refill(before, start)
        invariant sleeps == 1 ==> now >= start + Pause(before, n, start)
        invariant start <= now
        decreases 1 - sleeps
      {
        ghost var s := Value();
        var pause := TryAcquire(n, now);
        if sleeps == 1 { GrantedAfterPause(before, n, start, now); }
        if pause.None? {
          if sleeps == 1 { RefillTwice(before, start, now); }
          return now, sleeps;
        }
        PauseIsPositive(before, n, start);
        var late: real :| late >= 0.0;
        now := now + pause.value + late;
        sleeps := sleeps + 1;
      }
    }
  }

  lemma RefillTwice(s: State, t: real, u: real)
    requires Valid(s) && s.lastRefill <= t <= u
    ensures Refill(Refill(s, t), u) == Refill(s, u)
  {
    IncomeAdds(s.rate, s.lastRefill, t, u);
    hide Income;
  }

  lemma IncomeAdds(rate: real, t: real, u: real, v: real)
    requires rate >= 0.0 && t <= u <= v
    ensures Income(rate, t, v) == Income(rate, t, u) + Income(rate, u, v)
    ensures Income(rate, t, u) >= 0.0 && Income(rate, u, v) >= 0.0
  {}

  lemma PauseIsPositive(s: State, n: nat, t: real)
    requires Valid(s) && !Granted(s, n, t)
    ensures Pause(s, n, t) > 0.0
  {
  }

  /** A refused caller is let through exactly from the end of its sleep on, if nobody else came in between. */
  lemma GrantedAfterPause(s: State, n: nat, t: real, u: real)
    requires Valid(s) && s.lastRefill <= t <= u && !Granted(s, n, t)
    ensures Granted(Attempt(s, n, t), n, u) <==> u >= t + Pause(s, n, t)
  {
    var missing := MinReal(Demand(n), s.capacity) - Refill(s, t).tokens;
    PauseEarns(s.rate, t, u, missing);
    hide Income;
  }

  lemma PauseEarns(rate: real, t: real, u: real, missing: real)
    requires rate > 0.0
    ensures u >= t + missing / rate <==> Income(rate, t, u) >= missing
  {
    var d := missing / rate;
    assert d * rate == missing;
    if u - t >= d { assert (u - t) * rate >= d * rate; } else { assert (u - t) * rate < d * rate; }
  }

  // ------------------------------------------------------------ any sequence of attempts

  datatype Request = Request(n: nat, at: real)

  ghost predicate InOrder(s: State, rs: seq<Request>) {
    && (rs != [] ==> s.lastRefill <= rs[0].at)
    && forall i, j | 0 <= i < j < |rs| :: rs[i].at <= rs[j].at
  }

  function After(s: State, rs: seq<Request>): State {
    if rs == [] then s else
      var before := After(s, rs[..|rs| - 1]);
      Attempt(before, rs[|rs| - 1].n, rs[|rs| - 1].at)
  }

  // Tokens granted by the attempts from the `k`-th on.
  function GrantedFrom(s: State, rs: seq<Request>, k: nat): real
    requires k <= |rs|
    decreases |rs|
  {
    if |rs| == k then 0.0 else
      var last := rs[|rs| - 1];
      GrantedFrom(s, rs[..|rs| - 1], k)
      + (if Granted(After(s, rs[..|rs| - 1]), last.n, last.at) then Demand(last.n) else 0.0)
  }

  lemma {:induction false} AfterIsValid(s: State, rs: seq<Request>)
    requires Valid(s) && InOrder(s, rs)
    ensures Valid(After(s, rs)) && After(s, rs).rate == s.rate && After(s, rs).capacity == s.capacity
    ensures After(s, rs).lastRefill == if rs == [] then s.lastRefill else rs[|rs| - 1].at
  {
    if rs != [] { AfterIsValid(s, rs[..|rs| - 1]); }
  }

  ghost function Spent(s: State, n: nat, now: real): real { if Granted(s, n, now) then Demand(n) else 0.0 }

  lemma AttemptSpends(s: State, n: nat, now: real)
    ensures Attempt(s, n, now).tokens + Spent(s, n, now) <= s.capacity
    ensures Attempt(s, n, now).tokens + Spent(s, n, now) <= s.tokens + Income(s.rate, s.lastRefill, now)
    ensures Granted(s, n, now) ==> Attempt(s, n, now).tokens >= MinReal(Demand(n), s.capacity) - Demand(n)
  {}

  lemma OneGrant(s: State, rs: seq<Request>, k: nat)
    requires k < |rs|
    ensures var n := |rs| - 1; var before := After(s, rs[..n]);
      && GrantedFrom(s, rs, k) == GrantedFrom(s, rs[..n], k) + Spent(before, rs[n].n, rs[n].at)
      && After(s, rs) == Attempt(before, rs[n].n, rs[n].at)
  {}

  // What is left in the bucket, and what was granted, came out of one full bucket and the refills.
  lemma {:induction false} GrantsComeFromRefills(s: State, rs: seq<Request>, k: nat)
    requires Valid(s) && InOrder(s, rs) && k < |rs|
    ensures GrantedFrom(s, rs, k) + After(s, rs).tokens <= s.capacity + Income(s.rate, rs[k].at, rs[|rs| - 1].at)
    decreases |rs|
  {
    var n := |rs| - 1;
    var front := rs[..n];
    AfterIsValid(s, front);
    var before := After(s, front);
    if k < n {
      GrantsComeFromRefills(s, front, k);
      IncomeAdds(s.rate, rs[k].at, rs[n - 1].at, rs[n].at);
    } else {
      assert GrantedFrom(s, front, k) == 0.0 && Income(s.rate, rs[k].at, rs[n].at) == 0.0;
    }
    hide Income;
    OneGrant(s, rs, k);
    AttemptSpends(before, rs[n].n, rs[n].at);
  }

  // No granted request from the `k`-th on was larger.
  ghost predicate GrantsAtMost(s: State, rs: seq<Request>, k: nat, largest: real) {
    forall i | k <= i < |rs| && Granted(After(s, rs[..i]), rs[i].n, rs[i].at) :: Demand(rs[i].n) <= largest
  }

  lemma FewerGrants(s: State, rs: seq<Request>, k: nat, largest: real)
    requires GrantsAtMost(s, rs, k, largest) && k < |rs|
    ensures GrantsAtMost(s, rs[..|rs| - 1], k, largest)
  {
    var front := rs[..|rs| - 1];
    hide After, Granted;
    forall i | k <= i < |front| && Granted(After(s, front[..i]), front[i].n, front[i].at) ensures Demand(front[i].n) <= largest {
      assert front[..i] == rs[..i];
    }
  }

  lemma LastGrantAtMost(s: State, rs: seq<Request>, k: nat, largest: real)
    requires GrantsAtMost(s, rs, k, largest) && k < |rs|
    ensures var n := |rs| - 1;
      Granted(After(s, rs[..n]), rs[n].n, rs[n].at) ==> Demand(rs[n].n) <= largest
  {}

  /**
   The limit: whatever is asked, by whomever, the tokens granted over any stretch of
   attempts exceed rate times duration by no more than one full bucket, or by the
   largest granted request when that one is bigger than the bucket.
   */
  lemma {:induction false} WindowBound(s: State, rs: seq<Request>, k: nat, largest: real)
    requires Valid(s) && InOrder(s, rs) && k < |rs|
    requires GrantsAtMost(s, rs, k, largest)
    ensures GrantedFrom(s, rs, k) <= Income(s.rate, rs[k].at, rs[|rs| - 1].at) + MaxReal(s.capacity, largest)
    decreases |rs|
  {
    hide *;
    var n := |rs| - 1;
    var before := After(s, rs[..n]);
    OneGrant(s, rs, k);
    if Granted(before, rs[n].n, rs[n].at) {
      GrantsComeFromRefills(s, rs, k);
      LastGrantAtMost(s, rs, k, largest);
      AttemptSpends(before, rs[n].n, rs[n].at);
      PrefixInOrder(s, rs);
      AfterIsValid(s, rs[..n]);
      Overdraw(s.capacity, Demand(rs[n].n), largest);
    } else {
      NothingSpent(before, rs[n].n, rs[n].at);
      PrefixInOrder(s, rs);
      if k < n {
        FewerGrants(s, rs, k, largest);
        WindowBound(s, rs[..n], k, largest);
        IncomeAdds(s.rate, rs[k].at, rs[n - 1].at, rs[n].at);
      } else {
        NoWindow(s, rs, largest);
      }
    }
  }

  lemma PrefixInOrder(s: State, rs: seq<Request>)
    requires Valid(s) && InOrder(s, rs) && rs != []
    ensures s.rate >= 1.0 && InOrder(s, rs[..|rs| - 1])
    ensures forall i, j | 0 <= i < j < |rs| :: rs[i].at <= rs[j].at
  {}

  lemma Overdraw(capacity: real, demand: real, largest: real)
    requires demand <= largest
    ensures capacity - (MinReal(demand, capacity) - demand) <= MaxReal(capacity, largest)
  {}

  lemma NothingSpent(s: State, n: nat, now: real)
    requires !Granted(s, n, now)
    ensures Spent(s, n, now) == 0.0
  {}

  lemma NoWindow(s: State, rs: seq<Request>, largest: real)
    requires Valid(s) && rs != []
    ensures var n := |rs| - 1;
      && GrantedFrom(s, rs[..n], n) == 0.0 && Income(s.rate, rs[n].at, rs[n].at) == 0.0
      && MaxReal(s.capacity, largest) >= 0.0
  {}

  /** The bound is met: an idle bucket grants a full bucket at once, or an oversize request whole. */
  lemma WindowBoundIsTight(ratePerSec: nat, n: nat, t: real)
    requires 1 <= ratePerSec <= n
    ensures var s := NewState(ratePerSec, t);
      GrantedFrom(s, [Request(n, t)], 0) == MaxReal(s.capacity, Demand(n))
  {
    var s := NewState(ratePerSec, t);
    var rs := [Request(n, t)];
    assert rs[..0] == [];
    assert GrantedFrom(s, [], 0) == 0.0;
  }

  // ---------------------------------------------------------------- in plain numbers

  // Operations let through by the attempts from the `k`-th on; asking for none counts as one.
  function LetThrough(s: State, rs: seq<Request>, k: nat): nat
    requires k <= |rs|
    decreases |rs|
  {
    if |rs| == k then 0 else
      var last := rs[|rs| - 1];
      LetThrough(s, rs[..|rs| - 1], k)
      + (if Granted(After(s, rs[..|rs| - 1]), last.n, last.at) then if last.n == 0 then 1 else last.n else 0)
  }

  lemma {:induction false} LetThroughIs(s: State, rs: seq<Request>, k: nat)
    requires k <= |rs|
    ensures LetThrough(s, rs, k) as real == GrantedFrom(s, rs, k)
    decreases |rs|
  {
    if |rs| > k { LetThroughIs(s, rs[..|rs| - 1], k); }
  }

  /**
   A bucket made for `ratePerSec` operations a second (one, if zero) lets through, from one
   attempt to a later one, at most that rate times the seconds between them, plus one second's
   worth or the largest request, whichever is more.
   */
  lemma RateIsKept(ratePerSec: nat, start: real, rs: seq<Request>, k: nat, largest: nat)
    requires InOrder(NewState(ratePerSec, start), rs) && k < |rs|
    requires largest >= 1 && forall i | k <= i < |rs| :: rs[i].n <= largest
    ensures var rate := if ratePerSec == 0 then 1.0 else ratePerSec as real;
      LetThrough(NewState(ratePerSec, start), rs, k) as real
        <= rate * (rs[|rs| - 1].at - rs[k].at) + (if rate >= largest as real then rate else largest as real)
  {
    var s := NewState(ratePerSec, start);
    hide After, Granted, GrantedFrom, LetThrough;
    assert GrantsAtMost(s, rs, k, largest as real);
    WindowBound(s, rs, k, largest as real);
    LetThroughIs(s, rs, k);
    Swapped(s.rate, rs[k].at, rs[|rs| - 1].at);
  }

  lemma Swapped(rate: real, t: real, u: real)
    ensures Income(rate, t, u) == rate * (u - t)
  {}

  /** A new bucket is full: its first request, however large, does not wait. */
  lemma FirstIsLetThrough(ratePerSec: nat, start: real, n: nat, at: real)
    requires start <= at
    ensures Granted(NewState(ratePerSec, start), n, at)
  {
    IncomeAdds(NewState(ratePerSec, start).rate, start, at, at);
  }
}
