/**
 How a worker maps the master's clock to its own (crates/cvd-worker/src/clock.rs:26-70)
 and back (crates/cvd-worker/src/lifecycle.rs:1095-1099).

 A local instant is a number of nanoseconds; the master speaks in whole milliseconds.
 Both clocks run at the same rate: when a worker's clock reads x nanoseconds, the
 master's reads x + skew, for a skew of that worker nobody knows.
 */
module Clock {

  const MS: int := 1_000_000
  const MAX_RTT: int := 5_000 * MS
  const I64_MAX: int := 0x7FFF_FFFF_FFFF_FFFF
  const I64_MIN: int := -0x8000_0000_0000_0000

  function Saturate(n: int): int { if n > I64_MAX then I64_MAX else if n < I64_MIN then I64_MIN else n }

  predicate IsI64(n: int) { I64_MIN <= n <= I64_MAX }

  // The elapsed time from `a` to `b`, zero when `b` is not later.
  function Since(b: int, a: int): int { if b > a then b - a else 0 }

  datatype Offset = Offset(localAnchor: int, masterAnchorMs: int)

  function Refine(o: Offset, masterNowMs: int, send: int, recv: int): Offset {
    var rtt := Since(recv, send);
    if rtt > MAX_RTT then o else Offset(recv, Saturate(masterNowMs + rtt / MS / 2))
  }

  // A difference of two 64-bit times that does not fit wraps to a negative number, which counts as zero.
  function Delta(difference: int): int { if difference <= I64_MAX then difference else 0 }

  // `earliest` is the first instant the platform can represent.
  function ToLocal(o: Offset, targetMs: int, earliest: int): int {
    if targetMs >= o.masterAnchorMs then o.localAnchor + Delta(targetMs - o.masterAnchorMs) * MS
    else
      var back := o.localAnchor - Delta(o.masterAnchorMs - targetMs) * MS;
      if back >= earliest then back else o.localAnchor
  }

  function ToMaster(o: Offset, now: int): int {
    Saturate(o.masterAnchorMs + Saturate(Since(now, o.localAnchor) / MS))
  }

  class MasterClockOffset {
    var localAnchor: int
    var masterAnchorMs: int

    ghost function Value(): Offset
      reads this
    {
      Offset(localAnchor, masterAnchorMs)
    }

    constructor FromResponse(masterNowMs: int, recv: int)
      ensures Value() == Offset(recv, masterNowMs)
    {
      localAnchor, masterAnchorMs := recv, masterNowMs;
    }

    method RefineWith(masterNowMs: int, send: int, recv: int)
      modifies this
      ensures Value() == Refine(old(Value()), masterNowMs, send, recv)
    {
      var rtt := Since(recv, send);
      if rtt > MAX_RTT { return; }
      var half := rtt / MS / 2;
      localAnchor := recv;
      masterAnchorMs := Saturate(masterNowMs + half);
    }
  }

  // ------------------------------------------------------------------------ inverse

  /** Going to the local clock and back is exact from the anchor on, up to the largest difference that fits, and nowhere else. */
  lemma RoundTrip(o: Offset, targetMs: int, earliest: int)
    requires IsI64(o.masterAnchorMs) && IsI64(targetMs)
    ensures ToMaster(o, ToLocal(o, targetMs, earliest)) == targetMs <==> 0 <= targetMs - o.masterAnchorMs <= I64_MAX
  {
    if targetMs >= o.masterAnchorMs {
      assert Delta(targetMs - o.masterAnchorMs) * MS / MS == Delta(targetMs - o.masterAnchorMs);
    }
  }

  /** The other way round, a local instant comes back less than a millisecond early. */
  lemma RoundTripLocal(o: Offset, now: int, earliest: int)
    requires IsI64(o.masterAnchorMs) && o.localAnchor <= now
    requires IsI64((now - o.localAnchor) / MS) && IsI64(o.masterAnchorMs + (now - o.localAnchor) / MS)
    ensures ToLocal(o, ToMaster(o, now), earliest) <= now < ToLocal(o, ToMaster(o, now), earliest) + MS
  {
  }

  // ---------------------------------------------------------------------- start skew

  // A reply: sent at `send`, answered at `stamped`, received at `recv`, all on the worker's clock.
  datatype Reply = Reply(send: int, stamped: int, recv: int)

  ghost predicate Honest(r: Reply) { r.send <= r.stamped <= r.recv }

  function Rtt(r: Reply): int { Since(r.recv, r.send) }

  // What the master wrote into the reply.
  function Stamp(r: Reply, skew: int): int { (r.stamped + skew) / MS }

  function Refined(o: Offset, r: Reply, skew: int): Offset { Refine(o, Stamp(r, skew), r.send, r.recv) }

  function AfterReplies(o: Offset, replies: seq<Reply>, skew: int): Offset {
    if replies == [] then o
    else Refined(AfterReplies(o, replies[..|replies| - 1], skew), replies[|replies| - 1], skew)
  }

  // The local instant at which the master's clock reaches `targetMs`.
  function TrueInstant(targetMs: int, skew: int): int { targetMs * MS - skew }

  // `ToLocal` is neither cut off by the platform's first instant nor by the width of the difference.
  ghost predicate Representable(o: Offset, targetMs: int, earliest: int) {
    && -I64_MAX <= targetMs - o.masterAnchorMs <= I64_MAX
    && (targetMs >= o.masterAnchorMs || o.localAnchor - (o.masterAnchorMs - targetMs) * MS >= earliest)
  }

  /** One good reply bounds the error: at most half the round trip early, half plus two milliseconds late. */
  lemma ReplyBoundsError(o: Offset, r: Reply, skew: int, targetMs: int, earliest: int)
    requires Honest(r) && Rtt(r) <= MAX_RTT
    requires IsI64(Stamp(r, skew) + Rtt(r) / MS / 2)
    requires Representable(Refined(o, r, skew), targetMs, earliest)
    ensures var error := ToLocal(Refined(o, r, skew), targetMs, earliest) - TrueInstant(targetMs, skew);
      -Rtt(r) <= 2 * error < Rtt(r) + 4 * MS
  {
    var stamp, half := Stamp(r, skew), Rtt(r) / MS / 2;
    assert stamp * MS <= r.stamped + skew < stamp * MS + MS;
    assert half * 2 * MS <= Rtt(r) < half * 2 * MS + 2 * MS;
    var error := ToLocal(Refined(o, r, skew), targetMs, earliest) - TrueInstant(targetMs, skew);
    assert error == r.recv - (stamp + half) * MS + skew;
  }

  // Replies slower than five seconds leave the clock as it was.
  lemma {:induction false} SlowRepliesIgnored(o: Offset, replies: seq<Reply>, k: nat, skew: int)
    requires k <= |replies| && forall i | k <= i < |replies| :: Rtt(replies[i]) > MAX_RTT
    ensures AfterReplies(o, replies, skew) == AfterReplies(o, replies[..k], skew)
    decreases |replies|
  {
    if |replies| > k {
      SlowRepliesIgnored(o, replies[..|replies| - 1], k, skew);
      assert replies[..|replies| - 1][..k] == replies[..k];
    } else {
      assert replies[..k] == replies;
    }
  }

  /** A reply that took more than five seconds is ignored; any other becomes the new anchor. */
  lemma FiveSeconds(o: Offset, r: Reply, skew: int)
    requires Honest(r)
    ensures r.recv - r.send > 5_000_000_000 ==> Refined(o, r, skew) == o
    ensures r.recv - r.send <= 5_000_000_000 ==> Refined(o, r, skew).localAnchor == r.recv
  {}

  // `k` is the last reply that was fast enough to be used.
  ghost predicate LastGood(replies: seq<Reply>, k: nat) {
    k < |replies| && Rtt(replies[k]) <= MAX_RTT && forall i | k < i < |replies| :: Rtt(replies[i]) > MAX_RTT
  }

  /** After any number of barrier replies the last good one decides how far off the start is. */
  lemma StartError(o: Offset, replies: seq<Reply>, k: nat, skew: int, targetMs: int, earliest: int)
    requires LastGood(replies, k) && Honest(replies[k])
    requires IsI64(Stamp(replies[k], skew) + Rtt(replies[k]) / MS / 2)
    requires Representable(AfterReplies(o, replies, skew), targetMs, earliest)
    ensures var error := ToLocal(AfterReplies(o, replies, skew), targetMs, earliest) - TrueInstant(targetMs, skew);
      -Rtt(replies[k]) <= 2 * error < Rtt(replies[k]) + 4 * MS
  {
    SlowRepliesIgnored(o, replies, k + 1, skew);
    assert replies[..k + 1][..k] == replies[..k];
    ReplyBoundsError(AfterReplies(o, replies[..k], skew), replies[k], skew, targetMs, earliest);
  }

  datatype Worker = Worker(first: Offset, replies: seq<Reply>, good: nat, skew: int, earliest: int)
  {
    ghost predicate Synchronised(targetMs: int) {
      && LastGood(replies, good) && Honest(replies[good])
      && IsI64(Stamp(replies[good], skew) + Rtt(replies[good]) / MS / 2)
      && Representable(AfterReplies(first, replies, skew), targetMs, earliest)
    }

    function Start(targetMs: int): int { ToLocal(AfterReplies(first, replies, skew), targetMs, earliest) }

    // The master's clock, in nanoseconds, when this worker starts.
    function StartOnMaster(targetMs: int): int { Start(targetMs) + skew }
  }

  /** Two workers given the same start time begin within half the sum of their round trips, and two milliseconds. */
  lemma StartSkew(a: Worker, b: Worker, targetMs: int)
    requires a.Synchronised(targetMs) && b.Synchronised(targetMs)
    ensures var apart := a.StartOnMaster(targetMs) - b.StartOnMaster(targetMs);
      && 2 * apart < Rtt(a.replies[a.good]) + Rtt(b.replies[b.good]) + 4 * MS
      && -2 * apart < Rtt(a.replies[a.good]) + Rtt(b.replies[b.good]) + 4 * MS
  {
    StartError(a.first, a.replies, a.good, a.skew, targetMs, a.earliest);
    StartError(b.first, b.replies, b.good, b.skew, targetMs, b.earliest);
  }
}
