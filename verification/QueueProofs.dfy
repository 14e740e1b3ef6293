/** The pending queue stays first-in first-out under every change to it. */
module QueueProofs {
  import opened Types
  import opened Jobs
  import opened MasterState
  import opened Interleaving

  // No job becomes PENDING and no PENDING job changes its slots.
  ghost predicate Quiet(jobs: map<JobId, Job>, jobs': map<JobId, Job>) {
    forall k | IsPending(jobs', k) :: IsPending(jobs, k) && jobs'[k].slots == jobs[k].slots
  }

  lemma QueueFrame(jobs: map<JobId, Job>, jobs': map<JobId, Job>, queue: seq<JobId>, creating: set<JobId>, issued: set<JobId>)
    requires QueueInv(jobs, queue, creating, issued) && Quiet(jobs, jobs')
    ensures QueueInv(jobs', queue, creating, issued)
  {}

  lemma QueueCreate(jobs: map<JobId, Job>, j: JobId, r: Job, queue: seq<JobId>, creating: set<JobId>, issued: set<JobId>)
    requires QueueInv(jobs, queue, creating, issued) && j !in issued && r.slots == map[]
    ensures QueueInv(jobs[j := r], queue, creating + {j}, issued + {j})
  {}

  lemma QueueEnqueue(jobs: map<JobId, Job>, j: JobId, queue: seq<JobId>, creating: set<JobId>, issued: set<JobId>)
    requires QueueInv(jobs, queue, creating, issued) && j in creating
    ensures QueueInv(jobs, queue + [j], creating - {j}, issued)
  {
    assert forall k | k in queue :: k in queue + [j];
    assert (queue + [j])[|queue|] == j;
  }

  // `suffix` is `queue` without some leading entries that are not PENDING.
  lemma QueueDrop(jobs: map<JobId, Job>, i: nat, queue: seq<JobId>, creating: set<JobId>, issued: set<JobId>)
    requires QueueInv(jobs, queue, creating, issued) && i <= |queue|
    requires forall a | 0 <= a < i :: !IsPending(jobs, queue[a])
    ensures QueueInv(jobs, queue[i..], creating, issued)
  {
    forall k | IsPending(jobs, k) && k !in creating ensures k in queue[i..] {
      var a :| 0 <= a < |queue| && queue[a] == k;
      assert queue[i..][a - i] == k;
    }
  }

  lemma {:induction false} RemoveFirstIs(q: seq<JobId>, j: JobId) returns (i: nat)
    ensures i <= |q| && j !in q[..i]
    ensures i == |q| <==> j !in q
    ensures i < |q| ==> q[i] == j && RemoveFirst(q, j) == q[..i] + q[i + 1..]
    ensures i == |q| ==> RemoveFirst(q, j) == q
  {
    if q == [] || q[0] == j {
      i := 0;
    } else {
      var k := RemoveFirstIs(q[1..], j);
      i := k + 1;
      assert q == [q[0]] + q[1..];
      assert q[..i] == [q[0]] + q[1..][..k];
    }
  }

  lemma QueueRemove(jobs: map<JobId, Job>, j: JobId, queue: seq<JobId>, creating: set<JobId>, issued: set<JobId>)
    requires QueueInv(jobs, queue, creating, issued) && !IsPending(jobs, j)
    ensures QueueInv(jobs, RemoveFirst(queue, j), creating, issued)
  {
    var i := RemoveFirstIs(queue, j);
    if i < |queue| {
      var q := RemoveFirst(queue, j);
      assert forall a | 0 <= a < |q| :: q[a] == queue[if a < i then a else a + 1];
      forall k | IsPending(jobs, k) && k !in creating ensures k in q {
        var a :| 0 <= a < |queue| && queue[a] == k;
        assert q[if a < i then a else a - 1] == k;
      }
    }
  }

  /** Handing out a slot of the first PENDING job of the queue. */
  lemma QueueAssign(jobs: map<JobId, Job>, r: Job, queue: seq<JobId>, creating: set<JobId>, issued: set<JobId>)
    requires QueueInv(jobs, queue, creating, issued) && queue != [] && IsPending(jobs, queue[0])
    ensures r.status.Pending? ==> QueueInv(jobs[queue[0] := r], queue, creating, issued)
    ensures !r.status.Pending? ==> QueueInv(jobs[queue[0] := r], queue[1..], creating, issued)
  {
    var j := queue[0];
    var jobs' := jobs[j := r];
    assert forall b | 0 < b < |queue| :: !HoldsSlots(jobs, queue[b]);
    if r.status.Pending? {
      assert forall k | k != j :: IsPending(jobs', k) <==> IsPending(jobs, k);
    } else {
      QueueFrame(jobs, jobs', queue, creating, issued);
      QueueDrop(jobs', 1, queue, creating, issued);
    }
  }

  // ---------------------------------------------------------------- FetchJob

  function FirstPending(jobs: map<JobId, Job>, q: seq<JobId>): (i: nat)
    ensures i <= |q|
    ensures forall a | 0 <= a < i :: !IsPending(jobs, q[a])
    ensures i < |q| ==> IsPending(jobs, q[i])
  {
    if q == [] || IsPending(jobs, q[0]) then 0
    else
      var k := FirstPending(jobs, q[1..]);
      assert forall a | 0 < a < k + 1 :: q[a] == q[1..][a - 1];
      k + 1
  }

  /**
   In a good state the loop skips exactly the leading ids that are not PENDING
   and serves the next one; its branch for a PENDING job without a free slot is
   never taken.
   */
  lemma {:induction false} FetchLoopIs(m: Master, w: WorkerId, now: Now)
    requires forall j | j in m.jobs :: JobInv(m.jobs[j])
    ensures var i := FirstPending(m.jobs, m.queue);
      FetchLoop(m, w, now) ==
        if i == |m.queue| then (m.(queue := []), NoJob)
        else AssignHead(m.(queue := m.queue[i..]), w, now)
    decreases |m.queue|
  {
    if m.queue != [] {
      var j := m.queue[0];
      if !IsPending(m.jobs, j) {
        var m1 := m.(queue := m.queue[1..]);
        FetchLoopIs(m1, w, now);
        var i := FirstPending(m.jobs, m.queue);
        if i < |m.queue| {
          assert m.queue[1..][i - 1..] == m.queue[i..];
        }
      } else {
        TakeSlotInv(m.jobs[j], w, now);
        assert m.queue[0..] == m.queue;
      }
    } else {
      assert m.(queue := []) == m;
    }
  }
}
