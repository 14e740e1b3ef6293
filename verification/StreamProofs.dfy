/** Every change the master makes keeps the watch streams gapless and in order. */
module StreamProofs {
  import opened Types
  import opened Jobs
  import opened MasterState
  import opened Interleaving

  /** The streams only depend on these parts of the state. */
  lemma StreamFrame(m: Master, m': Master, issued: set<JobId>)
    requires StreamInv(m, issued)
    requires m'.jobs == m.jobs && m'.registry == m.registry && m'.chans == m.chans
    requires m'.nextSeq == m.nextSeq && m'.log == m.log
    ensures StreamInv(m', issued)
  {
    hide ChanOk, LogOk;
    forall j ensures LogOk(m', j) { LogFrame(m, m', j); }
    forall c | c in m'.chans ensures ChanOk(m', m'.chans[c]) { ChanFrame(m, m', m.chans[c], m'.chans[c]); }
    forall j ensures Watchers(m', j) == Watchers(m, j) {}
  }

  /** Rewriting a record without changing its status is invisible to watchers. */
  lemma QuietUpdate(m: Master, j: JobId, r: Job, issued: set<JobId>)
    requires StreamInv(m, issued) && j in m.jobs && r.status == m.jobs[j].status
    ensures StreamInv(SetJob(m, j, r), issued)
  {
    hide ChanOk, LogOk;
    var m' := SetJob(m, j, r);
    forall k ensures LogOk(m', k) && (IsOpen(m'.jobs, k) <==> IsOpen(m.jobs, k)) { LogFrame(m, m', k); }
    forall c | c in m'.chans ensures ChanOk(m', m'.chans[c]) { ChanFrame(m, m', m.chans[c], m'.chans[c]); }
    forall k ensures Watchers(m', k) == Watchers(m, k) {}
  }

  /** Dropping finished jobs from the table. */
  lemma RemoveJobs(m: Master, ids: set<JobId>, issued: set<JobId>)
    requires StreamInv(m, issued)
    requires forall j | j in ids && j in m.jobs :: m.jobs[j].status.Terminal()
    ensures StreamInv(GcRemove(m, ids), issued)
  {
    hide ChanOk, LogOk;
    var m' := GcRemove(m, ids);
    forall k ensures LogOk(m', k) && (IsOpen(m'.jobs, k) <==> IsOpen(m.jobs, k)) { LogFrame(m, m', k); }
    forall c | c in m'.chans ensures ChanOk(m', m'.chans[c]) { ChanFrame(m, m', m.chans[c], m'.chans[c]); }
    forall k ensures Watchers(m', k) == Watchers(m, k) {}
  }

  lemma Finalized(m: Master, j: JobId, issued: set<JobId>)
    requires StreamInv(m, issued) && !IsOpen(m.jobs, j)
    ensures StreamInv(FinalizeStream(m, j), issued)
  {
    hide ChanOk, LogOk;
    var m' := FinalizeStream(m, j);
    forall k ensures LogOk(m', k) { LogFrame(m, m', k); }
    forall c | c in m'.chans ensures ChanOk(m', m'.chans[c]) { ChanFrame(m, m', m.chans[c], m'.chans[c]); }
    forall k ensures Watchers(m', k) == if k == j then {} else Watchers(m, k) {}
  }

  /** A channel only depends on its own job's events, and not on what its client did. */
  lemma ChanFrame(m: Master, m': Master, c: Chan, c': Chan)
    requires ChanOk(m, c)
    requires c' == c.(taken := c'.taken, hungUp := c'.hungUp)
    requires Log(m', c.job) == Log(m, c.job) && m.nextSeq <= m'.nextSeq
    requires IsOpen(m'.jobs, c.job) <==> IsOpen(m.jobs, c.job)
    ensures ChanOk(m', c')
  {}

  lemma LogFrame(m: Master, m': Master, j: JobId)
    requires LogOk(m, j)
    requires Log(m', j) == Log(m, j) && m.nextSeq <= m'.nextSeq
    requires j in m'.jobs ==> j in m.jobs && m'.jobs[j].status == m.jobs[j].status
    requires IsOpen(m'.jobs, j) <==> IsOpen(m.jobs, j)
    ensures LogOk(m', j)
  {}

  /** A client reading or leaving does not touch what was sent. */
  lemma ClientMoves(m: Master, c: ChanId, chan: Chan, issued: set<JobId>)
    requires StreamInv(m, issued) && c in m.chans
    requires chan == m.chans[c].(taken := chan.taken, hungUp := chan.hungUp)
    ensures StreamInv(m.(chans := m.chans[c := chan]), issued)
  {
    var m' := m.(chans := m.chans[c := chan]);
    hide ChanOk, LogOk;
    forall k ensures LogOk(m', k) && Watchers(m', k) == Watchers(m, k) { LogFrame(m, m', k); }
    forall d | d in m'.chans ensures ChanOk(m', m'.chans[d]) { ChanFrame(m, m', m.chans[d], m'.chans[d]); }
  }

  lemma FreshChan(m: Master, j: JobId, chan: Chan, m': Master)
    requires j in m.jobs && LogOk(m, j)
    requires chan == Chan(j, |Log(m, j)|, [EventFor(m, j, StatusChange)], 0, false, false)
    requires m'.nextSeq == m.nextSeq + 1 && m'.log == m.log && m'.jobs == m.jobs
    ensures ChanOk(m', chan)
  {
    assert Log(m', j) == Log(m, j);
  }

  lemma WatchFacts(m: Master, j: JobId, c: ChanId)
    requires j in m.jobs && c !in m.chans
    ensures var m' := WatchJob(m, j, c);
      && m'.jobs == m.jobs && m'.log == m.log && m'.nextSeq == m.nextSeq + 1
      && m'.chans == m.chans[c := Chan(j, |Log(m, j)|, [EventFor(m, j, StatusChange)], 0, false, false)]
      && (forall k :: Watchers(m', k) ==
           if k == j && IsOpen(m.jobs, j) then Watchers(m, k) + {c} else Watchers(m, k))
  {}

  lemma Subscribed(m: Master, j: JobId, c: ChanId, issued: set<JobId>)
    requires StreamInv(m, issued) && j in m.jobs && j in issued && c !in m.chans
    ensures StreamInv(WatchJob(m, j, c), issued)
  {
    hide ChanOk, LogOk, WatchJob, Watchers;
    var m' := WatchJob(m, j, c);
    WatchFacts(m, j, c);
    SubscribedChans(m, j, c, issued);
    forall k ensures LogOk(m', k) {
      LogOf(m, issued, k);
      LogFrame(m, m', k);
    }
  }

  lemma SubscribedChans(m: Master, j: JobId, c: ChanId, issued: set<JobId>)
    requires StreamInv(m, issued) && j in m.jobs && c !in m.chans
    ensures var m' := WatchJob(m, j, c); forall d | d in m'.chans :: ChanOk(m', m'.chans[d])
  {
    hide ChanOk, LogOk, WatchJob, Watchers, StreamInv;
    var m' := WatchJob(m, j, c);
    WatchFacts(m, j, c);
    LogOf(m, issued, j);
    FreshChan(m, j, m'.chans[c], m');
    forall d | d in m'.chans ensures ChanOk(m', m'.chans[d]) {
      if d != c {
        StreamChan(m, issued, d);
        ChanFrame(m, m', m.chans[d], m'.chans[d]);
      }
    }
  }

  // The state a job may be in just before one of its events goes out: open, or brand new.
  ghost predicate MayEmit(m: Master, j: JobId, issued: set<JobId>) {
    IsOpen(m.jobs, j) || (j !in issued && j !in m.jobs)
  }

  function NewEvent(m: Master, j: JobId, r: Job, kind: EventKind): Event {
    Event(j, m.nextSeq, r.status, kind, r.error, r.summary)
  }

  /** What an announcement changes, piece by piece. */
  lemma EmitFacts(m: Master, j: JobId, r: Job, kind: EventKind)
    ensures var m' := Emit(SetJob(m, j, r), j, kind);
      && m'.jobs == m.jobs[j := r] && m'.nextSeq == m.nextSeq + 1
      && m'.queue == m.queue && m'.active == m.active && m'.cfg == m.cfg
      && m'.log.Keys == m.log.Keys + {j}
      && (forall k :: Log(m', k) == if k == j then Log(m, j) + [NewEvent(m, j, r, kind)] else Log(m, k))
      && (forall k :: Watchers(m', k) == if k == j then Accepting(m, Watchers(m, j)) else Watchers(m, k))
      && m'.chans.Keys == m.chans.Keys
      && (forall c | c in m.chans :: m'.chans[c] ==
           if c in Watchers(m, j) then Deliver(m.chans[c], NewEvent(m, j, r, kind)) else m.chans[c])
  {
    var e := NewEvent(m, j, r, kind);
    var m0 := SetJob(m, j, r);
    assert EventFor(m0, j, kind) == e;
    var m1 := m0.(nextSeq := m0.nextSeq + 1, log := m0.log[j := Log(m0, j) + [e]]);
    assert Emit(m0, j, kind) == Broadcast(m1, j, e);
    assert Watchers(m1, j) == Watchers(m, j) && Accepting(m1, Watchers(m, j)) == Accepting(m, Watchers(m, j));
  }

  lemma EmitLog(m: Master, j: JobId, r: Job, kind: EventKind, issued: set<JobId>, k: JobId)
    requires StreamInv(m, issued) && MayEmit(m, j, issued)
    ensures LogOk(Emit(SetJob(m, j, r), j, kind), k)
  {
    EmitFacts(m, j, r, kind);
    hide Emit, SetJob, StreamInv, Watchers, Accepting, Deliver;
    assert LogOk(m, k) && LogOk(m, j) by { LogOf(m, issued, j); LogOf(m, issued, k); }
    if j !in issued { NoLog(m, issued, j); }
  }

  lemma LogOf(m: Master, issued: set<JobId>, j: JobId)
    requires StreamInv(m, issued)
    ensures LogOk(m, j)
  {
    hide ChanOk;
  }

  lemma NoLog(m: Master, issued: set<JobId>, j: JobId)
    requires StreamInv(m, issued) && j !in issued
    ensures Log(m, j) == []
    ensures forall c | c in m.chans :: m.chans[c].job != j
    ensures Watchers(m, j) == {}
  {
    forall c ensures c !in Watchers(m, j) {
      assert c in m.chans ==> m.chans[c].job != j;
    }
    assert Watchers(m, j) == {};
  }

  // `m'` is `m` after event `e` of job `j`.
  ghost predicate Announced(m: Master, m': Master, j: JobId, e: Event) {
    && Log(m', j) == Log(m, j) + [e] && m'.nextSeq == m.nextSeq + 1 && e.seqNo == m.nextSeq
    && (IsOpen(m'.jobs, j) <==> !e.status.Terminal())
  }

  lemma DeliveredChan(m: Master, m': Master, j: JobId, e: Event, x: Chan)
    requires ChanOk(m, x) && x.job == j && LogOk(m, j) && IsOpen(m.jobs, j) && Announced(m, m', j, e)
    requires !x.evicted
    ensures ChanOk(m', x.Send(e))
  {
    hide LogOk;
    var log, log', n := Log(m, j), Log(m', j), |x.stream| - 1;
    assert log'[x.since..x.since + n + 1] == log[x.since..x.since + n] + [e];
    assert x.Send(e).stream[1..] == x.stream[1..] + [e];
  }

  // A watcher that is too slow, or gone, keeps what it has.
  lemma EvictedChan(m: Master, m': Master, j: JobId, e: Event, x: Chan)
    requires ChanOk(m, x) && x.job == j && LogOk(m, j) && IsOpen(m.jobs, j) && Announced(m, m', j, e)
    ensures ChanOk(m', x.(evicted := true))
  {
    hide LogOk;
    var log, log', n := Log(m, j), Log(m', j), |x.stream| - 1;
    assert log'[x.since..x.since + n] == log[x.since..x.since + n];
  }

  lemma EmitAnnounced(m: Master, j: JobId, r: Job, kind: EventKind)
    ensures Announced(m, Emit(SetJob(m, j, r), j, kind), j, NewEvent(m, j, r, kind))
  {
    hide Emit, SetJob, Watchers, Accepting, Deliver;
    EmitFacts(m, j, r, kind);
  }

  // What the invariant says of one channel.
  lemma StreamChan(m: Master, issued: set<JobId>, c: ChanId)
    requires StreamInv(m, issued) && c in m.chans
    ensures ChanOk(m, m.chans[c]) && m.chans[c].job in issued
    ensures forall k | c in Watchers(m, k) :: k == m.chans[c].job && !m.chans[c].evicted
    ensures !m.chans[c].evicted && IsOpen(m.jobs, m.chans[c].job) ==> c in Watchers(m, m.chans[c].job)
  {
    hide ChanOk, LogOk;
  }

  lemma EmitChan(m: Master, j: JobId, r: Job, kind: EventKind, issued: set<JobId>, c: ChanId)
    requires StreamInv(m, issued) && MayEmit(m, j, issued) && c in m.chans
    ensures var m' := Emit(SetJob(m, j, r), j, kind);
      && c in m'.chans && m'.chans[c].job == m.chans[c].job
      && ChanOk(m', m'.chans[c])
      && (m.chans[c].job == j && !m'.chans[c].evicted ==> c in Accepting(m, Watchers(m, j)))
      && (c in Accepting(m, Watchers(m, j)) ==> !m'.chans[c].evicted)
  {
    hide StreamInv, ChanOk, LogOk, Emit, Watchers, Announced, Log;
    var m' := Emit(SetJob(m, j, r), j, kind);
    hide SetJob;
    StreamChan(m, issued, c);
    EmitFacts(m, j, r, kind);
    if m.chans[c].job == j {
      EmitAnnounced(m, j, r, kind);
      LogOf(m, issued, j);
      EvictedChan(m, m', j, NewEvent(m, j, r, kind), m.chans[c]);
      if !m.chans[c].evicted { DeliveredChan(m, m', j, NewEvent(m, j, r, kind), m.chans[c]); }
    } else {
      ChanFrame(m, m', m.chans[c], m.chans[c]);
    }
  }

  /** Setting a record and announcing it, for an open job or a new one. */
  lemma Emitted(m: Master, j: JobId, r: Job, kind: EventKind, issued: set<JobId>)
    requires StreamInv(m, issued) && MayEmit(m, j, issued)
    ensures StreamInv(Emit(SetJob(m, j, r), j, kind), issued + {j})
  {
    var m' := Emit(SetJob(m, j, r), j, kind);
    EmitFacts(m, j, r, kind);
    EmittedWatchers(m, j, r, kind, issued);
    EmittedChans(m, j, r, kind, issued);
    hide Emit, SetJob, Accepting, ChanOk, LogOk, Watchers, IsOpen;
    forall k ensures LogOk(m', k) { EmitLog(m, j, r, kind, issued, k); }
  }

  lemma EmittedWatchers(m: Master, j: JobId, r: Job, kind: EventKind, issued: set<JobId>)
    requires StreamInv(m, issued) && MayEmit(m, j, issued)
    ensures var m' := Emit(SetJob(m, j, r), j, kind);
      forall k, c | c in Watchers(m', k) :: c in m'.chans && m'.chans[c].job == k && !m'.chans[c].evicted
  {
    var m' := Emit(SetJob(m, j, r), j, kind);
    EmitFacts(m, j, r, kind);
    hide Emit, SetJob, Accepting, ChanOk, LogOk;
    forall k, c | c in Watchers(m', k) ensures c in m'.chans && m'.chans[c].job == k && !m'.chans[c].evicted {
      assert c in Watchers(m, k);
      EmitChan(m, j, r, kind, issued, c);
    }
  }

  lemma EmittedChans(m: Master, j: JobId, r: Job, kind: EventKind, issued: set<JobId>)
    requires StreamInv(m, issued) && MayEmit(m, j, issued)
    ensures var m' := Emit(SetJob(m, j, r), j, kind);
      forall c | c in m'.chans ::
        && ChanOk(m', m'.chans[c]) && m'.chans[c].job in issued
        && (!m'.chans[c].evicted && IsOpen(m'.jobs, m'.chans[c].job) ==> c in Watchers(m', m'.chans[c].job))
  {
    var m' := Emit(SetJob(m, j, r), j, kind);
    EmitFacts(m, j, r, kind);
    hide Emit, SetJob, Accepting, ChanOk, LogOk;
    forall c | c in m'.chans
      ensures ChanOk(m', m'.chans[c]) && m'.chans[c].job in issued
      ensures !m'.chans[c].evicted && IsOpen(m'.jobs, m'.chans[c].job) ==> c in Watchers(m', m'.chans[c].job)
    {
      EmitChan(m, j, r, kind, issued, c);
    }
  }
}
