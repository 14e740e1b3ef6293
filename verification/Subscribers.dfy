/**
 The registry of watchers (crates/cvd-master/src/events/subscriber.rs). The channels
 themselves are kept beside it: a sender is the id of its channel.
 */
module Subscribers {
  import opened Types
  import opened S = MasterState

  lemma AllSentIs(m: Master, j: JobId, e: Event, sent: map<ChanId, Chan>, keep: set<ChanId>)
    requires j in m.registry && (forall c | c in m.registry[j] :: c in m.chans) && sent.Keys == m.chans.Keys
    requires forall c | c in m.registry[j] :: sent[c] == Deliver(m.chans[c], e)
    requires forall c | c in m.chans && c !in m.registry[j] :: sent[c] == m.chans[c]
    requires forall c :: c in keep <==> c in m.registry[j] && m.chans[c].Accepts()
    ensures sent == S.Broadcast(m, j, e).chans
    ensures S.Broadcast(m, j, e).registry == if keep == {} then m.registry - {j} else m.registry[j := keep]
  {
    var want := S.Broadcast(m, j, e).chans;
    assert want.Keys == m.chans.Keys;
    forall c | c in sent ensures sent[c] == want[c] {}
    assert keep == Accepting(m, Watchers(m, j)) by {
      forall c ensures c in keep <==> c in Accepting(m, Watchers(m, j)) {}
    }
  }

  class SubscriberRegistry {
    var inner: map<JobId, set<ChanId>>
    var chans: map<ChanId, Chan>

    ghost predicate Holds(m: Master)
      reads this
    {
      m.registry == inner && m.chans == chans
    }

    ghost predicate Valid()
      reads this
    {
      forall j, c | j in inner && c in inner[j] :: c in chans
    }

    constructor ()
      ensures inner == map[] && chans == map[] && Valid()
    {
      inner, chans := map[], map[];
    }

    // `try_send`; a sender that is full or closed is evicted.
    method TrySend(c: ChanId, e: Event) returns (sent: bool)
      requires c in chans
      modifies `chans
      ensures sent == old(chans)[c].Accepts()
      ensures chans == old(chans)[c := Deliver(old(chans)[c], e)]
    {
      sent := chans[c].Accepts();
      if sent {
        chans := chans[c := chans[c].Send(e)];
      } else {
        chans := chans[c := chans[c].(evicted := true)];
      }
    }

    /** `broadcast`, one sender after the other in any order: what is sent or evicted does not depend on it. */
    method Broadcast(j: JobId, e: Event, ghost m: Master)
      requires Valid() && Holds(m)
      modifies this
      ensures Valid() && Holds(S.Broadcast(m, j, e))
    {
      if j !in inner {
        assert inner - {j} == inner;
        return;
      }
      var list := inner[j];
      hide S.Broadcast, Watchers, Accepting, Deliver, Chan.Accepts;
      var todo, keep := list, {};
      while todo != {}
        invariant todo <= list && keep <= list && inner == m.registry && chans.Keys == m.chans.Keys
        invariant forall c | c in list - todo :: chans[c] == Deliver(m.chans[c], e)
        invariant forall c | c in m.chans && c !in list - todo :: chans[c] == m.chans[c]
        invariant forall c :: c in keep <==> c in list - todo && m.chans[c].Accepts()
        decreases |todo|
      {
        var c := Pick(todo);
        var sent := TrySend(c, e);
        if sent { keep := keep + {c}; }
        todo := todo - {c};
      }
      AllSentIs(m, j, e, chans, keep);
      inner := if keep == {} then inner - {j} else inner[j := keep];
    }

    method SubscribeWithSnapshot(j: JobId, snapshot: Event, c: ChanId, since: nat)
      requires Valid() && c !in chans
      modifies this
      ensures Valid()
      ensures chans == old(chans)[c := Chan(j, since, [snapshot], 0, false, false)]
      ensures inner == old(inner)[j := (if j in old(inner) then old(inner)[j] else {}) + {c}]
    {
      chans := chans[c := Chan(j, since, [snapshot], 0, false, false)];
      inner := inner[j := (if j in inner then inner[j] else {}) + {c}];
    }

    /** A channel for a job that is already final: the snapshot, and no sender left. */
    method OpenClosed(j: JobId, snapshot: Event, c: ChanId, since: nat)
      requires Valid() && c !in chans
      modifies this
      ensures Valid() && inner == old(inner)
      ensures chans == old(chans)[c := Chan(j, since, [snapshot], 0, false, false)]
    {
      chans := chans[c := Chan(j, since, [snapshot], 0, false, false)];
    }

    method Terminate(j: JobId)
      requires Valid()
      modifies this
      ensures Valid() && inner == old(inner) - {j} && chans == old(chans)
    {
      inner := inner - {j};
    }
  }
}
