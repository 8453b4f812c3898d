/**
 The event hub: one publish fans out to every registered queue, evicting or unregistering where a
 queue is full. The hub is proved to drive each subscriber by that subscriber's own history alone,
 and its counters to account for every event ever offered.
 */
module EventHub {
  import opened Prelude
  import opened Subscriber

  /** A sum over every subscriber there has ever been. */
  function Total(f: Sub -> int, subs: seq<Sub>): (sum: int) {
    if subs == [] then 0 else Total(f, subs[..|subs| - 1]) + f(subs[|subs| - 1])
  }

  lemma {:induction false} TotalOfUpdate(f: Sub -> int, subs: seq<Sub>, h: nat, s: Sub)
    requires h < |subs|
    ensures Total(f, subs[h := s]) == Total(f, subs) - f(subs[h]) + f(s)
  {
    var n := |subs| - 1;
    if h < n {
      TotalOfUpdate(f, subs[..n], h, s);
      assert subs[h := s][..n] == subs[..n][h := s];
    } else {
      assert subs[h := s][..n] == subs[..n];
    }
  }

  /** The deepest any of these queues has ever been. */
  function Deepest(subs: seq<Sub>): (depth: nat) {
    if subs == [] then 0
    else
      var before, last := Deepest(subs[..|subs| - 1]), subs[|subs| - 1].peak;
      if before < last then last else before
  }

  lemma {:induction false} DeepestIsAMaximum(subs: seq<Sub>)
    ensures forall s :: s in subs ==> s.peak <= Deepest(subs)
    ensures Deepest(subs) == 0 || exists s :: s in subs && s.peak == Deepest(subs)
  {
    if subs != [] {
      DeepestIsAMaximum(subs[..|subs| - 1]);
      assert forall s :: s in subs <==> s in subs[..|subs| - 1] || s == subs[|subs| - 1];
    }
  }

  lemma {:induction false} DeepestOfUpdate(subs: seq<Sub>, h: nat, s: Sub)
    requires h < |subs| && subs[h].peak <= s.peak
    ensures Deepest(subs[h := s]) == if Deepest(subs) < s.peak then s.peak else Deepest(subs)
  {
    var n := |subs| - 1;
    if h < n {
      DeepestOfUpdate(subs[..n], h, s);
      assert subs[h := s][..n] == subs[..n][h := s];
    } else {
      assert subs[h := s][..n] == subs[..n];
    }
  }

  const LOST: Sub -> int := (s: Sub) => s.lost
  const NOTICES: Sub -> int := (s: Sub) => s.notices
  const OFFERED: Sub -> int := (s: Sub) => |s.offered|
  const READ: Sub -> int := (s: Sub) => EventCount(s.read)
  const QUEUED: Sub -> int := (s: Sub) => EventCount(s.items)

  datatype Stats = Stats(published: nat, subscribers: nat, queueMaxsize: int, deepestQueue: nat,
                         droppedSubscribers: nat, droppedDeliveries: nat)

  /** `offered` is the log from position `start` on: all of it, or the part before something ended it. */
  ghost predicate IsLogSince(offered: seq<Event>, log: seq<Event>, start: nat, toTheEnd: bool) {
    && start + |offered| <= |log|
    && (toTheEnd ==> start + |offered| == |log|)
    && forall i :: 0 <= i < |offered| ==> offered[i] == log[start + i]
  }

  lemma LogSinceIsASlice(offered: seq<Event>, log: seq<Event>, start: nat, toTheEnd: bool)
    requires IsLogSince(offered, log, start, toTheEnd)
    ensures start <= |log| && offered <= log[start..] && (toTheEnd ==> offered == log[start..])
  {
  }

  /** Queues are named by the handle `Subscribe` returned, in the order they were created. */
  class EventHub {
    const maxsize: int
    var queues: seq<seq<Item>>         // every queue handed out, registered or not
    var subscribers: map<nat, string>  // registered queue -> its overflow policy
    var published: nat
    var deepest: nat
    var droppedSubscribers: nat
    var droppedDeliveries: nat

    ghost var policies: seq<string>    // the policy each queue was created with
    ghost var ops: seq<seq<SubOp>>     // what has happened to each queue
    ghost var subs: seq<Sub>           // what that history makes of it
    ghost var log: seq<Event>          // every event ever published
    ghost var since: seq<nat>          // how many had been when each queue was created

    /** Queue `h` is exactly what its own policy and its own history make it. */
    ghost predicate FollowsItsHistory(h: nat)
      reads `queues, `subscribers, `policies, `ops, `subs
      requires h < |queues| && |queues| == |policies| == |ops| == |subs|
    {
      && subs[h] == SubRun(maxsize, policies[h], ops[h])
      && queues[h] == subs[h].items
      && (h in subscribers <==> subs[h].live)
      && (h in subscribers ==> subscribers[h] == policies[h])
    }

    ghost predicate QueuesFollowTheirHistories()
      reads `queues, `subscribers, `policies, `ops, `subs
    {
      && |queues| == |policies| == |ops| == |subs|
      && (forall h :: h in subscribers ==> h < |queues|)
      && forall h :: 0 <= h < |queues| ==> FollowsItsHistory(h)
    }

    ghost predicate Consistent()
      reads this
    {
      && QueuesFollowTheirHistories()
      && Tallied()
    }

    /** The counters are the sums and the maximum over every subscriber there has been. */
    ghost predicate Tallied()
      reads `subs, `droppedDeliveries, `droppedSubscribers, `deepest
    {
      && droppedDeliveries == Total(LOST, subs)
      && droppedSubscribers == Total(NOTICES, subs)
      && deepest == Deepest(subs)
    }

    /** What queue `h` was offered is the log from its subscription on, up to when it left or was dropped. */
    ghost predicate FollowsTheLog(h: nat)
      reads `subscribers, `subs, `log, `since
      requires h < |subs| && |since| == |subs|
    {
      IsLogSince(subs[h].offered, log, since[h], h in subscribers)
    }

    ghost predicate QueuesFollowTheLog()
      reads `subscribers, `subs, `log, `since
    {
      && |since| == |subs|
      && forall h :: 0 <= h < |subs| ==> FollowsTheLog(h)
    }

    ghost predicate Valid()
      reads this
    {
      Consistent() && QueuesFollowTheLog() && published == |log|
    }

    constructor (maxsize: int)
      ensures Valid() && this.maxsize == maxsize
      ensures queues == [] && subscribers == map[] && published == 0 && ops == [] && policies == [] && log == []
    {
      this.maxsize := maxsize;
      queues, subscribers := [], map[];
      published, deepest, droppedSubscribers, droppedDeliveries := 0, 0, 0, 0;
      policies, ops, subs, log, since := [], [], [], [], [];
    }

    method Subscribe(onOverflow: string) returns (handle: nat)
      requires Valid()
      modifies this
      ensures Valid() && log == old(log) && since == old(since) + [|log|]
      ensures handle == |old(queues)|
      ensures queues == old(queues) + [[]] && subscribers == old(subscribers)[handle := onOverflow]
      ensures policies == old(policies) + [onOverflow] && ops == old(ops) + [[]]
    {
      handle := |queues|;
      queues := queues + [[]];
      subscribers := subscribers[handle := onOverflow];
      RecordNew(onOverflow);
      forall k | 0 <= k < |queues| ensures FollowsItsHistory(k) {
        if k < handle {
          assert old(FollowsItsHistory(k));
        } else {
          assert ops[k] == [] && queues[k] == [] && subs[k] == NEW;
        }
      }
      forall k | 0 <= k < |queues| ensures FollowsTheLog(k) {
        assert k < |old(queues)| ==> old(FollowsTheLog(k));
      }
    }

    /** Record a queue that nothing has happened to yet. */
    ghost method RecordNew(policy: string)
      modifies `policies, `ops, `subs, `since
      ensures policies == old(policies) + [policy] && ops == old(ops) + [[]]
      ensures subs == old(subs) + [NEW] && since == old(since) + [|log|]
      ensures old(Tallied()) ==> Tallied()
    {
      assert (subs + [NEW])[..|subs|] == subs;
      policies, ops, subs, since := policies + [policy], ops + [[]], subs + [NEW], since + [|log|];
    }

    /** Record that `op` happened to queue `h`. */
    ghost method Record(h: nat, op: SubOp)
      requires h < |ops| && |ops| == |subs| == |policies|
      requires subs[h] == SubRun(maxsize, policies[h], ops[h])
      modifies `ops, `subs
      ensures ops == old(ops)[h := old(ops)[h] + [op]]
      ensures subs == old(subs)[h := SubStep(maxsize, policies[h], old(subs)[h], op)]
      ensures subs[h] == SubRun(maxsize, policies[h], ops[h])
      ensures !op.Offer? ==> subs[h].offered == old(subs)[h].offered
      ensures !op.Offer? && old(Tallied()) ==> Tallied()
      ensures Deepest(subs) == if Deepest(old(subs)) < subs[h].peak then subs[h].peak else Deepest(old(subs))
      ensures old(subs)[h].peak <= Deepest(old(subs))
      ensures Total(LOST, subs) == Total(LOST, old(subs)) - old(subs)[h].lost + subs[h].lost
      ensures Total(NOTICES, subs) == Total(NOTICES, old(subs)) - old(subs)[h].notices + subs[h].notices
    {
      var s := SubStep(maxsize, policies[h], subs[h], op);
      SubRunOfSnoc(maxsize, policies[h], ops[h], op);
      TotalOfUpdate(LOST, subs, h, s);
      TotalOfUpdate(NOTICES, subs, h, s);
      DeepestOfUpdate(subs, h, s);
      DeepestIsAMaximum(subs);
      ops, subs := ops[h := ops[h] + [op]], subs[h := s];
    }

    /** Idempotent: the hub may already have dropped this queue. */
    method Unsubscribe(handle: nat)
      requires Valid() && handle < |queues|
      modifies this
      ensures Valid() && log == old(log) && since == old(since) && policies == old(policies)
      ensures queues == old(queues) && subscribers == old(subscribers) - {handle}
      ensures ops == old(ops)[handle := old(ops)[handle] + [Leave]]
    {
      assert FollowsItsHistory(handle);
      Record(handle, Leave);
      subscribers := subscribers - {handle};
      forall k | 0 <= k < |queues| ensures FollowsItsHistory(k) {
        assert old(FollowsItsHistory(k));
      }
      forall k | 0 <= k < |queues| ensures FollowsTheLog(k) {
        assert old(FollowsTheLog(k));
      }
    }

    /** A subscriber reads its own queue. */
    method Get(handle: nat) returns (item: Option<Item>)
      requires Valid() && handle < |queues|
      modifies this
      ensures Valid() && log == old(log) && since == old(since) && policies == old(policies)
      ensures subscribers == old(subscribers)
      ensures ops == old(ops)[handle := old(ops)[handle] + [Take]]
      ensures item == if old(queues)[handle] == [] then None else Some(old(queues)[handle][0])
      ensures item == None ==> queues == old(queues)
      ensures item.Some? ==> queues == old(queues)[handle := old(queues)[handle][1..]]
    {
      assert FollowsItsHistory(handle);
      Record(handle, Take);
      if queues[handle] == [] {
        item := None;
      } else {
        item := Some(queues[handle][0]);
        queues := queues[handle := queues[handle][1..]];
      }
      forall k | 0 <= k < |queues| ensures FollowsItsHistory(k) {
        assert old(FollowsItsHistory(k));
      }
      forall k | 0 <= k < |queues| ensures FollowsTheLog(k) {
        assert old(FollowsTheLog(k));
      }
    }

    /** Fan one event out. Every registered queue is offered exactly this event, no other queue is
        touched, and no queue operation inside ever finds a queue empty or full. */
    method Publish(event: Event)
      requires Valid()
      modifies this
      ensures Valid() && log == old(log) + [event] && since == old(since) && policies == old(policies)
      ensures |ops| == |old(ops)|
      ensures forall h :: 0 <= h < |ops| ==>
                ops[h] == old(ops)[h] + if h in old(subscribers) then [Offer(event)] else []
    {
      published := published + 1;
      log := log + [event];
      FanOut(event);
      forall k | 0 <= k < |subs| ensures FollowsTheLog(k) {
        assert old(FollowsTheLog(k)) && old(FollowsItsHistory(k)) && FollowsItsHistory(k);
        if k in old(subscribers) {
          OfferedOfSnoc(maxsize, policies[k], old(ops)[k], event);
          assert subs[k].offered == old(subs)[k].offered + [event];
        } else {
          assert ops[k] == old(ops)[k];
          assert k !in subscribers;
        }
      }
    }

    /** Offer an event to every queue registered now, letting each overflow as its policy says. */
    method FanOut(event: Event)
      requires Consistent()
      modifies `queues, `subscribers, `deepest, `droppedSubscribers, `droppedDeliveries, `ops, `subs
      ensures Consistent() && |ops| == |old(ops)| && policies == old(policies)
      ensures forall h :: 0 <= h < |ops| ==>
                ops[h] == old(ops)[h] + if h in old(subscribers) then [Offer(event)] else []
    {
      var snapshot := subscribers;
      forall k | k in snapshot ensures k < |policies| && snapshot[k] == policies[k] {
        assert FollowsItsHistory(k);
      }
      for h := 0 to |queues|
        invariant |queues| == |old(queues)| && |ops| == |old(ops)|
        invariant Consistent()
        invariant snapshot == old(subscribers)
        invariant forall k :: k in snapshot ==> k < |policies| && snapshot[k] == policies[k]
        invariant forall k :: h <= k < |queues| ==> (k in snapshot <==> k in subscribers)
        invariant forall k :: 0 <= k < |ops| ==>
                    ops[k] == old(ops)[k] + if k < h && k in snapshot then [Offer(event)] else []
      {
        assert FollowsItsHistory(h);
        if h in snapshot {
          Deliver(h, snapshot[h], event);
        }
      }
    }

    method Deliver(h: nat, policy: string, event: Event)
      requires Consistent() && h in subscribers && subscribers[h] == policy
      modifies `queues, `subscribers, `deepest, `droppedSubscribers, `droppedDeliveries, `ops, `subs
      ensures Consistent()
      ensures |queues| == |old(queues)|
      ensures ops == old(ops)[h := old(ops)[h] + [Offer(event)]]
      ensures forall k :: k != h ==> (k in subscribers <==> k in old(subscribers))
    {
      assert FollowsItsHistory(h);
      DepthIsBounded(maxsize, policies[h], ops[h]);
      PutOrOverflow(h, policy, event, subs[h]);
      Record(h, Offer(event));
      deepest := if deepest < |queues[h]| then |queues[h]| else deepest;
      forall k | 0 <= k < |queues| ensures FollowsItsHistory(k) {
        assert old(FollowsItsHistory(k));
      }
    }

    /** What one offer does to one queue, its registration and the counters. */
    method PutOrOverflow(h: nat, policy: string, event: Event, ghost s: Sub)
      requires h < |queues| && queues[h] == s.items && s.live
      requires maxsize > 0 ==> |s.items| <= maxsize
      modifies `queues, `subscribers, `droppedSubscribers, `droppedDeliveries
      ensures var t := SubStep(maxsize, policy, s, Offer(event));
              && queues == old(queues)[h := t.items]
              && subscribers == (if t.live then old(subscribers) else old(subscribers) - {h})
              && droppedSubscribers == old(droppedSubscribers) + t.notices - s.notices
              && droppedDeliveries == old(droppedDeliveries) + t.lost - s.lost
    {
      if Full(maxsize, queues[h]) {
        Overflow(h, policy, event);
      } else {
        PutNowait(h, Delivered(event));
      }
    }

    /** `put_nowait`, which would raise on a full queue. */
    method PutNowait(h: nat, item: Item)
      requires h < |queues| && !Full(maxsize, queues[h])
      modifies `queues
      ensures queues == old(queues)[h := old(queues)[h] + [item]]
    {
      queues := queues[h := queues[h] + [item]];
    }

    /** `get_nowait`, which would raise on an empty queue. */
    method GetNowait(h: nat)
      requires h < |queues| && queues[h] != []
      modifies `queues
      ensures queues == old(queues)[h := old(queues)[h][1..]]
    {
      queues := queues[h := queues[h][1..]];
    }

    /** One queue is full: lose its oldest event, or lose the subscriber. */
    method Overflow(h: nat, policy: string, event: Event)
      requires h < |queues| && 0 < maxsize == |queues[h]|
      modifies `queues, `subscribers, `droppedSubscribers, `droppedDeliveries
      ensures if policy != DROP_SUBSCRIBER then
                && queues == old(queues)[h := old(queues)[h][1..] + [Delivered(event)]]
                && subscribers == old(subscribers)
                && droppedSubscribers == old(droppedSubscribers)
                && droppedDeliveries == old(droppedDeliveries) + 1
              else
                && queues == old(queues)[h := [Notice(maxsize + 1, maxsize)]]
                && subscribers == old(subscribers) - {h}
                && droppedSubscribers == old(droppedSubscribers) + 1
                && droppedDeliveries == old(droppedDeliveries) + maxsize + 1
    {
      if policy != DROP_SUBSCRIBER {
        GetNowait(h);
        PutNowait(h, Delivered(event));
        droppedDeliveries := droppedDeliveries + 1;
        return;
      }
      subscribers := subscribers - {h};
      var missed := |queues[h]| + 1;
      while queues[h] != []
        invariant |queues| == |old(queues)| && queues == old(queues)[h := queues[h]]
        modifies `queues
        decreases |queues[h]|
      {
        GetNowait(h);
      }
      PutNowait(h, Notice(missed, maxsize));
      assert queues[h] == [Notice(missed, maxsize)];
      droppedSubscribers := droppedSubscribers + 1;
      droppedDeliveries := droppedDeliveries + missed;
    }

    /** The published counters, and what they account for: events published, the registrations left,
        every event offered and not delivered, every notice left, and the deepest any queue has been. */
    method GetStats() returns (stats: Stats)
      requires Valid()
      ensures stats.published == |log| && stats.queueMaxsize == maxsize
      ensures stats.subscribers == |set h | 0 <= h < |subs| && subs[h].live|
      ensures Total(OFFERED, subs) == Total(READ, subs) + Total(QUEUED, subs) + stats.droppedDeliveries
      ensures stats.droppedSubscribers == Total(NOTICES, subs)
      ensures forall h :: 0 <= h < |queues| ==> |queues[h]| <= stats.deepestQueue
      ensures stats.deepestQueue == 0 || exists s :: s in subs && s.peak == stats.deepestQueue
      ensures maxsize > 0 ==> stats.deepestQueue <= maxsize
    {
      LossIsExactlyAccounted();
      forall h ensures h in subscribers <==> 0 <= h < |subs| && subs[h].live {
        assert 0 <= h < |subs| ==> FollowsItsHistory(h);
      }
      assert subscribers.Keys == set h | 0 <= h < |subs| && subs[h].live;
      return Stats(published, |subscribers|, maxsize, deepest, droppedSubscribers, droppedDeliveries);
    }

    /** What each subscriber finds in its queue depends on its own history alone: the longest suffix of
        its unread events that fits, or an exact prefix followed by one final notice. Those events are
        what the hub published since it subscribed: all of them while it stays registered, and the ones
        before it left or was dropped otherwise. */
    lemma EachQueueIsItsOwn(h: nat)
      requires Valid() && h < |queues|
      ensures queues[h] == subs[h].items && subs[h] == SubRun(maxsize, policies[h], ops[h])
      ensures policies[h] != DROP_SUBSCRIBER ==>
                var r := ReaderRun(maxsize, ops[h]);
                queues[h] == AsItems(r.log[WindowStart(maxsize, r)..]) && subs[h].offered == r.log
      ensures since[h] <= |log| && subs[h].offered <= log[since[h]..]
      ensures h in subscribers ==> subs[h].offered == log[since[h]..]
      ensures policies[h] == DROP_SUBSCRIBER ==> IsGapFreeThenFinal(maxsize, subs[h])
    {
      assert FollowsItsHistory(h) && FollowsTheLog(h);
      LogSinceIsASlice(subs[h].offered, log, since[h], h in subscribers);
      if policies[h] != DROP_SUBSCRIBER {
        DropOldestIsAWindow(maxsize, policies[h], ops[h]);
      } else {
        DropSubscriberIsGapFreeThenFinal(maxsize, ops[h]);
      }
    }

    /** Exact accounting: summed over every subscriber there has ever been, events offered are events
        read, plus events still queued, plus the hub's own count of dropped deliveries; and the deepest
        queue reported is one some queue reached, none has exceeded, and the bound allows. */
    lemma LossIsExactlyAccounted()
      requires Valid()
      ensures Total(OFFERED, subs) == Total(READ, subs) + Total(QUEUED, subs) + droppedDeliveries
      ensures forall h :: 0 <= h < |queues| ==> |queues[h]| <= deepest
      ensures deepest == 0 || exists s :: s in subs && s.peak == deepest
      ensures maxsize > 0 ==> deepest <= maxsize
    {
      DeepestIsAMaximum(subs);
      forall h | 0 <= h < |subs|
        ensures |subs[h].offered| == EventCount(subs[h].read) + EventCount(subs[h].items) + subs[h].lost
      {
        assert FollowsItsHistory(h);
        NothingIsUnaccountedFor(maxsize, policies[h], ops[h]);
      }
      forall h | 0 <= h < |queues|
        ensures |queues[h]| <= subs[h].peak && (maxsize > 0 ==> subs[h].peak <= maxsize)
      {
        assert FollowsItsHistory(h);
        DepthIsBounded(maxsize, policies[h], ops[h]);
      }
      SumsAgree(subs);
    }
  }

  lemma {:induction false} SumsAgree(subs: seq<Sub>)
    requires forall s :: s in subs ==> |s.offered| == EventCount(s.read) + EventCount(s.items) + s.lost
    ensures Total(OFFERED, subs) == Total(READ, subs) + Total(QUEUED, subs) + Total(LOST, subs)
  {
    if subs != [] {
      SumsAgree(subs[..|subs| - 1]);
      assert subs[|subs| - 1] in subs;
    }
  }
}
