/**
 One subscriber of the event hub: a bounded queue with an overflow policy, as a function of what was
 offered to it and when it read. `DROP_OLDEST` is proved to refine an unbounded log read through a
 cursor; `DROP_SUBSCRIBER` to deliver an exact prefix and then one final notice.
 */
module Subscriber {
  import opened Prelude

  const DROP_SUBSCRIBER := "drop_subscriber"

  datatype Event = Event(kind: string, data: map<string, int>)

  /** What a queue can hold: a published event, or the one notice a dropped subscriber is left. */
  datatype Item = Delivered(event: Event) | Notice(missed: nat, queueMaxsize: int)

  datatype SubOp =
    | Offer(event: Event)  // the hub publishes while this subscriber is registered
    | Take                 // the subscriber reads one item, if there is one
    | Leave                // the subscriber unsubscribes

  /** A queue, whether it is registered, and its whole history. */
  datatype Sub = Sub(
    items: seq<Item>, live: bool,
    offered: seq<Event>, read: seq<Item>,
    lost: nat, notices: nat,
    peak: nat)  // the deepest the queue has been just after an offer

  const NEW := Sub([], true, [], [], 0, 0, 0)

  /** A non-positive bound means no bound. */
  predicate Full(maxsize: int, items: seq<Item>) {
    0 < maxsize <= |items|
  }

  /** What one offer to a registered subscriber does to its queue, its registration and the losses. */
  function Offered(maxsize: int, policy: string, s: Sub, e: Event): (r: Sub) {
    var t := s.(offered := s.offered + [e]);
    if !Full(maxsize, s.items) then t.(items := s.items + [Delivered(e)])
    else if policy != DROP_SUBSCRIBER then
      t.(items := s.items[1..] + [Delivered(e)], lost := s.lost + 1)
    else
      var missed := |s.items| + 1;
      t.(items := [Notice(missed, maxsize)], live := false, lost := s.lost + missed, notices := s.notices + 1)
  }

  function SubStep(maxsize: int, policy: string, s: Sub, op: SubOp): (r: Sub) {
    match op
    case Offer(e) =>
      if !s.live then s
      else
        var t := Offered(maxsize, policy, s, e);
        t.(peak := if s.peak < |t.items| then |t.items| else s.peak)
    case Take => if s.items == [] then s else s.(items := s.items[1..], read := s.read + [s.items[0]])
    case Leave => s.(live := false)
  }

  function SubRun(maxsize: int, policy: string, ops: seq<SubOp>): (s: Sub) {
    if ops == [] then NEW
    else SubStep(maxsize, policy, SubRun(maxsize, policy, ops[..|ops| - 1]), ops[|ops| - 1])
  }

  lemma SubRunOfSnoc(maxsize: int, policy: string, ops: seq<SubOp>, op: SubOp)
    ensures SubRun(maxsize, policy, ops + [op]) == SubStep(maxsize, policy, SubRun(maxsize, policy, ops), op)
  {
    assert (ops + [op])[..|ops|] == ops;
  }

  /** One more offer extends what a registered subscriber was offered, and re-registers nobody. */
  lemma OfferedOfSnoc(maxsize: int, policy: string, ops: seq<SubOp>, e: Event)
    ensures var s, t := SubRun(maxsize, policy, ops), SubRun(maxsize, policy, ops + [Offer(e)]);
            && (s.live ==> t.offered == s.offered + [e])
            && (!s.live ==> t == s)
  {
    SubRunOfSnoc(maxsize, policy, ops, Offer(e));
  }

  function AsItems(events: seq<Event>): (items: seq<Item>) {
    seq(|events|, i requires 0 <= i < |events| => Delivered(events[i]))
  }

  /** A queue is never deeper than its peak, and the peak of a bounded queue never exceeds the bound. */
  lemma {:induction false} DepthIsBounded(maxsize: int, policy: string, ops: seq<SubOp>)
    ensures var s := SubRun(maxsize, policy, ops);
            |s.items| <= s.peak && (maxsize > 0 ==> s.peak <= maxsize)
  {
    if ops != [] {
      DepthIsBounded(maxsize, policy, ops[..|ops| - 1]);
    }
  }

  lemma StepMovesThePeak(maxsize: int, policy: string, s: Sub, op: SubOp)
    requires |s.items| <= s.peak
    ensures var t := SubStep(maxsize, policy, s, op);
            && |t.items| <= t.peak && s.peak <= t.peak
            && (t.peak != s.peak ==> t.peak == |t.items|)
  {
  }

  /** The peak is the deepest the queue has been at any point of its history: never exceeded, and reached. */
  lemma {:induction false} PeakIsTheDeepest(maxsize: int, policy: string, ops: seq<SubOp>) returns (at: nat)
    ensures forall n :: 0 <= n <= |ops| ==> |SubRun(maxsize, policy, ops[..n]).items| <= SubRun(maxsize, policy, ops).peak
    ensures at <= |ops| && |SubRun(maxsize, policy, ops[..at]).items| == SubRun(maxsize, policy, ops).peak
  {
    at := 0;
    if ops != [] {
      var n := |ops| - 1;
      var t := ops[..n];
      at := PeakIsTheDeepest(maxsize, policy, t);
      assert forall k :: 0 <= k <= n ==> t[..k] == ops[..k];
      assert t[..n] == t && ops[..n + 1] == ops;
      StepMovesThePeak(maxsize, policy, SubRun(maxsize, policy, t), ops[n]);
      if SubRun(maxsize, policy, ops).peak != SubRun(maxsize, policy, t).peak {
        at := n + 1;
      }
    }
  }

  // ----- DROP_OLDEST: an unbounded log behind a cursor ---------------------------------------

  /** A reader of an unbounded log: where each read event was, and the first unread position. */
  datatype Reader = Reader(log: seq<Event>, positions: seq<nat>, cursor: nat, live: bool)

  /** The first unread event still within reach of a window of `maxsize` events. */
  function WindowStart(maxsize: int, r: Reader): (start: nat)
    requires r.cursor <= |r.log|
    ensures r.cursor <= start <= |r.log|
  {
    if maxsize <= 0 || |r.log| - maxsize <= r.cursor then r.cursor else |r.log| - maxsize
  }

  function ReaderStep(maxsize: int, r: Reader, op: SubOp): (r': Reader)
    requires r.cursor <= |r.log|
    ensures r'.cursor <= |r'.log|
  {
    match op
    case Offer(e) => if r.live then r.(log := r.log + [e]) else r
    case Take =>
      var p := WindowStart(maxsize, r);
      if p < |r.log| then r.(positions := r.positions + [p], cursor := p + 1) else r
    case Leave => r.(live := false)
  }

  function ReaderRun(maxsize: int, ops: seq<SubOp>): (r: Reader)
    ensures r.cursor <= |r.log|
  {
    if ops == [] then Reader([], [], 0, true)
    else ReaderStep(maxsize, ReaderRun(maxsize, ops[..|ops| - 1]), ops[|ops| - 1])
  }

  ghost predicate InLog(log: seq<Event>, positions: seq<nat>) {
    forall k :: 0 <= k < |positions| ==> positions[k] < |log|
  }

  /** The log at the given positions. */
  ghost function ReadAt(log: seq<Event>, positions: seq<nat>): (events: seq<Event>)
    requires InLog(log, positions)
  {
    seq(|positions|, k requires 0 <= k < |positions| => log[positions[k]])
  }

  /** The reader moves strictly forward, and has read nothing at or past its cursor. */
  lemma {:induction false} ReaderMovesForward(maxsize: int, ops: seq<SubOp>)
    ensures var r := ReaderRun(maxsize, ops);
            && (forall k :: 0 <= k < |r.positions| ==> r.positions[k] < r.cursor)
            && (forall k, l :: 0 <= k < l < |r.positions| ==> r.positions[k] < r.positions[l])
            && r.cursor == (if r.positions == [] then 0 else r.positions[|r.positions| - 1] + 1)
  {
    if ops != [] {
      ReaderMovesForward(maxsize, ops[..|ops| - 1]);
    }
  }

  /** The queue is the window: what is queued is the log from the window's start on, what was read is
      the log at the reader's positions, and everything else that was offered was evicted. */
  ghost predicate IsWindow(maxsize: int, s: Sub, r: Reader) {
    && r.cursor <= |r.log|
    && s.offered == r.log && s.live == r.live
    && s.items == AsItems(r.log[WindowStart(maxsize, r)..])
    && InLog(r.log, r.positions)
    && s.read == AsItems(ReadAt(r.log, r.positions))
    && s.notices == 0
    && |s.offered| == |s.read| + |s.items| + s.lost
  }

  lemma TakeKeepsTheWindow(maxsize: int, policy: string, s: Sub, r: Reader)
    requires IsWindow(maxsize, s, r)
    ensures IsWindow(maxsize, SubStep(maxsize, policy, s, Take), ReaderStep(maxsize, r, Take))
  {
    var p := WindowStart(maxsize, r);
    var r' := ReaderStep(maxsize, r, Take);
    if p < |r.log| {
      assert WindowStart(maxsize, r') == p + 1;
      assert AsItems(r.log[p..])[1..] == AsItems(r.log[p + 1..]);
      assert AsItems(ReadAt(r.log, r'.positions)) == s.read + [Delivered(r.log[p])];
    }
  }

  lemma OfferKeepsTheWindow(maxsize: int, policy: string, s: Sub, r: Reader, e: Event)
    requires IsWindow(maxsize, s, r) && policy != DROP_SUBSCRIBER
    ensures IsWindow(maxsize, SubStep(maxsize, policy, s, Offer(e)), ReaderStep(maxsize, r, Offer(e)))
  {
    if r.live {
      var r' := ReaderStep(maxsize, r, Offer(e));
      var p, q := WindowStart(maxsize, r), WindowStart(maxsize, r');
      assert q == if Full(maxsize, s.items) then p + 1 else p;
      assert AsItems(r'.log[q..]) == AsItems(r.log[p..])[q - p..] + [Delivered(e)];
      assert ReadAt(r'.log, r'.positions) == ReadAt(r.log, r.positions);
    }
  }

  /** `DROP_OLDEST`, over any interleaving of offers and reads, is a window on an unbounded log. */
  lemma {:induction false} DropOldestIsAWindow(maxsize: int, policy: string, ops: seq<SubOp>)
    requires policy != DROP_SUBSCRIBER
    ensures IsWindow(maxsize, SubRun(maxsize, policy, ops), ReaderRun(maxsize, ops))
  {
    if ops != [] {
      var n := |ops| - 1;
      DropOldestIsAWindow(maxsize, policy, ops[..n]);
      var s, r := SubRun(maxsize, policy, ops[..n]), ReaderRun(maxsize, ops[..n]);
      match ops[n]
      case Offer(e) => OfferKeepsTheWindow(maxsize, policy, s, r, e);
      case Take => TakeKeepsTheWindow(maxsize, policy, s, r);
      case Leave =>
    }
  }

  /** The window is the longest suffix of the unread events that fits. */
  lemma WindowIsLongestFittingSuffix(maxsize: int, r: Reader, start: nat)
    requires maxsize > 0 && r.cursor <= |r.log|
    requires r.cursor <= start <= |r.log| && |r.log| - start <= maxsize
    ensures |r.log| - WindowStart(maxsize, r) <= maxsize
    ensures WindowStart(maxsize, r) <= start
  {
  }

  // ----- DROP_SUBSCRIBER: gap-free, then final -----------------------------------------------

  /** Before it overflows, such a subscriber has missed nothing. Once it has overflowed it is
      unregistered, and all it ever gets is the exact prefix it had read, then one notice naming the
      number of events that followed. */
  ghost predicate IsGapFreeThenFinal(maxsize: int, s: Sub) {
    && s.notices <= 1
    && (s.notices == 0 ==>
        && s.read + s.items == AsItems(s.offered) && s.lost == 0
        && (maxsize > 0 ==> |s.items| <= maxsize))
    && (s.notices == 1 ==>
        && !s.live
        && 0 < maxsize < |s.offered|
        && s.lost == maxsize + 1
        && s.read + s.items ==
           AsItems(s.offered[..|s.offered| - (maxsize + 1)]) + [Notice(maxsize + 1, maxsize)])
  }

  lemma TakeKeepsGapFree(maxsize: int, s: Sub)
    requires IsGapFreeThenFinal(maxsize, s)
    ensures IsGapFreeThenFinal(maxsize, SubStep(maxsize, DROP_SUBSCRIBER, s, Take))
  {
    if s.items != [] {
      assert s.read + [s.items[0]] + s.items[1..] == s.read + s.items;
    }
  }

  lemma OfferKeepsGapFree(maxsize: int, s: Sub, e: Event)
    requires IsGapFreeThenFinal(maxsize, s)
    ensures IsGapFreeThenFinal(maxsize, SubStep(maxsize, DROP_SUBSCRIBER, s, Offer(e)))
  {
    if s.live {
      var offered := s.offered + [e];
      assert AsItems(offered) == AsItems(s.offered) + [Delivered(e)];
      if !Full(maxsize, s.items) {
        assert s.read + (s.items + [Delivered(e)]) == s.read + s.items + [Delivered(e)];
      } else {
        var k := |s.read|;
        assert k == |offered| - (maxsize + 1);
        assert s.read == (s.read + s.items)[..k] == AsItems(s.offered)[..k] == AsItems(offered[..k]);
      }
    }
  }

  /** `DROP_SUBSCRIBER`, over any interleaving of offers and reads, is gap-free and then final. */
  lemma {:induction false} DropSubscriberIsGapFreeThenFinal(maxsize: int, ops: seq<SubOp>)
    ensures IsGapFreeThenFinal(maxsize, SubRun(maxsize, DROP_SUBSCRIBER, ops))
  {
    if ops != [] {
      var n := |ops| - 1;
      DropSubscriberIsGapFreeThenFinal(maxsize, ops[..n]);
      var s := SubRun(maxsize, DROP_SUBSCRIBER, ops[..n]);
      match ops[n]
      case Offer(e) => OfferKeepsGapFree(maxsize, s, e);
      case Take => TakeKeepsGapFree(maxsize, s);
      case Leave =>
    }
  }

  // ----- Accounting --------------------------------------------------------------------------

  /** How many of `items` are events rather than notices. */
  function EventCount(items: seq<Item>): (n: nat) {
    if items == [] then 0
    else EventCount(items[..|items| - 1]) + if items[|items| - 1].Delivered? then 1 else 0
  }

  lemma {:induction false} EventCountOfConcat(a: seq<Item>, b: seq<Item>)
    ensures EventCount(a + b) == EventCount(a) + EventCount(b)
    decreases |b|
  {
    if b == [] {
      assert a + b == a;
    } else {
      EventCountOfConcat(a, b[..|b| - 1]);
      assert (a + b)[..|a + b| - 1] == a + b[..|b| - 1];
    }
  }

  lemma {:induction false} EventsAreAllEvents(events: seq<Event>)
    ensures EventCount(AsItems(events)) == |events|
  {
    if events != [] {
      var n := |events| - 1;
      EventsAreAllEvents(events[..n]);
      assert AsItems(events)[..n] == AsItems(events[..n]);
    }
  }

  lemma GapFreeAccounting(maxsize: int, s: Sub)
    requires IsGapFreeThenFinal(maxsize, s)
    ensures |s.offered| == EventCount(s.read + s.items) + s.lost
  {
    if s.notices == 0 {
      EventsAreAllEvents(s.offered);
    } else {
      var prefix := s.offered[..|s.offered| - (maxsize + 1)];
      var notice := [Notice(maxsize + 1, maxsize)];
      EventsAreAllEvents(prefix);
      EventCountOfConcat(AsItems(prefix), notice);
      assert notice[..0] == [];
    }
  }

  lemma WindowAccounting(maxsize: int, s: Sub, r: Reader)
    requires IsWindow(maxsize, s, r)
    ensures |s.offered| == EventCount(s.read) + EventCount(s.items) + s.lost
  {
    EventsAreAllEvents(r.log[WindowStart(maxsize, r)..]);
    EventsAreAllEvents(ReadAt(r.log, r.positions));
  }

  /** Every event offered to a subscriber was read, is still queued, or is counted lost. */
  lemma NothingIsUnaccountedFor(maxsize: int, policy: string, ops: seq<SubOp>)
    ensures var s := SubRun(maxsize, policy, ops);
            |s.offered| == EventCount(s.read) + EventCount(s.items) + s.lost
  {
    var s := SubRun(maxsize, policy, ops);
    if policy == DROP_SUBSCRIBER {
      DropSubscriberIsGapFreeThenFinal(maxsize, ops);
      GapFreeAccounting(maxsize, s);
      EventCountOfConcat(s.read, s.items);
    } else {
      DropOldestIsAWindow(maxsize, policy, ops);
      WindowAccounting(maxsize, s, ReaderRun(maxsize, ops));
    }
  }
}
