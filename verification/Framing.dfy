/**
 The DTMF framing grammar: a timed stream of keys becomes complete entries.

 `#` submits, `*` clears, and a gap that reaches the inter-digit timeout abandons the partial entry.
 The framer keeps one buffer and one timestamp; what it returns is proved to be a function of the
 timed keys alone, described without any buffer.
 */
module Framing {
  import opened Prelude

  const SUBMIT := '#'
  const CLEAR := '*'

  datatype TimedKey = TimedKey(key: char, at: real)

  // ----- What entries mean -------------------------------------------------------------------

  predicate IsDigit(key: char) {
    key != SUBMIT && key != CLEAR
  }

  function Keys(h: seq<TimedKey>): (keys: string) {
    seq(|h|, i requires 0 <= i < |h| => h[i].key)
  }

  /** Keys `i - 1` and `i` are close enough for the partial entry to survive between them. */
  predicate Joined(timeout: real, h: seq<TimedKey>, i: nat)
    requires 0 < i < |h|
  {
    h[i].at - h[i - 1].at < timeout
  }

  /** `h[j..n]` is the digit run still pending just before key `n` would be handled (or at the end,
      for `n == |h|`): all digits, no abandoned gap inside, and it cannot be extended backwards. */
  ghost predicate IsPendingRun(timeout: real, h: seq<TimedKey>, j: nat, n: nat)
    requires n <= |h|
  {
    && j <= n
    && (forall k :: j <= k < n ==> IsDigit(h[k].key))
    && (forall k :: j < k < n ==> Joined(timeout, h, k))
    && (0 < j ==> !IsDigit(h[j - 1].key) || (j < n && !Joined(timeout, h, j)))
  }

  /** Key `i` submits entry `w`: it is `#`, it arrives in time, and `w` is the non-empty pending run. */
  ghost predicate Submits(timeout: real, h: seq<TimedKey>, i: nat, w: string)
    requires i < |h|
  {
    && h[i].key == SUBMIT
    && w != []
    && exists j: nat :: IsPendingRun(timeout, h, j, i) && j < i && Joined(timeout, h, i) && w == Keys(h[j..i])
  }

  /** Where the digit run pending after the first `n` keys begins. */
  function RunStart(timeout: real, h: seq<TimedKey>, n: nat): (j: nat)
    requires n <= |h|
    ensures j <= n
  {
    if n == 0 || !IsDigit(h[n - 1].key) then n
    else if n == 1 || !Joined(timeout, h, n - 1) then n - 1
    else RunStart(timeout, h, n - 1)
  }

  function Pending(timeout: real, h: seq<TimedKey>): (w: string) {
    Keys(h[RunStart(timeout, h, |h|)..])
  }

  /** The entry completed by key `i`, if it completes one. */
  function EntryAt(timeout: real, h: seq<TimedKey>, i: nat): (entry: Option<string>)
    requires i < |h|
  {
    if h[i].key == SUBMIT && i > 0 && Joined(timeout, h, i) && RunStart(timeout, h, i) < i
    then Some(Keys(h[RunStart(timeout, h, i)..i]))
    else None
  }

  /** Every entry completed over `h`, in order. */
  function Entries(timeout: real, h: seq<TimedKey>): (entries: seq<string>) {
    EntriesUpTo(timeout, h, |h|)
  }

  function EntriesUpTo(timeout: real, h: seq<TimedKey>, n: nat): (entries: seq<string>)
    requires n <= |h|
  {
    if n == 0 then []
    else
      var entry := EntryAt(timeout, h, n - 1);
      EntriesUpTo(timeout, h, n - 1) + if entry.Some? then [entry.value] else []
  }

  lemma {:induction false} EntriesOfPrefix(timeout: real, h: seq<TimedKey>, g: seq<TimedKey>, n: nat)
    requires n <= |h| && h <= g
    ensures EntriesUpTo(timeout, h, n) == EntriesUpTo(timeout, g, n)
  {
    if n > 0 {
      EntriesOfPrefix(timeout, h, g, n - 1);
      RunStartOfPrefix(timeout, h, g, n - 1);
      var j := RunStart(timeout, h, n - 1);
      assert h[j..n - 1] == g[j..n - 1];
    }
  }

  lemma EntriesOfSnoc(timeout: real, h: seq<TimedKey>, k: TimedKey)
    ensures var entry := EntryAt(timeout, h + [k], |h|);
            Entries(timeout, h + [k]) == Entries(timeout, h) + if entry.Some? then [entry.value] else []
  {
    EntriesOfPrefix(timeout, h, h + [k], |h|);
  }

  /** The last key submits exactly the pending run, if it is `#`, in time, and the run is not empty. */
  lemma EntryOfSnoc(timeout: real, h: seq<TimedKey>, k: TimedKey)
    ensures EntryAt(timeout, h + [k], |h|) ==
            if k.key == SUBMIT && h != [] && k.at - h[|h| - 1].at < timeout && Pending(timeout, h) != []
            then Some(Pending(timeout, h)) else None
  {
    var j := RunStart(timeout, h, |h|);
    RunStartOfPrefix(timeout, h, h + [k], |h|);
    assert (h + [k])[j..|h|] == h[j..];
  }

  /** There is exactly one pending run, and `RunStart` finds it. */
  lemma {:induction false} RunStartIsTheOnlyPendingRun(timeout: real, h: seq<TimedKey>, j: nat, n: nat)
    requires j <= n <= |h|
    ensures IsPendingRun(timeout, h, j, n) <==> j == RunStart(timeout, h, n)
  {
    if n > 1 && IsDigit(h[n - 1].key) && Joined(timeout, h, n - 1) && j <= n - 1 {
      RunStartIsTheOnlyPendingRun(timeout, h, j, n - 1);
    }
  }

  lemma {:induction false} RunStartOfPrefix(timeout: real, h: seq<TimedKey>, g: seq<TimedKey>, n: nat)
    requires n <= |h| && h <= g
    ensures RunStart(timeout, h, n) == RunStart(timeout, g, n)
  {
    if n > 1 {
      RunStartOfPrefix(timeout, h, g, n - 1);
      assert Joined(timeout, h, n - 1) == Joined(timeout, g, n - 1);
    }
  }

  /** `EntryAt` is exactly the grammar's submission. */
  lemma EntryIsTheSubmittedRun(timeout: real, h: seq<TimedKey>, i: nat, w: string)
    requires i < |h|
    ensures EntryAt(timeout, h, i) == Some(w) <==> Submits(timeout, h, i, w)
  {
    var j := RunStart(timeout, h, i);
    RunStartIsTheOnlyPendingRun(timeout, h, j, i);
    forall k: nat | k <= i && IsPendingRun(timeout, h, k, i)
      ensures k == j
    {
      RunStartIsTheOnlyPendingRun(timeout, h, k, i);
    }
  }

  /** Entries are never empty and never contain a terminator. */
  lemma EntriesAreDigitRuns(timeout: real, h: seq<TimedKey>, i: nat)
    requires i < |h|
    ensures var e := EntryAt(timeout, h, i);
            e.Some? ==> e.value != [] && forall c :: c in e.value ==> IsDigit(c)
  {
    RunStartIsTheOnlyPendingRun(timeout, h, RunStart(timeout, h, i), i);
  }

  // ----- The same grammar with no clock ------------------------------------------------------

  function UntimedPending(keys: string): (w: string) {
    if keys == [] || !IsDigit(keys[|keys| - 1]) then []
    else UntimedPending(keys[..|keys| - 1]) + [keys[|keys| - 1]]
  }

  /** The non-empty digit runs ended by `#` since the last terminator. */
  function UntimedEntries(keys: string): (entries: seq<string>) {
    if keys == [] then []
    else
      var t := keys[..|keys| - 1];
      UntimedEntries(t) +
      if keys[|keys| - 1] == SUBMIT && UntimedPending(t) != [] then [UntimedPending(t)] else []
  }

  /** No gap between consecutive keys reaches the timeout. */
  predicate NeverStalls(timeout: real, h: seq<TimedKey>) {
    forall i :: 0 < i < |h| ==> Joined(timeout, h, i)
  }

  /** What one more key does to the pending run. */
  lemma PendingOfSnoc(timeout: real, h: seq<TimedKey>, k: TimedKey)
    ensures Pending(timeout, h + [k]) ==
            if !IsDigit(k.key) then []
            else if h != [] && k.at - h[|h| - 1].at < timeout then Pending(timeout, h) + [k.key]
            else [k.key]
  {
    var g, n := h + [k], |h|;
    RunStartOfPrefix(timeout, h, g, n);
    if IsDigit(k.key) && h != [] && k.at - h[n - 1].at < timeout {
      assert Joined(timeout, g, n);
      var j := RunStart(timeout, h, n);
      assert g[j..] == h[j..] + [k];
      assert Keys(g[j..]) == Keys(h[j..]) + [k.key];
    }
  }

  lemma UntimedOfSnoc(keys: string, key: char)
    ensures UntimedPending(keys + [key]) == if IsDigit(key) then UntimedPending(keys) + [key] else []
    ensures UntimedEntries(keys + [key]) ==
            UntimedEntries(keys) + if key == SUBMIT && UntimedPending(keys) != [] then [UntimedPending(keys)] else []
  {
    assert (keys + [key])[..|keys|] == keys;
  }

  /** The keys so far leave nothing pending: there are none, or the last one ended an entry. */
  predicate IsBetweenEntries(keys: string) {
    keys == "" || keys[|keys| - 1] == '#' || keys[|keys| - 1] == '*'
  }

  lemma {:induction false} OtherKeysAccumulate(keys: string, w: string)
    requires IsBetweenEntries(keys) && '#' !in w && '*' !in w
    ensures UntimedPending(keys + w) == w && UntimedEntries(keys + w) == UntimedEntries(keys)
  {
    if w == "" {
      assert keys + w == keys;
    } else {
      var n := |w| - 1;
      OtherKeysAccumulate(keys, w[..n]);
      assert w[n] in w;
      UntimedOfSnoc(keys + w[..n], w[n]);
      assert keys + w == keys + w[..n] + [w[n]];
    }
  }

  /** Key by key: what is typed between terminators is an entry if `#` ends it and it is not empty, and
      no entry if `*` does; either way nothing of it is left. */
  lemma HashSubmitsStarClears(keys: string, w: string)
    requires IsBetweenEntries(keys) && '#' !in w && '*' !in w
    ensures w != "" ==> UntimedEntries(keys + w + "#") == UntimedEntries(keys) + [w]
    ensures w == "" ==> UntimedEntries(keys + w + "#") == UntimedEntries(keys)
    ensures UntimedEntries(keys + w + "*") == UntimedEntries(keys)
    ensures UntimedPending(keys + w + "#") == UntimedPending(keys + w + "*") == ""
  {
    OtherKeysAccumulate(keys, w);
    UntimedOfSnoc(keys + w, '#');
    UntimedOfSnoc(keys + w, '*');
  }

  /** A key in time does to the timed pending run and entries what it does to the untimed ones. */
  lemma TimelyKeyActsAlike(timeout: real, h: seq<TimedKey>, k: TimedKey)
    requires h != [] ==> k.at - h[|h| - 1].at < timeout
    requires Pending(timeout, h) == UntimedPending(Keys(h)) && Entries(timeout, h) == UntimedEntries(Keys(h))
    ensures Pending(timeout, h + [k]) == UntimedPending(Keys(h) + [k.key])
    ensures Entries(timeout, h + [k]) == UntimedEntries(Keys(h) + [k.key])
  {
    PendingOfSnoc(timeout, h, k);
    EntriesOfSnoc(timeout, h, k);
    EntryOfSnoc(timeout, h, k);
    UntimedOfSnoc(Keys(h), k.key);
  }

  /** While no gap reaches the timeout, timing plays no part in the entries. */
  lemma {:induction false} TimingIsInvisibleWhileNothingStalls(timeout: real, h: seq<TimedKey>)
    requires NeverStalls(timeout, h)
    ensures Pending(timeout, h) == UntimedPending(Keys(h))
    ensures Entries(timeout, h) == UntimedEntries(Keys(h))
  {
    if h != [] {
      var n := |h| - 1;
      var t, k := h[..n], h[n];
      forall i | 0 < i < n ensures Joined(timeout, t, i) {
        assert Joined(timeout, h, i);
      }
      TimingIsInvisibleWhileNothingStalls(timeout, t);
      assert t + [k] == h && Keys(t) + [k.key] == Keys(h);
      assert n > 0 ==> Joined(timeout, h, n);
      TimelyKeyActsAlike(timeout, t, k);
    }
  }

  // ----- The framer as a state machine -------------------------------------------------------

  datatype FramerState = FramerState(buffer: string, lastAt: Option<real>)

  datatype FramerEvent = Press(key: char, at: real) | Tick(at: real)

  const FRESH := FramerState([], None)

  function Expired(timeout: real, s: FramerState, now: real): (r: FramerState) {
    if s.buffer != [] && s.lastAt.Some? && now - s.lastAt.value >= timeout then s.(buffer := []) else s
  }

  function FramerStep(timeout: real, s: FramerState, e: FramerEvent): (r: (FramerState, Option<string>)) {
    match e
    case Tick(now) => (Expired(timeout, s, now), None)
    case Press(key, now) =>
      var live := Expired(timeout, s, now).buffer;
      if key == CLEAR then (FramerState([], Some(now)), None)
      else if key == SUBMIT then (FramerState([], Some(now)), if live == [] then None else Some(live))
      else (FramerState(live + [key], Some(now)), None)
  }

  /** State and returned entries after a whole run. */
  function FramerRun(timeout: real, evs: seq<FramerEvent>): (r: (FramerState, seq<string>)) {
    if evs == [] then (FRESH, [])
    else
      var before := FramerRun(timeout, evs[..|evs| - 1]);
      var (s, entry) := FramerStep(timeout, before.0, evs[|evs| - 1]);
      (s, before.1 + if entry.Some? then [entry.value] else [])
  }

  function Presses(evs: seq<FramerEvent>): (h: seq<TimedKey>) {
    if evs == [] then []
    else
      Presses(evs[..|evs| - 1]) +
      match evs[|evs| - 1]
      case Press(key, at) => [TimedKey(key, at)]
      case Tick(_) => []
  }

  /** No key is stamped earlier than a poll that came before it. Every non-decreasing clock satisfies
      this, and so does every run with no polls whatever its clock does. */
  ghost predicate KeysFollowTicks(evs: seq<FramerEvent>) {
    forall i, j :: 0 <= i < j < |evs| && evs[i].Tick? && evs[j].Press? ==> evs[i].at <= evs[j].at
  }

  /** A poll in `evs` saw the partial after `h` go stale. */
  ghost predicate PolledAway(timeout: real, evs: seq<FramerEvent>, h: seq<TimedKey>) {
    h != [] && exists i :: 0 <= i < |evs| && evs[i].Tick? && evs[i].at - h[|h| - 1].at >= timeout
  }

  /** Handling one key from the buffer the timed keys call for. */
  lemma PressMeansEntryAt(timeout: real, h: seq<TimedKey>, s: FramerState, k: TimedKey)
    requires s.lastAt == if h == [] then None else Some(h[|h| - 1].at)
    requires s.buffer == Pending(timeout, h) ||
             (s.buffer == [] && h != [] && k.at - h[|h| - 1].at >= timeout)
    ensures var (s', entry) := FramerStep(timeout, s, Press(k.key, k.at));
            && s' == FramerState(Pending(timeout, h + [k]), Some(k.at))
            && entry == EntryAt(timeout, h + [k], |h|)
  {
    PendingOfSnoc(timeout, h, k);
    EntryOfSnoc(timeout, h, k);
  }

  /** The framer's state after `evs`: the pending run, unless a poll has already seen it go stale. */
  ghost predicate Tracks(timeout: real, evs: seq<FramerEvent>, s: FramerState) {
    var h := Presses(evs);
    && s.lastAt == (if h == [] then None else Some(h[|h| - 1].at))
    && (s.buffer == Pending(timeout, h) || (s.buffer == [] && PolledAway(timeout, evs, h)))
  }

  lemma TickKeepsTrack(timeout: real, t: seq<FramerEvent>, s: FramerState, now: real)
    requires Tracks(timeout, t, s)
    ensures Presses(t + [Tick(now)]) == Presses(t)
    ensures Tracks(timeout, t + [Tick(now)], FramerStep(timeout, s, Tick(now)).0)
  {
    var evs, h := t + [Tick(now)], Presses(t);
    assert evs[..|t|] == t;
    assert Presses(evs) == h;
    if PolledAway(timeout, t, h) {
      var i :| 0 <= i < |t| && t[i].Tick? && t[i].at - h[|h| - 1].at >= timeout;
      assert evs[i].Tick?;
    }
    assert evs[|t|].Tick?;
  }

  lemma PressKeepsTrack(timeout: real, t: seq<FramerEvent>, s: FramerState, k: TimedKey)
    requires Tracks(timeout, t, s) && KeysFollowTicks(t + [Press(k.key, k.at)])
    ensures Presses(t + [Press(k.key, k.at)]) == Presses(t) + [k]
    ensures var (s', entry) := FramerStep(timeout, s, Press(k.key, k.at));
            Tracks(timeout, t + [Press(k.key, k.at)], s') && entry == EntryAt(timeout, Presses(t) + [k], |Presses(t)|)
  {
    var evs, h := t + [Press(k.key, k.at)], Presses(t);
    assert evs[..|t|] == t;
    if s.buffer != Pending(timeout, h) {
      var i :| 0 <= i < |t| && t[i].Tick? && t[i].at - h[|h| - 1].at >= timeout;
      assert evs[i].at <= evs[|t|].at;
    }
    PressMeansEntryAt(timeout, h, s, k);
  }

  /** The framer returns exactly the entries the timed keys denote; polls never change one. */
  lemma {:induction false} FramerReturnsTheDenotedEntries(timeout: real, evs: seq<FramerEvent>)
    requires KeysFollowTicks(evs)
    ensures FramerRun(timeout, evs).1 == Entries(timeout, Presses(evs))
    ensures Tracks(timeout, evs, FramerRun(timeout, evs).0)
  {
    if evs != [] {
      var n := |evs| - 1;
      var t, e := evs[..n], evs[n];
      FramerReturnsTheDenotedEntries(timeout, t);
      var s, h := FramerRun(timeout, t).0, Presses(t);
      assert t + [e] == evs;
      match e
      case Press(key, at) =>
        PressKeepsTrack(timeout, t, s, TimedKey(key, at));
        EntriesOfSnoc(timeout, h, TimedKey(key, at));
      case Tick(now) =>
        TickKeepsTrack(timeout, t, s, now);
    }
  }

  /** Inserting polls anywhere consistent with the clock changes no entry. */
  lemma PollingChangesNoEntry(timeout: real, polled: seq<FramerEvent>, unpolled: seq<FramerEvent>)
    requires KeysFollowTicks(polled) && KeysFollowTicks(unpolled)
    requires Presses(polled) == Presses(unpolled)
    ensures FramerRun(timeout, polled).1 == FramerRun(timeout, unpolled).1
  {
    FramerReturnsTheDenotedEntries(timeout, polled);
    FramerReturnsTheDenotedEntries(timeout, unpolled);
  }

  // ----- The object --------------------------------------------------------------------------

  class DtmfFramer {
    const timeout: real
    var buffer: string
    var lastAt: Option<real>

    ghost function State(): FramerState
      reads this
    {
      FramerState(buffer, lastAt)
    }

    constructor (timeout: real)
      ensures this.timeout == timeout && State() == FRESH
    {
      this.timeout := timeout;
      buffer, lastAt := [], None;
    }

    method Feed(digit: char, now: real) returns (entry: Option<string>)
      modifies this
      ensures (State(), entry) == FramerStep(timeout, old(State()), Press(digit, now))
    {
      Expire(now);
      lastAt := Some(now);
      if digit == CLEAR {
        buffer := [];
        return None;
      }
      if digit == SUBMIT {
        if buffer == [] {
          return None;
        }
        entry := Some(buffer);
        buffer := [];
        return;
      }
      buffer := buffer + [digit];
      return None;
    }

    method PollTimeout(now: real)
      modifies this
      ensures State() == FramerStep(timeout, old(State()), Tick(now)).0
    {
      Expire(now);
    }

    method Expire(now: real)
      modifies this
      ensures State() == Expired(timeout, old(State()), now)
    {
      if buffer != [] && lastAt.Some? && now - lastAt.value >= timeout {
        buffer := [];
      }
    }
  }
}
