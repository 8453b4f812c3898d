/**
 The broadcast-FM cadence: a poller that holds the last definite reading of the second receiver
 through pauses, unknown answers and failures, and can be held "assumed on" by overlapping requests.
 Proved over whole runs: exactly when pausing the cadence loses nothing, and that a hold reports on for
 as long as it is open without touching what has been measured.
 */
module BroadcastFm {
  import opened Prelude

  /** What the pause hook did on one tick. */
  datatype HookAnswer = Says(paused: bool) | HookRaises

  /** What the probe did, or would have done, on one tick. */
  datatype ProbeAnswer = Answers(on: bool) | LearnsNothing | ProbeRaises

  /** The key-up snapshot the relay mute falls back on. */
  datatype Block = Block(on: bool, hz: Option<int>, band: Option<int>, blocksTx: Option<bool>, rescues: int)

  datatype PollerState = PollerState(
    reading: Option<bool>, readingAt: Option<real>,
    polls: nat, unknown: nat, skipped: nat, pauseErrors: nat,
    assumedOn: int)

  const NEW := PollerState(None, None, 0, 0, 0, 0, 0)

  datatype PollerEvent =
    | Tick(hook: HookAnswer, probe: ProbeAnswer, at: real)
    | Observe(measured: Option<bool>, at: real)
    | HoldOpens(id: nat)   // a request enters its assume-on hold
    | HoldCloses(id: nat)  // that request leaves it

  function Probe(s: PollerState, answer: ProbeAnswer, now: real): (r: PollerState) {
    match answer
    case Answers(on) => s.(polls := s.polls + 1, reading := Some(on), readingAt := Some(now))
    case _ => s.(polls := s.polls + 1, unknown := s.unknown + 1)
  }

  /** One tick, with or without a pause hook wired. */
  function PollOnce(hooked: bool, s: PollerState, hook: HookAnswer, answer: ProbeAnswer, now: real): (r: PollerState) {
    if hooked && hook == Says(true) then s.(skipped := s.skipped + 1)
    else if hooked && hook == HookRaises then Probe(s.(pauseErrors := s.pauseErrors + 1), answer, now)
    else Probe(s, answer, now)
  }

  function PollerStep(hooked: bool, s: PollerState, e: PollerEvent): (r: PollerState) {
    match e
    case Tick(hook, answer, now) => PollOnce(hooked, s, hook, answer, now)
    case Observe(measured, now) =>
      s.(reading := measured, readingAt := if measured == None then None else Some(now))
    case HoldOpens(_) => s.(assumedOn := s.assumedOn + 1)
    case HoldCloses(_) => s.(assumedOn := s.assumedOn - 1)
  }

  function PollerRun(hooked: bool, evs: seq<PollerEvent>): (s: PollerState) {
    if evs == [] then NEW
    else PollerStep(hooked, PollerRun(hooked, evs[..|evs| - 1]), evs[|evs| - 1])
  }

  /** The block handed to the bridges. */
  function Report(s: PollerState, fallback: Option<Block>): (r: Option<Block>) {
    var reading := if s.assumedOn != 0 then Some(true) else s.reading;
    if reading == None then fallback
    else if fallback == None then Some(Block(reading.value, None, None, None, 0))
    else Some(fallback.value.(on := reading.value))
  }

  // ----- What pausing costs ------------------------------------------------------------------

  /** The tick is skipped by a hooked cadence although its probe would have answered. */
  predicate IsLost(e: PollerEvent) {
    e.Tick? && e.hook == Says(true) && e.probe.Answers?
  }

  /** Every probe a pause skips would have learned nothing. */
  ghost predicate PausedProbesLearnNothing(evs: seq<PollerEvent>) {
    forall i :: 0 <= i < |evs| ==> !IsLost(evs[i])
  }

  /** How many events of a run satisfy `p`. */
  function Count(p: PollerEvent -> bool, evs: seq<PollerEvent>): (n: nat) {
    if evs == [] then 0 else Count(p, evs[..|evs| - 1]) + if p(evs[|evs| - 1]) then 1 else 0
  }

  lemma {:induction false} CountIsZeroIffNone(p: PollerEvent -> bool, evs: seq<PollerEvent>)
    ensures Count(p, evs) == 0 <==> forall i :: 0 <= i < |evs| ==> !p(evs[i])
  {
    if evs != [] {
      var t := evs[..|evs| - 1];
      CountIsZeroIffNone(p, t);
      assert forall i :: 0 <= i < |t| ==> t[i] == evs[i];
    }
  }

  const SKIPPED := (e: PollerEvent) => e.Tick? && e.hook == Says(true)
  const LOST := (e: PollerEvent) => IsLost(e)
  const BROKEN_HOOK := (e: PollerEvent) => e.Tick? && e.hook == HookRaises

  /** The counters of a hooked state `h` and an unhooked state `u`, over the same run. */
  ghost predicate IsAccounted(h: PollerState, u: PollerState, evs: seq<PollerEvent>) {
    && h.skipped == Count(SKIPPED, evs) && u.skipped == 0
    && h.pauseErrors == Count(BROKEN_HOOK, evs) && u.pauseErrors == 0
    && u.polls == h.polls + h.skipped
    && u.unknown + Count(LOST, evs) == h.unknown + h.skipped
    && u.assumedOn == h.assumedOn
  }

  /** Whatever the probes would have answered, the counters of the two cadences differ by exactly the
      ticks skipped, the answers lost to them, and the failures of the hook itself. */
  lemma {:induction false} SkipsAreExactlyAccounted(evs: seq<PollerEvent>)
    ensures IsAccounted(PollerRun(true, evs), PollerRun(false, evs), evs)
  {
    if evs != [] {
      SkipsAreExactlyAccounted(evs[..|evs| - 1]);
    }
  }

  /** The hooked state `h` and the unhooked state `u` know the same, and every skip is a poll that would
      have counted as unknown. The hook's own failures are counted on one side only. */
  ghost predicate SameButSkips(h: PollerState, u: PollerState) {
    && h.reading == u.reading && h.readingAt == u.readingAt && h.assumedOn == u.assumedOn
    && u.polls == h.polls + h.skipped
    && u.unknown == h.unknown + h.skipped
  }

  /** A pause loses nothing if and only if no probe it skipped would have answered. */
  lemma {:induction false} PausingIsExactIffNothingIsLost(evs: seq<PollerEvent>)
    ensures SameButSkips(PollerRun(true, evs), PollerRun(false, evs)) <==> PausedProbesLearnNothing(evs)
  {
    SkipsAreExactlyAccounted(evs);
    CountIsZeroIffNone(LOST, evs);
    if PausedProbesLearnNothing(evs) {
      SkippedProbesHoldTheReading(evs);
    }
  }

  lemma {:induction false} SkippedProbesHoldTheReading(evs: seq<PollerEvent>)
    requires PausedProbesLearnNothing(evs)
    ensures PollerRun(true, evs).reading == PollerRun(false, evs).reading
    ensures PollerRun(true, evs).readingAt == PollerRun(false, evs).readingAt
  {
    if evs != [] {
      var t := evs[..|evs| - 1];
      assert forall i :: 0 <= i < |t| ==> t[i] == evs[i];
      assert !IsLost(evs[|evs| - 1]);
      SkippedProbesHoldTheReading(t);
    }
  }

  /** In that case a paused cadence simulates an unpaused one exactly: they agree on the reading, on its
      age and on every report to the bridges. */
  lemma {:induction false} PausingIsAnExactSimulation(evs: seq<PollerEvent>)
    requires PausedProbesLearnNothing(evs)
    ensures SameButSkips(PollerRun(true, evs), PollerRun(false, evs))
    ensures forall fallback :: Report(PollerRun(true, evs), fallback) == Report(PollerRun(false, evs), fallback)
  {
    PausingIsExactIffNothingIsLost(evs);
  }

  /** The two cadences have held the same reading at every instant of the run. */
  ghost predicate ReadingsAgreeThroughout(evs: seq<PollerEvent>) {
    forall k :: 0 <= k <= |evs| ==> PollerRun(true, evs[..k]).reading == PollerRun(false, evs[..k]).reading
  }

  /** Every answer lost to a pause would only have confirmed the reading the paused cadence held. */
  ghost predicate LostAnswersConfirm(evs: seq<PollerEvent>) {
    forall k :: 0 <= k < |evs| && IsLost(evs[k]) ==> PollerRun(true, evs[..k]).reading == Some(evs[k].probe.on)
  }

  lemma StepAgreesIffConfirmed(h: PollerState, u: PollerState, e: PollerEvent)
    requires h.reading == u.reading
    ensures PollerStep(true, h, e).reading == PollerStep(false, u, e).reading
            <==> (IsLost(e) ==> h.reading == Some(e.probe.on))
  {
  }

  lemma ReadingsAgreeOneMore(evs: seq<PollerEvent>, k: nat)
    requires k < |evs| && PollerRun(true, evs[..k]).reading == PollerRun(false, evs[..k]).reading
    ensures PollerRun(true, evs[..k + 1]).reading == PollerRun(false, evs[..k + 1]).reading
            <==> (IsLost(evs[k]) ==> PollerRun(true, evs[..k]).reading == Some(evs[k].probe.on))
  {
    assert evs[..k + 1][..k] == evs[..k];
    StepAgreesIffConfirmed(PollerRun(true, evs[..k]), PollerRun(false, evs[..k]), evs[k]);
  }

  lemma {:induction false} ConfirmedReadingsAgree(evs: seq<PollerEvent>, k: nat)
    requires k <= |evs| && LostAnswersConfirm(evs)
    ensures PollerRun(true, evs[..k]).reading == PollerRun(false, evs[..k]).reading
  {
    if k > 0 {
      ConfirmedReadingsAgree(evs, k - 1);
      ReadingsAgreeOneMore(evs, k - 1);
    }
  }

  /** The reading the mute acts on, as opposed to its age and the counters, survives a pause at every
      instant if and only if each answer the pause lost would only have confirmed it. */
  lemma ReadingsAgreeIffLostAnswersConfirm(evs: seq<PollerEvent>)
    ensures ReadingsAgreeThroughout(evs) <==> LostAnswersConfirm(evs)
  {
    if ReadingsAgreeThroughout(evs) {
      forall k | 0 <= k < |evs| && IsLost(evs[k])
        ensures PollerRun(true, evs[..k]).reading == Some(evs[k].probe.on)
      {
        ReadingsAgreeOneMore(evs, k);
      }
    }
    if LostAnswersConfirm(evs) {
      forall k | 0 <= k <= |evs|
        ensures PollerRun(true, evs[..k]).reading == PollerRun(false, evs[..k]).reading
      {
        ConfirmedReadingsAgree(evs, k);
      }
    }
  }

  /** An input on which pausing does lose a reading. The pause hook already holds while a key-up has only
      reserved the wire, with the line still low; a radio that is not yet transmitting answers. */
  lemma PausingAnAnsweringProbeLosesAReading()
    ensures var evs := [Tick(Says(true), Answers(true), 1.0)];
            && !SameButSkips(PollerRun(true, evs), PollerRun(false, evs))
            && PollerRun(true, evs).reading != PollerRun(false, evs).reading
  {
    var evs := [Tick(Says(true), Answers(true), 1.0)];
    assert IsLost(evs[0]);
    PausingIsExactIffNothingIsLost(evs);
    ReadingsAgreeIffLostAnswersConfirm(evs);
    assert evs[..0] == [] && evs[..1] == evs;
  }

  // ----- Holds -------------------------------------------------------------------------------

  /** The holds open after a run. */
  function OpenHolds(evs: seq<PollerEvent>): (open: set<nat>) {
    if evs == [] then {}
    else
      var before, e := OpenHolds(evs[..|evs| - 1]), evs[|evs| - 1];
      match e
      case HoldOpens(id) => before + {id}
      case HoldCloses(id) => before - {id}
      case _ => before
  }

  /** Each hold is entered once and left only after it was entered, as a context manager is. */
  ghost predicate HoldsAreScoped(evs: seq<PollerEvent>) {
    forall i :: 0 <= i < |evs| ==>
      && (evs[i].HoldOpens? ==> evs[i].id !in OpenHolds(evs[..i]))
      && (evs[i].HoldCloses? ==> evs[i].id in OpenHolds(evs[..i]))
  }

  lemma ScopedPrefix(evs: seq<PollerEvent>, n: nat)
    requires HoldsAreScoped(evs) && n <= |evs|
    ensures HoldsAreScoped(evs[..n])
  {
    forall i | 0 <= i < n
      ensures evs[..n][..i] == evs[..i]
    {
    }
  }

  /** The counter counts the open holds: no request can disarm another's. */
  lemma {:induction false} HoldsDoNotDisarmEachOther(hooked: bool, evs: seq<PollerEvent>)
    requires HoldsAreScoped(evs)
    ensures PollerRun(hooked, evs).assumedOn == |OpenHolds(evs)|
  {
    if evs != [] {
      var n := |evs| - 1;
      ScopedPrefix(evs, n);
      HoldsDoNotDisarmEachOther(hooked, evs[..n]);
      HoldCountOfStep(hooked, PollerRun(hooked, evs[..n]), evs[n]);
      var e, open := evs[n], OpenHolds(evs[..n]);
      if e.HoldOpens? {
        assert e.id !in open;
        assert |open + {e.id}| == |open| + 1;
      } else if e.HoldCloses? {
        assert e.id in open;
        assert |open - {e.id}| == |open| - 1;
      }
    }
  }

  lemma HoldCountOfStep(hooked: bool, s: PollerState, e: PollerEvent)
    ensures PollerStep(hooked, s, e).assumedOn ==
            s.assumedOn + if e.HoldOpens? then 1 else if e.HoldCloses? then -1 else 0
  {
  }

  /** While any hold is open the report is "on", whatever polls and observations landed meanwhile, over
      the snapshot's other fields. */
  lemma OpenHoldReportsOn(hooked: bool, evs: seq<PollerEvent>, id: nat, fallback: Option<Block>)
    requires HoldsAreScoped(evs) && id in OpenHolds(evs)
    ensures SaysOver(Report(PollerRun(hooked, evs), fallback), true, fallback)
  {
    HoldsDoNotDisarmEachOther(hooked, evs);
  }

  function WithoutHolds(evs: seq<PollerEvent>): (r: seq<PollerEvent>) {
    if evs == [] then []
    else
      var e := evs[|evs| - 1];
      WithoutHolds(evs[..|evs| - 1]) + if e.HoldOpens? || e.HoldCloses? then [] else [e]
  }

  lemma StepIgnoresHolds(hooked: bool, s: PollerState, e: PollerEvent)
    ensures PollerStep(hooked, s, e).(assumedOn := 0) ==
            if e.HoldOpens? || e.HoldCloses? then s.(assumedOn := 0)
            else PollerStep(hooked, s.(assumedOn := 0), e)
  {
  }

  /** A hold is not a write: the run measures what it would have measured with no holds at all, so
      once the last one closes the cadence's own knowledge decides. */
  lemma {:induction false} HoldsLeaveTheReadingAlone(hooked: bool, evs: seq<PollerEvent>)
    ensures PollerRun(hooked, evs).(assumedOn := 0) == PollerRun(hooked, WithoutHolds(evs))
  {
    if evs != [] {
      var n := |evs| - 1;
      var t, e := evs[..n], evs[n];
      HoldsLeaveTheReadingAlone(hooked, t);
      StepIgnoresHolds(hooked, PollerRun(hooked, t), e);
      var w := WithoutHolds(t);
      if e.HoldOpens? || e.HoldCloses? {
        assert WithoutHolds(evs) == w;
      } else {
        assert WithoutHolds(evs) == w + [e];
        assert (w + [e])[..|w|] == w;
      }
    }
  }

  /** Once every hold is closed the report is the one a run with no holds would give. */
  lemma ReleasedHoldsLeaveNoTrace(hooked: bool, evs: seq<PollerEvent>, fallback: Option<Block>)
    requires HoldsAreScoped(evs) && OpenHolds(evs) == {}
    ensures Report(PollerRun(hooked, evs), fallback) == Report(PollerRun(hooked, WithoutHolds(evs)), fallback)
  {
    HoldsDoNotDisarmEachOther(hooked, evs);
    HoldsLeaveTheReadingAlone(hooked, evs);
  }

  // ----- What is reported --------------------------------------------------------------------

  /** The event settles what the cadence knows: a tick that was taken and answered, or a reading handed
      over from elsewhere. */
  predicate IsDefinite(hooked: bool, e: PollerEvent) {
    || e.Observe?
    || (e.Tick? && e.probe.Answers? && !(hooked && e.hook == Says(true)))
  }

  /** What a definite event says: on, off, or that the reading is no longer known. */
  function SaidBy(e: PollerEvent): (said: Option<bool>)
    requires e.Observe? || (e.Tick? && e.probe.Answers?)
  {
    if e.Observe? then e.measured else Some(e.probe.on)
  }

  /** Event `k` is the last definite one of the run. */
  ghost predicate IsLastDefinite(hooked: bool, evs: seq<PollerEvent>, k: nat) {
    && k < |evs| && IsDefinite(hooked, evs[k])
    && forall m :: k < m < |evs| ==> !IsDefinite(hooked, evs[m])
  }

  ghost predicate NothingDefinite(hooked: bool, evs: seq<PollerEvent>) {
    forall m :: 0 <= m < |evs| ==> !IsDefinite(hooked, evs[m])
  }

  lemma StepKeepsIndefinite(hooked: bool, s: PollerState, e: PollerEvent)
    requires !IsDefinite(hooked, e)
    ensures PollerStep(hooked, s, e).reading == s.reading && PollerStep(hooked, s, e).readingAt == s.readingAt
  {
  }

  /** What is known is what the last definite event said, as of its own time. */
  lemma {:induction false} ReadingIsTheLastDefinite(hooked: bool, evs: seq<PollerEvent>, k: nat)
    requires IsLastDefinite(hooked, evs, k)
    ensures var s := PollerRun(hooked, evs);
            && s.reading == SaidBy(evs[k])
            && s.readingAt == if SaidBy(evs[k]) == None then None else Some(evs[k].at)
  {
    var n := |evs| - 1;
    if k < n {
      assert forall m :: 0 <= m < n ==> evs[..n][m] == evs[m];
      ReadingIsTheLastDefinite(hooked, evs[..n], k);
      StepKeepsIndefinite(hooked, PollerRun(hooked, evs[..n]), evs[n]);
    }
  }

  lemma {:induction false} NothingDefiniteMeansUnknown(hooked: bool, evs: seq<PollerEvent>)
    requires NothingDefinite(hooked, evs)
    ensures PollerRun(hooked, evs).reading == None && PollerRun(hooked, evs).readingAt == None
  {
    if evs != [] {
      var n := |evs| - 1;
      assert forall m :: 0 <= m < n ==> evs[..n][m] == evs[m];
      NothingDefiniteMeansUnknown(hooked, evs[..n]);
      StepKeepsIndefinite(hooked, PollerRun(hooked, evs[..n]), evs[n]);
    }
  }

  /** `r` says `on`, and carries every other field of the key-up snapshot there is. */
  predicate SaysOver(r: Option<Block>, on: bool, fallback: Option<Block>) {
    && r.Some? && r.value.on == on
    && (fallback.Some? ==>
        && r.value.hz == fallback.value.hz && r.value.band == fallback.value.band
        && r.value.blocksTx == fallback.value.blocksTx && r.value.rescues == fallback.value.rescues)
    && (fallback == None ==>
        r.value.hz == None && r.value.band == None && r.value.blocksTx == None && r.value.rescues == 0)
  }

  /** With no hold open, the bridges are told what the last definite event said, over the snapshot's
      other fields; and the snapshot itself when that event withdrew the reading. */
  lemma ReportSaysTheLastDefinite(hooked: bool, evs: seq<PollerEvent>, k: nat, fallback: Option<Block>)
    requires HoldsAreScoped(evs) && OpenHolds(evs) == {}
    requires IsLastDefinite(hooked, evs, k)
    ensures var r, said := Report(PollerRun(hooked, evs), fallback), SaidBy(evs[k]);
            if said.Some? then SaysOver(r, said.value, fallback) else r == fallback
  {
    HoldsDoNotDisarmEachOther(hooked, evs);
    ReadingIsTheLastDefinite(hooked, evs, k);
  }

  /** And the snapshot itself when there has been no definite event. */
  lemma ReportFallsBack(hooked: bool, evs: seq<PollerEvent>, fallback: Option<Block>)
    requires HoldsAreScoped(evs) && OpenHolds(evs) == {}
    requires NothingDefinite(hooked, evs)
    ensures Report(PollerRun(hooked, evs), fallback) == fallback
  {
    HoldsDoNotDisarmEachOther(hooked, evs);
    NothingDefiniteMeansUnknown(hooked, evs);
  }

  /** The counters of one cadence: every tick is a skip or a poll, and a poll is unknown unless it was
      answered. */
  lemma {:induction false} EveryTickIsCounted(hooked: bool, evs: seq<PollerEvent>)
    ensures var s := PollerRun(hooked, evs);
            && s.skipped == Count((e: PollerEvent) => IsSkip(hooked, e), evs)
            && s.polls == Count((e: PollerEvent) => e.Tick? && !IsSkip(hooked, e), evs)
            && s.unknown == Count((e: PollerEvent) => e.Tick? && !IsSkip(hooked, e) && !e.probe.Answers?, evs)
  {
    if evs != [] {
      EveryTickIsCounted(hooked, evs[..|evs| - 1]);
    }
  }

  predicate IsSkip(hooked: bool, e: PollerEvent) {
    hooked && e.Tick? && e.hook == Says(true)
  }

  // ----- The object --------------------------------------------------------------------------

  class BroadcastFmPoller {
    const hooked: bool
    var reading: Option<bool>
    var readingAt: Option<real>
    var polls: nat
    var unknown: nat
    var skipped: nat
    var pauseErrors: nat
    var assumedOn: int

    ghost function State(): PollerState
      reads this
    {
      PollerState(reading, readingAt, polls, unknown, skipped, pauseErrors, assumedOn)
    }

    constructor (hooked: bool)
      ensures this.hooked == hooked && State() == NEW
    {
      this.hooked := hooked;
      reading, readingAt := None, None;
      polls, unknown, skipped, pauseErrors, assumedOn := 0, 0, 0, 0, 0;
    }

    method Poll(hook: HookAnswer, answer: ProbeAnswer, now: real)
      modifies this
      ensures State() == PollerStep(hooked, old(State()), Tick(hook, answer, now))
    {
      if hooked {
        var paused := hook == Says(true);
        if hook == HookRaises {
          pauseErrors := pauseErrors + 1;
        }
        if paused {
          skipped := skipped + 1;
          return;
        }
      }
      polls := polls + 1;
      if !answer.Answers? {
        unknown := unknown + 1;
        return;
      }
      reading := Some(answer.on);
      readingAt := Some(now);
    }

    method Current(fallback: Option<Block>) returns (r: Option<Block>)
      ensures r == Report(State(), fallback)
      ensures assumedOn != 0 ==> SaysOver(r, true, fallback)
      ensures assumedOn == 0 && reading.Some? ==> SaysOver(r, reading.value, fallback)
      ensures assumedOn == 0 && reading == None ==> r == fallback
    {
      var now := if assumedOn != 0 then Some(true) else reading;
      if now == None {
        return fallback;
      }
      if fallback == None {
        return Some(Block(now.value, None, None, None, 0));
      }
      var b := fallback.value;
      return Some(Block(now.value, b.hz, b.band, b.blocksTx, b.rescues));
    }

    /** Take over a reading made elsewhere; the one it replaces is returned. */
    method ObserveReading(measured: Option<bool>, now: real) returns (prior: Option<bool>)
      modifies this
      ensures prior == old(reading)
      ensures State() == PollerStep(hooked, old(State()), Observe(measured, now))
    {
      prior := reading;
      reading := measured;
      readingAt := if measured == None then None else Some(now);
    }

    method EnterHold(ghost id: nat)
      modifies this
      ensures State() == PollerStep(hooked, old(State()), HoldOpens(id))
    {
      assumedOn := assumedOn + 1;
    }

    method LeaveHold(ghost id: nat)
      modifies this
      ensures State() == PollerStep(hooked, old(State()), HoldCloses(id))
    {
      assumedOn := assumedOn - 1;
    }
  }
}
