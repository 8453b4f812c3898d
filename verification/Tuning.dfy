/**
 Tuning through staged setters. Setters build up a pending channel; a commit hands it to a tuner that
 may refuse; batches nest and commit once, on the outermost exit. The pending-or-tuned pair is proved
 to carry exactly the fold of every accepted request, whatever fails on the way.
 */
module Tuning {
  import opened Prelude

  // ----- Channels ----------------------------------------------------------------------------

  datatype VfoImage = VfoImage(rxHz: int, txHz: int, ctcssTenths: int, narrow: bool, power: int)

  const BAND_EDGES_HZ: seq<(int, int)> := [
    (18_000_000, 108_000_000), (108_000_000, 137_000_000), (137_000_000, 174_000_000),
    (174_000_000, 350_000_000), (350_000_000, 400_000_000), (400_000_000, 470_000_000),
    (470_000_000, 1_300_000_000)]

  const CTCSS_OPTIONS: seq<int> := [
    670, 693, 719, 744, 770, 797, 825, 854, 885, 915,
    948, 974, 1000, 1035, 1072, 1109, 1148, 1188, 1230, 1273,
    1318, 1365, 1413, 1462, 1514, 1567, 1598, 1622, 1655, 1679,
    1713, 1738, 1773, 1799, 1835, 1862, 1899, 1928, 1966, 1995,
    2035, 2065, 2107, 2181, 2257, 2291, 2336, 2418, 2503, 2541]

  const POWER_LOW := 0
  const POWER_MID := 1
  const POWER_HIGH := 2

  /** The band containing a frequency: scan down for the highest band that starts at or below it, then
      refuse if the frequency is past that band's end. */
  function BandFor(hz: int, from: nat := 6): (band: Option<nat>)
    requires from <= 6
  {
    if hz >= BAND_EDGES_HZ[from].0 then if hz > BAND_EDGES_HZ[from].1 then None else Some(from)
    else if from == 0 then None
    else BandFor(hz, from - 1)
  }

  /** The bands leave no hole: a frequency has a band if and only if it is within the outer edges, and
      the band is the last one that starts at or below it. */
  lemma BandsLeaveNoHole(hz: int)
    ensures BandFor(hz).Some? <==> 18_000_000 <= hz <= 1_300_000_000
    ensures BandFor(hz).Some? ==>
              var b := BandFor(hz).value;
              && b < 7 && BAND_EDGES_HZ[b].0 <= hz <= BAND_EDGES_HZ[b].1
              && forall c :: b < c < 7 ==> hz < BAND_EDGES_HZ[c].0
  {
    assert BandFor(hz) == if hz >= 470_000_000 then (if hz > 1_300_000_000 then None else Some(6)) else BandFor(hz, 5);
    assert BandFor(hz, 5) == if hz >= 400_000_000 then (if hz > 470_000_000 then None else Some(5)) else BandFor(hz, 4);
    assert BandFor(hz, 4) == if hz >= 350_000_000 then (if hz > 400_000_000 then None else Some(4)) else BandFor(hz, 3);
    assert BandFor(hz, 3) == if hz >= 174_000_000 then (if hz > 350_000_000 then None else Some(3)) else BandFor(hz, 2);
    assert BandFor(hz, 2) == if hz >= 137_000_000 then (if hz > 174_000_000 then None else Some(2)) else BandFor(hz, 1);
    assert BandFor(hz, 1) == if hz >= 108_000_000 then (if hz > 137_000_000 then None else Some(1)) else BandFor(hz, 0);
    assert BandFor(hz, 0) == if hz >= 18_000_000 then (if hz > 108_000_000 then None else Some(0)) else None;
  }

  predicate IsTunableLeg(hz: int) {
    hz > 0 && BandFor(hz).Some?
  }

  predicate IsTone(tenths: int) {
    tenths == 0 || tenths in CTCSS_OPTIONS
  }

  predicate IsPower(step: int) {
    step == POWER_LOW || step == POWER_MID || step == POWER_HIGH
  }

  /** The construction checks of a channel image. */
  predicate IsChannel(v: VfoImage) {
    IsTunableLeg(v.rxHz) && IsTunableLeg(v.txHz) && IsPower(v.power) && IsTone(v.ctcssTenths)
  }

  function PowerStep(level: string): (step: Option<int>) {
    if level == "low" then Some(POWER_LOW)
    else if level == "mid" then Some(POWER_MID)
    else if level == "high" then Some(POWER_HIGH)
    else None
  }

  datatype Capability =
    | SET_FREQUENCY | SET_SPLIT | SET_MODE | SET_MODULATION | SET_TONE | SET_POWER | SET_CHANNEL

  /** The three levels, in rising order. */
  lemma PowerLevelsRise()
    ensures PowerStep("low") == Some(0) && PowerStep("mid") == Some(1) && PowerStep("high") == Some(2)
    ensures forall level :: PowerStep(level).Some? <==> level == "low" || level == "mid" || level == "high"
  {
  }

  // ----- What is wanted ----------------------------------------------------------------------

  /** A setter request, its text already stripped and case-folded. */
  datatype Change =
    | SetFrequency(hz: int)
    | SetSplit(tx: Option<int>)
    | SetTone(tenths: Option<int>)
    | SetMode(mode: string)
    | SetPower(level: string)

  function CapabilityOf(c: Change): (cap: Capability) {
    match c
    case SetFrequency(_) => SET_FREQUENCY
    case SetSplit(_) => SET_SPLIT
    case SetTone(_) => SET_TONE
    case SetMode(_) => SET_MODE
    case SetPower(_) => SET_POWER
  }

  /** The channel asked for so far, and the station's power level. */
  datatype Intent = Intent(channel: Option<VfoImage>, power: int)

  datatype Outcome = Done | Unsupported | NotReady | BadValue | RefusedTransmitting | TuneFailed

  function Staged(i: Intent, v: VfoImage, power: int): (r: (Outcome, Intent)) {
    if IsChannel(v) then (Done, Intent(Some(v), power)) else (BadValue, i)
  }

  /** What a request makes of what is wanted; a refused request changes nothing. */
  function Wish(i: Intent, c: Change): (r: (Outcome, Intent))
    ensures r.0 != Done ==> r.1 == i
  {
    match c
    case SetFrequency(hz) =>
      var v := if i.channel.Some? then i.channel.value else VfoImage(hz, hz, 0, false, i.power);
      Staged(i, v.(rxHz := hz, txHz := hz), i.power)
    case SetSplit(tx) =>
      if i.channel == None then (NotReady, i)
      else
        var v := i.channel.value;
        Staged(i, v.(txHz := if tx.Some? then tx.value else v.rxHz), i.power)
    case SetTone(tenths) =>
      if i.channel == None then (NotReady, i)
      else Staged(i, i.channel.value.(ctcssTenths := if tenths.Some? then tenths.value else 0), i.power)
    case SetMode(mode) =>
      if mode != "FM" && mode != "NFM" then (BadValue, i)
      else if i.channel == None then (NotReady, i)
      else Staged(i, i.channel.value.(narrow := mode == "NFM"), i.power)
    case SetPower(level) =>
      var want := PowerStep(level);
      if want == None then (BadValue, i)
      else if i.channel == None then (Done, Intent(None, want.value))
      else Staged(i, i.channel.value.(power := want.value), want.value)
  }

  // ----- The backend as a state machine ------------------------------------------------------

  /** `caps` is what the radio advertises; with no tuner attached it is none of the setters. */
  datatype TuneState = TuneState(
    caps: set<Capability>, tuned: Option<VfoImage>, pending: Option<VfoImage>, power: int, batchDepth: int, transmitting: bool,
    modulation: Option<string>,  // the demodulator last confirmed; no part of a channel
    attempts: seq<VfoImage>, confirmed: seq<VfoImage>)

  /** A new backend, at the configured station power. */
  function Booted(caps: set<Capability>, power: int): (s: TuneState) {
    TuneState(caps, None, None, power, 0, false, None, [], [])
  }

  /** `tunerOk` is what the tuner would answer if this step hands it a channel. */
  datatype TuneOp =
    | Request(change: Change, tunerOk: bool)
    | EnterBatch
    | ExitBatch(tunerOk: bool)
    | UnwindBatch           // an exception leaves the batch: no commit
    | Keying(on: bool)      // the transmitter comes up or goes down
    | Demodulate(modulation: string, tunerOk: bool)  // set straight on the tuner, never staged

  function Current(s: TuneState): (v: Option<VfoImage>) {
    if s.pending.Some? then s.pending else s.tuned
  }

  function IntentOf(s: TuneState): (i: Intent) {
    Intent(Current(s), s.power)
  }

  function Commit(s: TuneState, tunerOk: bool): (r: (Outcome, TuneState)) {
    if s.pending == None || s.pending == s.tuned then (Done, s.(pending := None))
    else if s.transmitting then (RefusedTransmitting, s)
    else
      var v := s.pending.value;
      var tried := s.(attempts := s.attempts + [v]);
      if !tunerOk then (TuneFailed, tried)
      else (Done, tried.(tuned := Some(v), pending := None, confirmed := s.confirmed + [v]))
  }

  function RequestStep(s: TuneState, c: Change, tunerOk: bool): (r: (Outcome, TuneState)) {
    var (outcome, i) := Wish(IntentOf(s), c);
    if CapabilityOf(c) !in s.caps then (Unsupported, s)
    else if outcome != Done then (outcome, s)
    else
      var staged := s.(pending := i.channel, power := i.power);
      if s.batchDepth == 0 then Commit(staged, tunerOk) else (Done, staged)
  }

  function DemodulateStep(s: TuneState, m: string, tunerOk: bool): (r: (Outcome, TuneState)) {
    if SET_MODULATION !in s.caps then (Unsupported, s)
    else if tunerOk then (Done, s.(modulation := Some(m)))
    else (TuneFailed, s)
  }

  function ExitStep(s: TuneState, tunerOk: bool): (r: (Outcome, TuneState)) {
    var left := s.(batchDepth := s.batchDepth - 1);
    if left.batchDepth == 0 then Commit(left, tunerOk) else (Done, left)
  }

  function TuneStep(s: TuneState, op: TuneOp): (s': TuneState) {
    match op
    case Request(c, ok) => RequestStep(s, c, ok).1
    case EnterBatch => s.(batchDepth := s.batchDepth + 1)
    case ExitBatch(ok) => ExitStep(s, ok).1
    case UnwindBatch => s.(batchDepth := s.batchDepth - 1)
    case Keying(on) => s.(transmitting := on)
    case Demodulate(m, ok) => DemodulateStep(s, m, ok).1
  }

  function RunFrom(s: TuneState, ops: seq<TuneOp>): (s': TuneState) {
    if ops == [] then s
    else TuneStep(RunFrom(s, ops[..|ops| - 1]), ops[|ops| - 1])
  }

  /** The operation is a request the radio has a setter for. */
  predicate IsSupported(caps: set<Capability>, op: TuneOp) {
    op.Request? && CapabilityOf(op.change) in caps
  }

  /** The fold of every supported request, blind to batches, commits, failures and the transmitter. */
  function FoldWishes(caps: set<Capability>, i: Intent, ops: seq<TuneOp>): (r: Intent) {
    if ops == [] then i
    else
      var before := FoldWishes(caps, i, ops[..|ops| - 1]);
      if IsSupported(caps, ops[|ops| - 1]) then Wish(before, ops[|ops| - 1].change).1 else before
  }

  lemma StepFollowsTheWish(s: TuneState, op: TuneOp)
    ensures TuneStep(s, op).caps == s.caps
    ensures IntentOf(TuneStep(s, op)) ==
            if IsSupported(s.caps, op) then Wish(IntentOf(s), op.change).1 else IntentOf(s)
  {
    CommitKeepsTheIntent(s);
    CommitKeepsTheIntent(s.(batchDepth := s.batchDepth - 1));
    if op.Request? {
      var i := Wish(IntentOf(s), op.change).1;
      CommitKeepsTheIntent(s.(pending := i.channel, power := i.power));
    }
  }

  lemma CommitKeepsTheIntent(s: TuneState)
    ensures forall ok :: IntentOf(Commit(s, ok).1) == IntentOf(s)
  {
  }

  /** Over any run of setters, nested and unwound batches, failing tunes and refusals while
      transmitting, pending-or-tuned is exactly the fold of the accepted requests. */
  lemma {:induction false} PendingOrTunedIsTheFold(s: TuneState, ops: seq<TuneOp>)
    ensures RunFrom(s, ops).caps == s.caps
    ensures IntentOf(RunFrom(s, ops)) == FoldWishes(s.caps, IntentOf(s), ops)
  {
    if ops != [] {
      PendingOrTunedIsTheFold(s, ops[..|ops| - 1]);
      StepFollowsTheWish(RunFrom(s, ops[..|ops| - 1]), ops[|ops| - 1]);
    }
  }

  ghost predicate TunedIsConfirmed(s: TuneState) {
    s.tuned == if s.confirmed == [] then None else Some(s.confirmed[|s.confirmed| - 1])
  }

  lemma StepKeepsTunedConfirmed(s: TuneState, op: TuneOp)
    requires TunedIsConfirmed(s)
    ensures TunedIsConfirmed(TuneStep(s, op))
  {
  }

  /** `tuned` is always the last channel the tuner confirmed, and only the tuner's confirmations move it. */
  lemma {:induction false} TunedIsTheLastConfirmed(caps: set<Capability>, power: int, ops: seq<TuneOp>)
    ensures TunedIsConfirmed(RunFrom(Booted(caps, power), ops))
  {
    if ops != [] {
      TunedIsTheLastConfirmed(caps, power, ops[..|ops| - 1]);
      StepKeepsTunedConfirmed(RunFrom(Booted(caps, power), ops[..|ops| - 1]), ops[|ops| - 1]);
    }
  }

  /** The station level is the level of the channel, and every channel held is a real one. */
  ghost predicate IsConsistent(i: Intent) {
    && IsPower(i.power)
    && (i.channel.Some? ==> IsChannel(i.channel.value) && i.channel.value.power == i.power)
  }

  lemma WishStaysConsistent(i: Intent, op: TuneOp)
    requires IsConsistent(i)
    ensures op.Request? ==> IsConsistent(Wish(i, op.change).1)
  {
  }

  lemma {:induction false} FoldStaysConsistent(caps: set<Capability>, i: Intent, ops: seq<TuneOp>)
    requires IsConsistent(i)
    ensures IsConsistent(FoldWishes(caps, i, ops))
  {
    if ops != [] {
      FoldStaysConsistent(caps, i, ops[..|ops| - 1]);
      WishStaysConsistent(FoldWishes(caps, i, ops[..|ops| - 1]), ops[|ops| - 1]);
    }
  }

  // ----- What each request does --------------------------------------------------------------

  /** The request was turned down before anything was staged. */
  predicate IsRefusal(outcome: Outcome) {
    outcome == Unsupported || outcome == NotReady || outcome == BadValue
  }

  /** The request makes sense for what is wanted so far. */
  predicate IsMeaningful(i: Intent, c: Change) {
    match c
    case SetFrequency(hz) => IsTunableLeg(hz)
    case SetSplit(tx) => i.channel.Some? && (tx.Some? ==> IsTunableLeg(tx.value))
    case SetTone(tenths) => i.channel.Some? && (tenths.Some? ==> IsTone(tenths.value))
    case SetMode(mode) => i.channel.Some? && (mode == "FM" || mode == "NFM")
    case SetPower(level) => level == "low" || level == "mid" || level == "high"
  }

  /** A request is turned down if and only if the radio has no setter for it or it makes no sense. */
  lemma RefusedIffMeaningless(s: TuneState, c: Change, tunerOk: bool)
    requires IsConsistent(IntentOf(s))
    ensures IsRefusal(RequestStep(s, c, tunerOk).0) <==> CapabilityOf(c) !in s.caps || !IsMeaningful(IntentOf(s), c)
  {
  }

  /** What is wanted shows the request. */
  predicate Reflects(i: Intent, c: Change) {
    match c
    case SetFrequency(hz) => i.channel.Some? && i.channel.value.rxHz == hz && i.channel.value.txHz == hz
    case SetSplit(tx) =>
      i.channel.Some? && i.channel.value.txHz == (if tx.Some? then tx.value else i.channel.value.rxHz)
    case SetTone(tenths) =>
      i.channel.Some? && i.channel.value.ctcssTenths == (if tenths.Some? then tenths.value else 0)
    case SetMode(mode) => i.channel.Some? && (i.channel.value.narrow <==> mode == "NFM")
    case SetPower(level) =>
      PowerStep(level) == Some(i.power) && (i.channel.Some? ==> i.channel.value.power == i.power)
  }

  /** A later request of kind `d` speaks about the same part of the channel as `c`. */
  predicate Overrides(d: Change, c: Change) {
    match d
    case SetFrequency(_) => c.SetFrequency? || c.SetSplit?
    case SetSplit(_) => c.SetFrequency? || c.SetSplit?
    case SetTone(_) => c.SetTone?
    case SetMode(_) => c.SetMode?
    case SetPower(_) => c.SetPower?
  }

  /** Operation `k` of the run is a request that was not turned down. */
  ghost predicate IsAccepted(s: TuneState, ops: seq<TuneOp>, k: nat)
    requires k < |ops|
  {
    ops[k].Request? && !IsRefusal(RequestStep(RunFrom(s, ops[..k]), ops[k].change, ops[k].tunerOk).0)
  }

  lemma AcceptedOfPrefix(s: TuneState, ops: seq<TuneOp>, n: nat, k: nat)
    requires k < n <= |ops|
    ensures IsAccepted(s, ops[..n], k) == IsAccepted(s, ops, k)
  {
    assert ops[..n][..k] == ops[..k];
  }

  lemma AcceptedIsReflected(i: Intent, c: Change)
    ensures Wish(i, c).0 == Done ==> Reflects(Wish(i, c).1, c)
  {
  }

  lemma WishKeepsTheRest(i: Intent, d: Change, c: Change)
    requires Reflects(i, c) && (Wish(i, d).0 == Done ==> !Overrides(d, c))
    ensures Reflects(Wish(i, d).1, c)
  {
  }

  lemma AcceptedMeansDone(s: TuneState, c: Change, tunerOk: bool)
    ensures IsRefusal(RequestStep(s, c, tunerOk).0) <==> CapabilityOf(c) !in s.caps || Wish(IntentOf(s), c).0 != Done
  {
    WishIsDoneOrRefused(IntentOf(s), c);
  }

  lemma WishIsDoneOrRefused(i: Intent, c: Change)
    ensures Wish(i, c).0 == Done || IsRefusal(Wish(i, c).0)
  {
  }

  /** Every request that was accepted shows in what is wanted, over any run, until a later accepted one
      speaks about the same part of the channel. In particular a frequency leaves no split behind. */
  lemma {:induction false} LastRequestIsReflected(s: TuneState, ops: seq<TuneOp>, k: nat)
    requires k < |ops| && IsAccepted(s, ops, k)
    requires forall m :: k < m < |ops| && IsAccepted(s, ops, m) ==> !Overrides(ops[m].change, ops[k].change)
    ensures Reflects(IntentOf(RunFrom(s, ops)), ops[k].change)
  {
    var n := |ops| - 1;
    var t, e := ops[..n], ops[n];
    if k == n {
      AcceptedStepIsReflected(RunFrom(s, t), e);
    } else {
      forall m | k < m < n && IsAccepted(s, t, m) ensures !Overrides(t[m].change, t[k].change) {
        AcceptedOfPrefix(s, ops, n, m);
      }
      AcceptedOfPrefix(s, ops, n, k);
      LastRequestIsReflected(s, t, k);
      ReflectedStep(RunFrom(s, t), e, ops[k].change, IsAccepted(s, ops, n));
    }
  }

  lemma AcceptedStepIsReflected(s: TuneState, e: TuneOp)
    requires e.Request? && !IsRefusal(RequestStep(s, e.change, e.tunerOk).0)
    ensures Reflects(IntentOf(TuneStep(s, e)), e.change)
  {
    StepFollowsTheWish(s, e);
    AcceptedMeansDone(s, e.change, e.tunerOk);
    AcceptedIsReflected(IntentOf(s), e.change);
  }

  lemma ReflectedStep(s: TuneState, e: TuneOp, c: Change, accepted: bool)
    requires accepted <==> e.Request? && !IsRefusal(RequestStep(s, e.change, e.tunerOk).0)
    requires Reflects(IntentOf(s), c) && (accepted ==> !Overrides(e.change, c))
    ensures Reflects(IntentOf(TuneStep(s, e)), c)
  {
    StepFollowsTheWish(s, e);
    if IsSupported(s.caps, e) {
      AcceptedMeansDone(s, e.change, e.tunerOk);
      WishKeepsTheRest(IntentOf(s), e.change, c);
    }
  }

  /** The receive leg is that of the last frequency accepted, whatever splits came after it. */
  lemma ReceiveLegIsTheLastFrequency(s: TuneState, ops: seq<TuneOp>, k: nat)
    requires k < |ops| && IsAccepted(s, ops, k) && ops[k].change.SetFrequency?
    requires NoneAccepted(s, ops, k + 1, {SET_FREQUENCY})
    ensures ReceiveLeg(IntentOf(RunFrom(s, ops))) == Some(ops[k].change.hz)
  {
    AcceptedOfPrefix(s, ops, k + 1, k);
    LastRequestIsReflected(s, ops[..k + 1], k);
    UnrequestedPartsStay(s, ops, k + 1, {SET_FREQUENCY});
  }

  /** The tone, bandwidth and legs wanted; a radio that was never tuned has no tone and is wide. */
  function ToneOf(i: Intent): (tenths: int) {
    if i.channel.Some? then i.channel.value.ctcssTenths else 0
  }

  function NarrowOf(i: Intent): (narrow: bool) {
    i.channel.Some? && i.channel.value.narrow
  }

  function ReceiveLeg(i: Intent): (hz: Option<int>) {
    if i.channel.Some? then Some(i.channel.value.rxHz) else None
  }

  function TransmitLeg(i: Intent): (hz: Option<int>) {
    if i.channel.Some? then Some(i.channel.value.txHz) else None
  }

  /** No request of these kinds was accepted from `ops[k]` on. */
  ghost predicate NoneAccepted(s: TuneState, ops: seq<TuneOp>, k: nat, kinds: set<Capability>) {
    forall m :: k <= m < |ops| && IsAccepted(s, ops, m) ==> CapabilityOf(ops[m].change) !in kinds
  }

  /** The two wishes agree on every part of a channel that only requests of these kinds speak about. */
  predicate AgreesOn(kinds: set<Capability>, i: Intent, j: Intent) {
    && (SET_TONE in kinds ==> ToneOf(j) == ToneOf(i))
    && (SET_MODE in kinds ==> NarrowOf(j) == NarrowOf(i))
    && (SET_POWER in kinds ==> j.power == i.power)
    && (SET_FREQUENCY in kinds ==> ReceiveLeg(j) == ReceiveLeg(i))
    && (SET_FREQUENCY in kinds && SET_SPLIT in kinds ==> TransmitLeg(j) == TransmitLeg(i))
  }

  lemma WishMovesItsOwnPart(i: Intent, c: Change, kinds: set<Capability>)
    requires Wish(i, c).0 == Done ==> CapabilityOf(c) !in kinds
    ensures AgreesOn(kinds, i, Wish(i, c).1)
  {
  }

  /** What no accepted request spoke about, from some point of a run on, is what it was then. */
  lemma {:induction false} UnrequestedPartsStay(s: TuneState, ops: seq<TuneOp>, k: nat, kinds: set<Capability>)
    requires k <= |ops| && NoneAccepted(s, ops, k, kinds)
    ensures AgreesOn(kinds, IntentOf(RunFrom(s, ops[..k])), IntentOf(RunFrom(s, ops)))
  {
    if k == |ops| {
      assert ops[..k] == ops;
    } else {
      var n := |ops| - 1;
      var t, e := ops[..n], ops[n];
      assert t[..k] == ops[..k];
      forall m | k <= m < n && IsAccepted(s, t, m) ensures CapabilityOf(t[m].change) !in kinds {
        AcceptedOfPrefix(s, ops, n, m);
      }
      UnrequestedPartsStay(s, t, k, kinds);
      UnrequestedStep(RunFrom(s, t), e, kinds, IsAccepted(s, ops, n));
    }
  }

  lemma UnrequestedStep(s: TuneState, e: TuneOp, kinds: set<Capability>, accepted: bool)
    requires accepted <==> e.Request? && !IsRefusal(RequestStep(s, e.change, e.tunerOk).0)
    requires accepted ==> CapabilityOf(e.change) !in kinds
    ensures AgreesOn(kinds, IntentOf(s), IntentOf(TuneStep(s, e)))
  {
    StepFollowsTheWish(s, e);
    if e.Request? {
      AcceptedMeansDone(s, e.change, e.tunerOk);
      if IsSupported(s.caps, e) {
        WishMovesItsOwnPart(IntentOf(s), e.change, kinds);
      }
    }
  }

  // ----- What reaches the tuner --------------------------------------------------------------

  /** The step ends in a commit: an accepted request outside any batch, or an outermost normal exit. */
  predicate Commits(s: TuneState, op: TuneOp) {
    || (op.Request? && s.batchDepth == 0 && !IsRefusal(RequestStep(s, op.change, op.tunerOk).0))
    || (op.ExitBatch? && s.batchDepth == 1)
  }

  /** The tuner is handed a channel exactly when a commit finds one wanted that it is not already on, and
      nothing transmits; and then it is handed the channel wanted. */
  lemma TunerIsAskedIffNeeded(s: TuneState, op: TuneOp)
    ensures var after := TuneStep(s, op);
            var want := Current(after);
            after.attempts ==
            if Commits(s, op) && want.Some? && want != s.tuned && !s.transmitting then s.attempts + [want.value]
            else s.attempts
  {
    if op.Request? {
      AcceptedMeansDone(s, op.change, op.tunerOk);
    }
  }

  /** No channel is ever tuned twice in a row. */
  ghost predicate NeverRepeats(confirmed: seq<VfoImage>) {
    forall i :: 0 < i < |confirmed| ==> confirmed[i] != confirmed[i - 1]
  }

  lemma {:induction false} ConfirmedNeverRepeats(caps: set<Capability>, power: int, ops: seq<TuneOp>)
    ensures NeverRepeats(RunFrom(Booted(caps, power), ops).confirmed)
  {
    if ops != [] {
      var t := ops[..|ops| - 1];
      ConfirmedNeverRepeats(caps, power, t);
      TunedIsTheLastConfirmed(caps, power, t);
      StepKeepsNeverRepeats(RunFrom(Booted(caps, power), t), ops[|ops| - 1]);
    }
  }

  lemma StepKeepsNeverRepeats(s: TuneState, op: TuneOp)
    requires NeverRepeats(s.confirmed) && TunedIsConfirmed(s)
    ensures NeverRepeats(TuneStep(s, op).confirmed)
  {
  }

  // ----- Batches -----------------------------------------------------------------------------

  predicate CommitFailed(outcome: Outcome) {
    outcome == RefusedTransmitting || outcome == TuneFailed
  }

  /** The step's commit, if it makes one, does not fail, and it does not unwind an outermost batch that
      has something pending. The transmitter may key between commits and inner batches may unwind. */
  predicate IsCleanStep(s: TuneState, op: TuneOp) {
    match op
    case Request(c, ok) => !CommitFailed(RequestStep(s, c, ok).0)
    case ExitBatch(ok) => !CommitFailed(ExitStep(s, ok).0)
    case UnwindBatch => s.batchDepth == 1 ==> s.pending == None
    case _ => true
  }

  /** Every step is clean, and exits match entries. */
  ghost predicate IsClean(s: TuneState, ops: seq<TuneOp>) {
    && (forall k :: 0 <= k <= |ops| ==> RunFrom(s, ops[..k]).batchDepth >= 0)
    && forall k :: 0 <= k < |ops| ==> IsCleanStep(RunFrom(s, ops[..k]), ops[k])
  }

  ghost predicate IsSettled(s: TuneState) {
    s.batchDepth == 0 ==> s.pending == None
  }

  /** Exactly the clean steps leave nothing pending outside a batch. */
  lemma SettledIffClean(s: TuneState, op: TuneOp)
    requires IsSettled(s) && s.batchDepth >= 0
    ensures IsSettled(TuneStep(s, op)) <==> IsCleanStep(s, op)
  {
  }

  lemma {:induction false} CleanRunsSettle(s: TuneState, ops: seq<TuneOp>)
    requires IsSettled(s) && s.batchDepth >= 0 && IsClean(s, ops)
    ensures IsSettled(RunFrom(s, ops))
  {
    if ops != [] {
      var n := |ops| - 1;
      var t := ops[..n];
      assert forall k :: 0 <= k <= n ==> t[..k] == ops[..k];
      assert forall k :: 0 <= k < n ==> t[k] == ops[k];
      assert IsClean(s, t);
      CleanRunsSettle(s, t);
      SettledIffClean(RunFrom(s, ops[..n]), ops[n]);
    }
  }

  /** The supported requests of a run, in order. */
  function Changes(caps: set<Capability>, ops: seq<TuneOp>): (changes: seq<Change>) {
    if ops == [] then []
    else
      var e := ops[|ops| - 1];
      Changes(caps, ops[..|ops| - 1]) + if IsSupported(caps, e) then [e.change] else []
  }

  function FoldChanges(i: Intent, changes: seq<Change>): (r: Intent) {
    if changes == [] then i
    else Wish(FoldChanges(i, changes[..|changes| - 1]), changes[|changes| - 1]).1
  }

  lemma {:induction false} FoldSeesOnlyTheChanges(caps: set<Capability>, i: Intent, ops: seq<TuneOp>)
    ensures FoldWishes(caps, i, ops) == FoldChanges(i, Changes(caps, ops))
  {
    if ops != [] {
      var t, e := ops[..|ops| - 1], ops[|ops| - 1];
      FoldSeesOnlyTheChanges(caps, i, t);
      var before, after := Changes(caps, t), Changes(caps, ops);
      assert IsSupported(caps, e) ==> after[..|after| - 1] == before;
      assert !IsSupported(caps, e) ==> after == before;
    }
  }

  /** When no commit fails, batching is invisible in the result: however the same requests are grouped
      and nested, and whatever is keyed or unwound inside a batch, the radio ends on the same channel,
      which is the fold of the requests. */
  lemma BatchingIsInvisible(s: TuneState, batched: seq<TuneOp>, unbatched: seq<TuneOp>)
    requires IsSettled(s) && s.batchDepth == 0
    requires IsClean(s, batched) && IsClean(s, unbatched) && Changes(s.caps, batched) == Changes(s.caps, unbatched)
    requires RunFrom(s, batched).batchDepth == 0 && RunFrom(s, unbatched).batchDepth == 0
    ensures RunFrom(s, batched).tuned == RunFrom(s, unbatched).tuned
            == FoldChanges(IntentOf(s), Changes(s.caps, batched)).channel
    ensures RunFrom(s, batched).pending == None == RunFrom(s, unbatched).pending
    ensures RunFrom(s, batched).power == RunFrom(s, unbatched).power
  {
    CleanRunsSettle(s, batched);
    CleanRunsSettle(s, unbatched);
    PendingOrTunedIsTheFold(s, batched);
    PendingOrTunedIsTheFold(s, unbatched);
    FoldSeesOnlyTheChanges(s.caps, IntentOf(s), batched);
    FoldSeesOnlyTheChanges(s.caps, IntentOf(s), unbatched);
  }

  ghost predicate StaysInsideBatch(s: TuneState, ops: seq<TuneOp>) {
    forall k :: 0 <= k <= |ops| ==> RunFrom(s, ops[..k]).batchDepth >= 1
  }

  lemma StepInsideBatchNeverTunes(s: TuneState, op: TuneOp)
    requires s.batchDepth >= 1 && TuneStep(s, op).batchDepth >= 1
    ensures TuneStep(s, op).attempts == s.attempts && TuneStep(s, op).tuned == s.tuned
  {
  }

  /** Nothing inside an open batch reaches the tuner, however batches nest or unwind there. */
  lemma {:induction false} OpenBatchNeverTunes(s: TuneState, ops: seq<TuneOp>)
    requires StaysInsideBatch(s, ops)
    ensures RunFrom(s, ops).attempts == s.attempts && RunFrom(s, ops).tuned == s.tuned
  {
    if ops != [] {
      var n := |ops| - 1;
      var t := ops[..n];
      forall k | 0 <= k <= n
        ensures RunFrom(s, t[..k]).batchDepth >= 1
      {
        assert t[..k] == ops[..k];
      }
      OpenBatchNeverTunes(s, t);
      assert t[..n] == t && ops[..n + 1] == ops;
      StepInsideBatchNeverTunes(RunFrom(s, t), ops[n]);
    }
  }

  /** An outermost batch costs at most one tune, on leaving it. */
  lemma BatchTunesAtMostOnce(s: TuneState, body: seq<TuneOp>, tunerOk: bool)
    requires StaysInsideBatch(TuneStep(s, EnterBatch), body)
    ensures var before := RunFrom(TuneStep(s, EnterBatch), body);
            |TuneStep(before, ExitBatch(tunerOk)).attempts| <= |s.attempts| + 1
  {
    OpenBatchNeverTunes(TuneStep(s, EnterBatch), body);
  }

  // ----- The object --------------------------------------------------------------------------

  class TunableRadio {
    const caps: set<Capability>
    var tuned: Option<VfoImage>
    var pending: Option<VfoImage>
    var power: int
    var batchDepth: int
    var transmitting: bool
    var modulation: Option<string>
    ghost var attempts: seq<VfoImage>    // every channel handed to the tuner
    ghost var confirmed: seq<VfoImage>   // every channel it confirmed

    ghost function State(): TuneState
      reads this
    {
      TuneState(caps, tuned, pending, power, batchDepth, transmitting, modulation, attempts, confirmed)
    }

    constructor At(caps: set<Capability>, power: int)
      ensures State() == Booted(caps, power)
    {
      this.caps := caps;
      tuned, pending, this.power, batchDepth, transmitting := None, None, power, 0, false;
      modulation, attempts, confirmed := None, [], [];
    }

    /** A backend at the configured power level; a level the station does not have is refused. */
    static method Create(caps: set<Capability>, level: string) returns (radio: TunableRadio?)
      ensures radio == null <==> PowerStep(level) == None
      ensures radio != null ==>
                && fresh(radio) && radio.State() == Booted(caps, PowerStep(level).value)
                && IsConsistent(IntentOf(radio.State()))
    {
      var step := PowerStep(level);
      if step == None {
        return null;
      }
      radio := new TunableRadio.At(caps, step.value);
    }

    /** The tuner: it may refuse any channel, and must never be reached while transmitting. */
    method Apply(v: VfoImage) returns (ok: bool)
      requires !transmitting
      modifies `attempts, `confirmed
      ensures attempts == old(attempts) + [v]
      ensures confirmed == if ok then old(confirmed) + [v] else old(confirmed)
    {
      ok := *;
      attempts := attempts + [v];
      if ok {
        confirmed := confirmed + [v];
      }
    }

    method CommitTuning() returns (outcome: Outcome)
      modifies this
      ensures (outcome, State()) == Commit(old(State()), outcome != TuneFailed)
    {
      if pending == None || pending == tuned {
        pending := None;
        return Done;
      }
      if transmitting {
        return RefusedTransmitting;
      }
      var image := pending.value;
      var ok := Apply(image);
      if !ok {
        return TuneFailed;
      }
      tuned := Some(image);
      pending := None;
      return Done;
    }

    method AutoCommit() returns (outcome: Outcome)
      modifies this
      ensures (outcome, State()) ==
              if old(batchDepth) == 0 then Commit(old(State()), outcome != TuneFailed) else (Done, old(State()))
    {
      if batchDepth == 0 {
        outcome := CommitTuning();
      } else {
        outcome := Done;
      }
    }

    /** Lay the changes over what is wanted so far; nothing moves unless that makes a real channel. */
    method Stage(rx: Option<int>, tx: Option<int>, ctcss: Option<int>, narrow: Option<bool>, level: Option<int>)
      returns (outcome: Outcome)
      modifies `pending
      ensures var base := Current(old(State()));
              if base == None && rx == None then outcome == NotReady && pending == old(pending)
              else
                var rxHz := if rx.Some? then rx.value else base.value.rxHz;
                var v := VfoImage(
                  rxHz,
                  if tx.Some? then tx.value else if base.Some? then base.value.txHz else rxHz,
                  if ctcss.Some? then ctcss.value else if base.Some? then base.value.ctcssTenths else 0,
                  if narrow.Some? then narrow.value else if base.Some? then base.value.narrow else false,
                  if level.Some? then level.value else if base.Some? then base.value.power else power);
                if IsChannel(v) then outcome == Done && pending == Some(v)
                else outcome == BadValue && pending == old(pending)
    {
      var base := if pending.Some? then pending else tuned;
      if base == None && rx == None {
        return NotReady;
      }
      var b := if base.Some? then base.value else VfoImage(rx.value, rx.value, 0, false, power);
      var rxHz := if rx.Some? then rx.value else b.rxHz;
      var v := VfoImage(
        rxHz,
        if tx.Some? then tx.value else b.txHz,
        if ctcss.Some? then ctcss.value else b.ctcssTenths,
        if narrow.Some? then narrow.value else b.narrow,
        if level.Some? then level.value else b.power);
      if !IsChannel(v) {
        return BadValue;
      }
      pending := Some(v);
      return Done;
    }

    /** The channel wanted, whether or not it has been tuned yet. */
    ghost function Wanted(): Option<VfoImage>
      reads this
    {
      Current(State())
    }

    /** Both legs move, so no split survives; the rest is the previous channel's, or no tone, wide and at
        the station's level when there was none. */
    method SetFrequencyTo(hz: int) returns (outcome: Outcome)
      modifies this
      ensures !IsRefusal(outcome) ==>
                && power == old(power)
                && Wanted() == Some(VfoImage(
                     hz, hz, ToneOf(old(IntentOf(State()))), NarrowOf(old(IntentOf(State()))),
                     if old(Wanted()).Some? then old(Wanted()).value.power else power))
      ensures (outcome, State()) == RequestStep(old(State()), SetFrequency(hz), outcome != TuneFailed)
    {
      if SET_FREQUENCY !in caps {
        return Unsupported;
      }
      outcome := Stage(Some(hz), Some(hz), None, None, None);
      if outcome == Done {
        outcome := AutoCommit();
      }
    }

    method SetSplitTo(tx: Option<int>) returns (outcome: Outcome)
      modifies this
      ensures !IsRefusal(outcome) ==>
                && power == old(power) && old(Wanted()).Some?
                && var was := old(Wanted()).value;
                   Wanted() == Some(was.(txHz := if tx.Some? then tx.value else was.rxHz))
      ensures (outcome, State()) == RequestStep(old(State()), SetSplit(tx), outcome != TuneFailed)
    {
      if SET_SPLIT !in caps {
        return Unsupported;
      }
      var current := if pending.Some? then pending else tuned;
      if current == None {
        return NotReady;
      }
      outcome := Stage(None, Some(if tx.Some? then tx.value else current.value.rxHz), None, None, None);
      if outcome == Done {
        outcome := AutoCommit();
      }
    }

    method SetToneTo(tenths: Option<int>) returns (outcome: Outcome)
      modifies this
      ensures !IsRefusal(outcome) ==>
                && power == old(power) && old(Wanted()).Some?
                && Wanted() == Some(old(Wanted()).value.(ctcssTenths := if tenths.Some? then tenths.value else 0))
      ensures (outcome, State()) == RequestStep(old(State()), SetTone(tenths), outcome != TuneFailed)
    {
      if SET_TONE !in caps {
        return Unsupported;
      }
      outcome := Stage(None, None, Some(if tenths.Some? then tenths.value else 0), None, None);
      if outcome == Done {
        outcome := AutoCommit();
      }
    }

    method SetModeTo(mode: string) returns (outcome: Outcome)
      modifies this
      ensures !IsRefusal(outcome) ==>
                && power == old(power) && old(Wanted()).Some?
                && Wanted() == Some(old(Wanted()).value.(narrow := mode == "NFM"))
      ensures (outcome, State()) == RequestStep(old(State()), SetMode(mode), outcome != TuneFailed)
    {
      if SET_MODE !in caps {
        return Unsupported;
      }
      if mode != "FM" && mode != "NFM" {
        return BadValue;
      }
      outcome := Stage(None, None, None, Some(mode == "NFM"), None);
      if outcome == Done {
        outcome := AutoCommit();
      }
    }

    method SetPowerTo(level: string) returns (outcome: Outcome)
      modifies this
      ensures !IsRefusal(outcome) ==>
                && PowerStep(level) == Some(power)
                && (old(Wanted()) == None ==> Wanted() == None)
                && (old(Wanted()).Some? ==> Wanted() == Some(old(Wanted()).value.(power := power)))
      ensures (outcome, State()) == RequestStep(old(State()), SetPower(level), outcome != TuneFailed)
    {
      if SET_POWER !in caps {
        return Unsupported;
      }
      var want := PowerStep(level);
      if want == None {
        return BadValue;
      }
      if pending == None && tuned == None {
        power := want.value;
        return Done;
      }
      outcome := Stage(None, None, None, None, Some(want.value));
      if outcome == Done {
        power := want.value;
        outcome := AutoCommit();
      }
    }

    /** The demodulator goes straight to the tuner, which may refuse it; nothing is staged. */
    method SetModulationTo(m: string) returns (outcome: Outcome)
      modifies this
      ensures (outcome, State()) == DemodulateStep(old(State()), m, outcome != TuneFailed)
      ensures outcome == Done ==> modulation == Some(m)
    {
      if SET_MODULATION !in caps {
        return Unsupported;
      }
      var ok: bool := *;
      if !ok {
        return TuneFailed;
      }
      modulation := Some(m);
      return Done;
    }

    /** The setter a request names. */
    method Make(c: Change) returns (outcome: Outcome)
      modifies this
      ensures (outcome, State()) == RequestStep(old(State()), c, outcome != TuneFailed)
    {
      match c
      case SetFrequency(hz) => outcome := SetFrequencyTo(hz);
      case SetSplit(tx) => outcome := SetSplitTo(tx);
      case SetTone(tenths) => outcome := SetToneTo(tenths);
      case SetMode(mode) => outcome := SetModeTo(mode);
      case SetPower(level) => outcome := SetPowerTo(level);
    }

    method BeginBatch()
      modifies this
      ensures State() == TuneStep(old(State()), EnterBatch)
    {
      batchDepth := batchDepth + 1;
    }

    /** Leave a batch: commit on the outermost normal exit, never when an exception unwinds it. */
    method EndBatch(unwinding: bool) returns (outcome: Outcome)
      modifies this
      ensures unwinding ==> outcome == Done && State() == TuneStep(old(State()), UnwindBatch)
      ensures !unwinding ==> (outcome, State()) == ExitStep(old(State()), outcome != TuneFailed)
    {
      batchDepth := batchDepth - 1;
      if !unwinding && batchDepth == 0 {
        outcome := CommitTuning();
      } else {
        outcome := Done;
      }
    }
  }
}
