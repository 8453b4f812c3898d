/**
 Presets: one named channel applied through several capability-gated setter calls in one batch.
 Proved: what is reported as applied, that a preset fully determines the channel, and that after any
 history of presets only the last one and the last power level named are left in it.
 */
module Presets {
  import opened Prelude
  import opened Tuning

  datatype Field = Frequency | TxFrequency | Mode | Modulation | TxTone | Power | RxTone

  /** One resolved preset. Tones are in tenths of Hz. */
  datatype Preset = Preset(
    frequency: int, txFrequency: Option<int>, txTone: Option<int>, rxTone: Option<int>,
    mode: string, modulation: string, power: Option<string>)

  /** A field that could not be honoured; no capability backs the receive tone. */
  datatype Skip = Skip(field: Field, capability: Option<Capability>)

  const FIELD_CAPABILITY: seq<(Field, Capability)> := [
    (Frequency, SET_FREQUENCY), (TxFrequency, SET_SPLIT), (Mode, SET_MODE),
    (Modulation, SET_MODULATION), (TxTone, SET_TONE), (Power, SET_POWER)]

  predicate IsPresent(p: Preset, f: Field) {
    match f
    case TxFrequency => p.txFrequency.Some?
    case TxTone => p.txTone.Some?
    case RxTone => p.rxTone.Some?
    case Power => p.power.Some?
    case _ => true
  }

  function Only(given: bool, cap: Capability): (r: seq<Capability>) {
    if given then [cap] else []
  }

  /** The capabilities of the first `n` fields that are present and available, in table order. */
  function Honoured(p: Preset, caps: set<Capability>, n: nat := 6): (r: seq<Capability>)
    requires n <= 6
  {
    if n == 0 then []
    else
      var (field, cap) := FIELD_CAPABILITY[n - 1];
      Honoured(p, caps, n - 1) + Only(IsPresent(p, field) && cap in caps, cap)
  }

  function Skipped(p: Preset, caps: set<Capability>, n: nat := 6): (r: seq<Skip>)
    requires n <= 6
  {
    if n == 0 then []
    else
      var (field, cap) := FIELD_CAPABILITY[n - 1];
      Skipped(p, caps, n - 1) + if IsPresent(p, field) && cap !in caps then [Skip(field, Some(cap))] else []
  }

  /** Every field that cannot be honoured: those the radio lacks, then the receive tone, which none has. */
  function SkipReport(p: Preset, caps: set<Capability>): (r: seq<Skip>) {
    Skipped(p, caps) + if p.rxTone.Some? then [Skip(RxTone, None)] else []
  }

  // ----- Which fields are honoured -----------------------------------------------------------

  /** The capability that backs a field; none backs the receive tone. */
  function CapabilityFor(f: Field): (cap: Option<Capability>) {
    match f
    case Frequency => Some(SET_FREQUENCY)
    case TxFrequency => Some(SET_SPLIT)
    case Mode => Some(SET_MODE)
    case Modulation => Some(SET_MODULATION)
    case TxTone => Some(SET_TONE)
    case Power => Some(SET_POWER)
    case RxTone => None
  }

  /** Where a field stands in the order of writing, the receive tone last. */
  function Rank(f: Field): (n: nat) {
    match f
    case Frequency => 0
    case TxFrequency => 1
    case Mode => 2
    case Modulation => 3
    case TxTone => 4
    case Power => 5
    case RxTone => 6
  }

  function FieldFor(cap: Capability): (f: Field) {
    match cap
    case SET_FREQUENCY => Frequency
    case SET_SPLIT => TxFrequency
    case SET_MODE => Mode
    case SET_MODULATION => Modulation
    case SET_TONE => TxTone
    case SET_POWER => Power
    case SET_CHANNEL => RxTone
  }

  lemma TableRow(n: nat)
    requires n < 6
    ensures var (field, cap) := FIELD_CAPABILITY[n];
            Rank(field) == n && CapabilityFor(field) == Some(cap) && FieldFor(cap) == field
    ensures forall f :: Rank(f) == n ==> f == FIELD_CAPABILITY[n].0
  {
  }

  /** The preset asks for the field and no capability of the radio backs it. */
  predicate IsSkipped(p: Preset, caps: set<Capability>, f: Field) {
    IsPresent(p, f) && (CapabilityFor(f).Some? ==> CapabilityFor(f).value !in caps)
  }

  ghost predicate SkippedInOrder(r: seq<Skip>) {
    forall k, l :: 0 <= k < l < |r| ==> Rank(r[k].field) < Rank(r[l].field)
  }

  ghost predicate HonouredInOrder(r: seq<Capability>) {
    forall k, l :: 0 <= k < l < |r| ==> Rank(FieldFor(r[k])) < Rank(FieldFor(r[l]))
  }

  /** Honoured are exactly the fields asked for that the radio has a capability for, in order. */
  lemma {:induction false} HonouredIsExact(p: Preset, caps: set<Capability>, n: nat)
    requires n <= 6
    ensures forall cap :: cap in Honoured(p, caps, n) <==>
              cap in caps && Rank(FieldFor(cap)) < n && IsPresent(p, FieldFor(cap))
    ensures HonouredInOrder(Honoured(p, caps, n))
  {
    if n > 0 {
      HonouredIsExact(p, caps, n - 1);
      TableRow(n - 1);
      var t, r := Honoured(p, caps, n - 1), Honoured(p, caps, n);
      var (field, cap) := FIELD_CAPABILITY[n - 1];
      assert forall c :: c in r <==> c in t || (c == cap && IsPresent(p, field) && cap in caps);
      assert forall k :: 0 <= k < |t| ==> r[k] == t[k] && t[k] in t;
    }
  }

  lemma {:induction false} SkippedIsExact(p: Preset, caps: set<Capability>, n: nat)
    requires n <= 6
    ensures forall s :: s in Skipped(p, caps, n) <==>
              s.capability == CapabilityFor(s.field) && Rank(s.field) < n && IsSkipped(p, caps, s.field)
    ensures SkippedInOrder(Skipped(p, caps, n))
  {
    if n > 0 {
      SkippedIsExact(p, caps, n - 1);
      TableRow(n - 1);
      var t, r := Skipped(p, caps, n - 1), Skipped(p, caps, n);
      var (field, cap) := FIELD_CAPABILITY[n - 1];
      assert forall s :: s in r <==> s in t || (s == Skip(field, Some(cap)) && IsSkipped(p, caps, field));
      assert forall k :: 0 <= k < |t| ==> r[k] == t[k] && t[k] in t;
    }
  }

  /** Reported as skipped are exactly the fields asked for that no capability of the radio backs, each
      once, in order, under the capability it lacks; a receive tone always is, under none. */
  lemma SkipReportIsExact(p: Preset, caps: set<Capability>)
    ensures forall s :: s in SkipReport(p, caps) <==>
              s.capability == CapabilityFor(s.field) && IsSkipped(p, caps, s.field)
    ensures SkippedInOrder(SkipReport(p, caps))
  {
    SkippedIsExact(p, caps, 6);
    var t, r := Skipped(p, caps), SkipReport(p, caps);
    assert forall s :: s in r <==> s in t || (s == Skip(RxTone, None) && p.rxTone.Some?);
    assert forall k :: 0 <= k < |t| ==> r[k] == t[k] && t[k] in t;
  }

  method SplitPresetFields(p: Preset, caps: set<Capability>) returns (honoured: seq<Capability>, skipped: seq<Skip>)
    ensures honoured == Honoured(p, caps)
    ensures skipped == SkipReport(p, caps)
  {
    honoured, skipped := [], [];
    for i := 0 to 6
      invariant honoured == Honoured(p, caps, i)
      invariant skipped == Skipped(p, caps, i)
    {
      var (field, cap) := FIELD_CAPABILITY[i];
      if IsPresent(p, field) {
        if cap in caps {
          honoured := honoured + [cap];
        } else {
          skipped := skipped + [Skip(field, Some(cap))];
        }
      }
    }
    if p.rxTone.Some? {
      skipped := skipped + [Skip(RxTone, None)];
    }
  }

  /** What applying a preset reports, in the order it writes. */
  function AppliedReport(p: Preset, caps: set<Capability>): (r: seq<Capability>) {
    LegReport(p, caps) + Only(SET_MODULATION in caps, SET_MODULATION) + VoiceReport(p, caps)
  }

  function VoiceReport(p: Preset, caps: set<Capability>): (r: seq<Capability>) {
    Only(SET_TONE in caps && p.txTone.Some?, SET_TONE) + Only(SET_POWER in caps && p.power.Some?, SET_POWER)
  }

  function LegReport(p: Preset, caps: set<Capability>): (r: seq<Capability>) {
    [SET_FREQUENCY]
    + Only(SET_SPLIT in caps && p.txFrequency.Some?, SET_SPLIT)
    + Only(SET_MODE in caps, SET_MODE)
  }

  lemma HonouredLegs(p: Preset, caps: set<Capability>)
    requires SET_FREQUENCY in caps
    ensures Honoured(p, caps, 3) == LegReport(p, caps)
  {
    assert Honoured(p, caps, 1) == [SET_FREQUENCY];
    assert Honoured(p, caps, 2) == Honoured(p, caps, 1) + Only(SET_SPLIT in caps && p.txFrequency.Some?, SET_SPLIT);
  }

  lemma HonouredVoice(p: Preset, caps: set<Capability>)
    ensures Honoured(p, caps) == Honoured(p, caps, 4) + VoiceReport(p, caps)
  {
    var tone := Only(SET_TONE in caps && p.txTone.Some?, SET_TONE);
    var power := Only(SET_POWER in caps && p.power.Some?, SET_POWER);
    ConcatIsAssociative(Honoured(p, caps, 4), tone, power);
    assert Honoured(p, caps, 5) == Honoured(p, caps, 4) + tone;
  }

  /** On a radio that can set its frequency, what is reported is what was promised, in the same order. */
  lemma AppliedIsHonoured(p: Preset, caps: set<Capability>)
    requires SET_FREQUENCY in caps
    ensures AppliedReport(p, caps) == Honoured(p, caps)
  {
    HonouredLegs(p, caps);
    HonouredVoice(p, caps);
    assert Honoured(p, caps, 4) == Honoured(p, caps, 3) + Only(SET_MODULATION in caps, SET_MODULATION);
  }

  // ----- What a preset asks of the channel ---------------------------------------------------

  /** The channel requests of one preset, in order; the demodulator is not part of a channel. */
  function PresetChanges(p: Preset, caps: set<Capability>): (changes: seq<Change>) {
    LegChanges(p, caps) + VoiceChanges(p, caps)
  }

  /** The second half: the tone and, if the preset names one, the power level. */
  function VoiceChanges(p: Preset, caps: set<Capability>): (changes: seq<Change>) {
    ToneChange(p, caps) + PowerChange(p, caps)
  }

  function ToneChange(p: Preset, caps: set<Capability>): (changes: seq<Change>) {
    if SET_TONE in caps then [SetTone(p.txTone)] else []
  }

  function PowerChange(p: Preset, caps: set<Capability>): (changes: seq<Change>) {
    if SET_POWER in caps && p.power.Some? then [SetPower(p.power.value)] else []
  }

  /** The first half of them: the two legs and the bandwidth. */
  function LegChanges(p: Preset, caps: set<Capability>): (changes: seq<Change>) {
    [SetFrequency(p.frequency)] + SplitChange(p, caps) + ModeChange(p, caps)
  }

  function SplitChange(p: Preset, caps: set<Capability>): (changes: seq<Change>) {
    if SET_SPLIT in caps then [SetSplit(p.txFrequency)] else []
  }

  function ModeChange(p: Preset, caps: set<Capability>): (changes: seq<Change>) {
    if SET_MODE in caps then [SetMode(p.mode)] else []
  }

  /** What is wanted after a list of requests, if every one of them is accepted. */
  function Accepted(i: Intent, changes: seq<Change>): (r: Option<Intent>) {
    if changes == [] then Some(i)
    else
      var before := Accepted(i, changes[..|changes| - 1]);
      if before == None then None
      else
        var (outcome, j) := Wish(before.value, changes[|changes| - 1]);
        if outcome == Done then Some(j) else None
  }

  lemma AcceptedOfSnoc(i: Intent, changes: seq<Change>, c: Change)
    ensures Accepted(i, changes + [c]) ==
            var before := Accepted(i, changes);
            if before.Some? && Wish(before.value, c).0 == Done then Some(Wish(before.value, c).1) else None
  {
    assert (changes + [c])[..|changes|] == changes;
  }

  /** A refused request refuses every list it begins. */
  lemma {:induction false} RefusedStaysRefused(i: Intent, made: seq<Change>, whole: seq<Change>)
    requires made <= whole && Accepted(i, made) == None
    ensures Accepted(i, whole) == None
    decreases |whole|
  {
    if |made| < |whole| {
      RefusedStaysRefused(i, made, whole[..|whole| - 1]);
    } else {
      assert made == whole;
    }
  }

  /** Accepted requests are the fold that pending-or-tuned is proved to follow. */
  lemma {:induction false} AcceptedIsTheFold(i: Intent, changes: seq<Change>)
    requires Accepted(i, changes).Some?
    ensures Accepted(i, changes).value == FoldChanges(i, changes)
  {
    if changes != [] {
      AcceptedIsTheFold(i, changes[..|changes| - 1]);
    }
  }

  predicate DescribesChannel(caps: set<Capability>) {
    {SET_FREQUENCY, SET_SPLIT, SET_MODE, SET_TONE} <= caps
  }

  /** The power level after a preset: its own if it names one the radio can set, else the station's. */
  function LevelAfter(p: Preset, caps: set<Capability>, station: int): (level: int) {
    if SET_POWER in caps && p.power.Some? && PowerStep(p.power.value).Some? then PowerStep(p.power.value).value
    else station
  }

  /** The channel a preset describes, at a given power level. */
  function ChannelOf(p: Preset, power: int): (v: VfoImage) {
    VfoImage(
      p.frequency,
      if p.txFrequency.Some? then p.txFrequency.value else p.frequency,
      if p.txTone.Some? then p.txTone.value else 0,
      p.mode == "NFM",
      power)
  }

  /** The channel after a preset on a radio that can set only some of it: each part the radio has a
      capability for is the preset's, and the others are what they were; a radio with no split transmits
      where it receives. */
  function ChannelAfter(i: Intent, p: Preset, caps: set<Capability>): (v: VfoImage) {
    VfoImage(
      p.frequency,
      if SET_SPLIT in caps && p.txFrequency.Some? then p.txFrequency.value else p.frequency,
      if SET_TONE in caps then (if p.txTone.Some? then p.txTone.value else 0) else ToneOf(i),
      if SET_MODE in caps then p.mode == "NFM" else NarrowOf(i),
      LevelAfter(p, caps, i.power))
  }

  /** Everything the preset asks for that the radio can set at all, it can set to what is asked. */
  predicate IsTunable(p: Preset, caps: set<Capability>) {
    && IsTunableLeg(p.frequency)
    && (SET_SPLIT in caps && p.txFrequency.Some? ==> IsTunableLeg(p.txFrequency.value))
    && (SET_MODE in caps ==> p.mode == "FM" || p.mode == "NFM")
    && (SET_TONE in caps && p.txTone.Some? ==> IsTone(p.txTone.value))
    && (SET_POWER in caps && p.power.Some? ==> PowerStep(p.power.value).Some?)
  }

  /** What is wanted after one more request, if it is made at all. */
  function Next(r: Option<Intent>, made: bool, c: Change): (s: Option<Intent>) {
    if r == None || !made then r
    else if Wish(r.value, c).0 == Done then Some(Wish(r.value, c).1)
    else None
  }

  lemma AcceptedOfOptional(i: Intent, changes: seq<Change>, more: seq<Change>, made: bool, c: Change)
    requires (made ==> more == [c]) && (!made ==> more == [])
    ensures Accepted(i, changes + more) == Next(Accepted(i, changes), made, c)
  {
    if made {
      AcceptedOfSnoc(i, changes, c);
    } else {
      assert changes + more == changes;
    }
  }

  /** One request about a real channel: it fails exactly if it makes no sense, and else moves its part. */
  lemma NextOnChannel(v: VfoImage, power: int, made: bool, c: Change, after: VfoImage)
    requires IsChannel(v) && v.power == power && !c.SetFrequency? && !c.SetPower?
    requires !made ==> after == v
    requires made ==>
               match c
               case SetSplit(tx) => after == v.(txHz := if tx.Some? then tx.value else v.rxHz)
               case SetTone(tenths) => after == v.(ctcssTenths := if tenths.Some? then tenths.value else 0)
               case SetMode(mode) => after == v.(narrow := mode == "NFM")
               case _ => false
    ensures var i := Intent(Some(v), power);
            Next(Some(i), made, c) ==
            if made && !IsMeaningful(i, c) then None else Some(Intent(Some(after), power))
  {
  }

  lemma AcceptedInSteps(i: Intent, p: Preset, caps: set<Capability>)
    ensures var tuned := Next(Some(i), true, SetFrequency(p.frequency));
            var split := Next(tuned, SET_SPLIT in caps, SetSplit(p.txFrequency));
            var mode := Next(split, SET_MODE in caps, SetMode(p.mode));
            var tone := Next(mode, SET_TONE in caps, SetTone(p.txTone));
            Accepted(i, PresetChanges(p, caps)) ==
            if p.power.Some? then Next(tone, SET_POWER in caps, SetPower(p.power.value)) else tone
  {
    var f := [SetFrequency(p.frequency)];
    var s, m, t, l := SplitChange(p, caps), ModeChange(p, caps), ToneChange(p, caps), PowerChange(p, caps);
    AcceptedOfOptional(i, [], f, true, SetFrequency(p.frequency));
    assert [] + f == f;
    AcceptedOfOptional(i, f, s, SET_SPLIT in caps, SetSplit(p.txFrequency));
    AcceptedOfOptional(i, f + s, m, SET_MODE in caps, SetMode(p.mode));
    AcceptedOfOptional(i, f + s + m, t, SET_TONE in caps, SetTone(p.txTone));
    ConcatIsAssociative(f + s + m, t, l);
    if p.power.Some? {
      AcceptedOfOptional(i, f + s + m + t, l, SET_POWER in caps, SetPower(p.power.value));
    } else {
      assert f + s + m + t + l == f + s + m + t;
    }
  }

  /** A preset moves exactly what the radio can set. From any consistent state, on a radio with any
      capabilities, every request of the preset is accepted exactly when the radio can meet it, and then
      what is wanted is the channel it makes of the previous one. */
  lemma PresetMovesWhatTheRadioCanSet(i: Intent, p: Preset, caps: set<Capability>)
    requires IsConsistent(i)
    ensures Accepted(i, PresetChanges(p, caps)) ==
            if IsTunable(p, caps) then Some(Intent(Some(ChannelAfter(i, p, caps)), LevelAfter(p, caps, i.power)))
            else None
  {
    AcceptedInSteps(i, p, caps);
    var v0 := VfoImage(p.frequency, p.frequency, ToneOf(i), NarrowOf(i), i.power);
    if IsTunableLeg(p.frequency) {
      PresetAfterTheFrequency(i, p, caps, v0);
    }
  }

  lemma PresetAfterTheFrequency(i: Intent, p: Preset, caps: set<Capability>, v0: VfoImage)
    requires IsConsistent(i) && IsTunableLeg(p.frequency)
    requires v0 == VfoImage(p.frequency, p.frequency, ToneOf(i), NarrowOf(i), i.power)
    ensures Next(Some(i), true, SetFrequency(p.frequency)) == Some(Intent(Some(v0), i.power))
    ensures var split := Next(Some(Intent(Some(v0), i.power)), SET_SPLIT in caps, SetSplit(p.txFrequency));
            var mode := Next(split, SET_MODE in caps, SetMode(p.mode));
            var tone := Next(mode, SET_TONE in caps, SetTone(p.txTone));
            (if p.power.Some? then Next(tone, SET_POWER in caps, SetPower(p.power.value)) else tone) ==
            if IsTunable(p, caps) then Some(Intent(Some(ChannelAfter(i, p, caps)), LevelAfter(p, caps, i.power)))
            else None
  {
    var v := ChannelAfter(i, p, caps);
    var v1 := v0.(txHz := v.txHz);
    var v2 := v1.(narrow := v.narrow);
    var v3 := v2.(ctcssTenths := v.ctcssTenths);
    NextOnChannel(v0, i.power, SET_SPLIT in caps, SetSplit(p.txFrequency), v1);
    if IsChannel(v1) {
      NextOnChannel(v1, i.power, SET_MODE in caps, SetMode(p.mode), v2);
      NextOnChannel(v2, i.power, SET_TONE in caps, SetTone(p.txTone), v3);
    }
  }

  /** A preset fully determines the channel: on a radio that can set every part of one, nothing of the
      previous channel survives except, if the preset names no power level, the station's. */
  lemma PresetDeterminesTheChannel(i: Intent, p: Preset, caps: set<Capability>)
    requires IsConsistent(i) && DescribesChannel(caps)
    ensures Accepted(i, PresetChanges(p, caps)) ==
            if !IsTunable(p, caps) then None
            else
              var level := LevelAfter(p, caps, i.power);
              Some(Intent(Some(ChannelOf(p, level)), level))
  {
    PresetMovesWhatTheRadioCanSet(i, p, caps);
  }

  lemma AcceptedPresetIsItsChannel(before: Intent, p: Preset, caps: set<Capability>, after: Intent)
    requires Accepted(before, PresetChanges(p, caps)) == Some(after)
    ensures IsConsistent(before) ==>
              IsTunable(p, caps) && after == Intent(Some(ChannelAfter(before, p, caps)), LevelAfter(p, caps, before.power))
  {
    if IsConsistent(before) {
      PresetMovesWhatTheRadioCanSet(before, p, caps);
    }
  }

  // ----- Histories ---------------------------------------------------------------------------

  function ApplyAll(i: Intent, ps: seq<Preset>, caps: set<Capability>): (r: Intent) {
    if ps == [] then i
    else FoldChanges(ApplyAll(i, ps[..|ps| - 1], caps), PresetChanges(ps[|ps| - 1], caps))
  }

  /** The last power level named along a history, else the level it started from. */
  function LastLevel(ps: seq<Preset>, caps: set<Capability>, station: int): (level: int) {
    if ps == [] then station else LevelAfter(ps[|ps| - 1], caps, LastLevel(ps[..|ps| - 1], caps, station))
  }

  /** After any history of presets the radio can meet, frequency, transmit frequency, tone and bandwidth
      are the last preset's, and power is the last level any of them named, else the station's. */
  lemma {:induction false} OnlyTheLastPresetSurvives(i: Intent, ps: seq<Preset>, caps: set<Capability>)
    requires IsConsistent(i) && DescribesChannel(caps) && ps != []
    requires forall k :: 0 <= k < |ps| ==> IsTunable(ps[k], caps)
    ensures var level := LastLevel(ps, caps, i.power);
            ApplyAll(i, ps, caps) == Intent(Some(ChannelOf(ps[|ps| - 1], level)), level)
    ensures IsConsistent(ApplyAll(i, ps, caps))
  {
    var n := |ps| - 1;
    if n > 0 {
      OnlyTheLastPresetSurvives(i, ps[..n], caps);
    } else {
      assert ps[..n] == [];
    }
    var before := ApplyAll(i, ps[..n], caps);
    PresetDeterminesTheChannel(before, ps[n], caps);
    AcceptedIsTheFold(before, PresetChanges(ps[n], caps));
  }

  // ----- The apply seam ----------------------------------------------------------------------

  /** Inside an open batch, `changes` have all been accepted since `start` and nothing was tuned. */
  ghost predicate Underway(start: TuneState, now: TuneState, changes: seq<Change>) {
    && start.batchDepth >= 1
    && Accepted(IntentOf(start), changes) == Some(IntentOf(now))
    && Untuned(start, now)
  }

  /** The request itself was at fault: the channel it asks for is not one, or there is none to change. */
  predicate IsBadRequest(outcome: Outcome) {
    outcome == NotReady || outcome == BadValue
  }

  /** No channel has reached the tuner since `start`, and the batch is still open. */
  ghost predicate Untuned(start: TuneState, now: TuneState) {
    now == start.(pending := now.pending, power := now.power, modulation := now.modulation)
  }

  /** The demodulator is the preset's, on a radio that has one to set. */
  predicate IsDemodulated(now: TuneState, start: TuneState, p: Preset) {
    now.modulation == if SET_MODULATION in start.caps then Some(p.modulation) else start.modulation
  }

  /** One setter call inside the batch. */
  method Set(radio: TunableRadio, c: Change, ghost start: TuneState, ghost changes: seq<Change>)
    returns (outcome: Outcome)
    requires Underway(start, radio.State(), changes)
    modifies radio
    ensures radio.modulation == old(radio.modulation)
    ensures outcome == Done ==> Underway(start, radio.State(), changes + [c])
    ensures outcome != Done ==> radio.State() == old(radio.State())
    ensures outcome == Unsupported <==> CapabilityOf(c) !in radio.caps
    ensures outcome != Done && outcome != Unsupported ==>
              IsBadRequest(outcome) && Accepted(IntentOf(start), changes + [c]) == None
  {
    AcceptedOfSnoc(IntentOf(start), changes, c);
    outcome := radio.Make(c);
  }

  /** The setter calls of one preset; stops at the first that raises. It stops only if the radio cannot set
      its frequency, a request of the preset is not acceptable, or the demodulator was refused. */
  method ApplyFields(radio: TunableRadio, p: Preset)
    returns (outcome: Outcome, applied: seq<Capability>)
    requires radio.batchDepth >= 1
    modifies radio
    ensures Untuned(old(radio.State()), radio.State())
    ensures outcome == Done ==> applied == Honoured(p, radio.caps)
    ensures outcome == Done ==> Underway(old(radio.State()), radio.State(), PresetChanges(p, radio.caps))
    ensures outcome == Done ==> IsDemodulated(radio.State(), old(radio.State()), p)
    ensures outcome == Unsupported <==> SET_FREQUENCY !in radio.caps
    ensures outcome == Unsupported ==> radio.State() == old(radio.State())
    ensures outcome == Done || outcome == Unsupported || IsBadRequest(outcome)
            || (outcome == TuneFailed && SET_MODULATION in radio.caps)
    ensures IsBadRequest(outcome) ==> Accepted(IntentOf(old(radio.State())), PresetChanges(p, radio.caps)) == None
  {
    ghost var start, whole := radio.State(), PresetChanges(p, radio.caps);
    ghost var legs := LegChanges(p, radio.caps);
    outcome, applied := ApplyLegs(radio, p);
    if outcome != Done {
      if IsBadRequest(outcome) {
        RefusedStaysRefused(IntentOf(start), legs, whole);
      }
      return;
    }
    if SET_MODULATION in radio.caps {
      outcome := radio.SetModulationTo(p.modulation);
      if outcome != Done {
        return;
      }
      applied := applied + [SET_MODULATION];
    }
    var more;
    outcome, more := ApplyVoice(radio, p, start, legs);
    applied := applied + more;
    AppliedIsHonoured(p, radio.caps);
  }

  method ApplyVoice(radio: TunableRadio, p: Preset,
                    ghost start: TuneState, ghost legs: seq<Change>)
    returns (outcome: Outcome, applied: seq<Capability>)
    requires Underway(start, radio.State(), legs)
    modifies radio
    ensures radio.modulation == old(radio.modulation)
    ensures Untuned(start, radio.State())
    ensures outcome == Done ==> applied == VoiceReport(p, radio.caps)
    ensures outcome == Done ==> Underway(start, radio.State(), legs + VoiceChanges(p, radio.caps))
    ensures outcome != Done ==>
              IsBadRequest(outcome) && Accepted(IntentOf(start), legs + VoiceChanges(p, radio.caps)) == None
  {
    ghost var tone, power := ToneChange(p, radio.caps), PowerChange(p, radio.caps);
    ConcatIsAssociative(legs, tone, power);
    outcome, applied := ApplyTone(radio, p, start, legs);
    if outcome != Done {
      RefusedStaysRefused(IntentOf(start), legs + tone, legs + tone + power);
      return;
    }
    var more;
    outcome, more := ApplyPower(radio, p, start, legs + tone);
    applied := applied + more;
  }

  method ApplyTone(radio: TunableRadio, p: Preset,
                   ghost start: TuneState, ghost made: seq<Change>)
    returns (outcome: Outcome, applied: seq<Capability>)
    requires Underway(start, radio.State(), made)
    modifies radio
    ensures radio.modulation == old(radio.modulation)
    ensures Untuned(start, radio.State())
    ensures outcome == Done ==> applied == Only(SET_TONE in radio.caps && p.txTone.Some?, SET_TONE)
    ensures outcome == Done ==> Underway(start, radio.State(), made + ToneChange(p, radio.caps))
    ensures outcome != Done ==>
              IsBadRequest(outcome) && Accepted(IntentOf(start), made + ToneChange(p, radio.caps)) == None
  {
    outcome, applied := Done, [];
    if SET_TONE in radio.caps {
      outcome := Set(radio, SetTone(p.txTone), start, made);
      if outcome == Done && p.txTone.Some? {
        applied := [SET_TONE];
      }
    } else {
      assert made + ToneChange(p, radio.caps) == made;
    }
  }

  method ApplyPower(radio: TunableRadio, p: Preset,
                    ghost start: TuneState, ghost made: seq<Change>)
    returns (outcome: Outcome, applied: seq<Capability>)
    requires Underway(start, radio.State(), made)
    modifies radio
    ensures radio.modulation == old(radio.modulation)
    ensures Untuned(start, radio.State())
    ensures outcome == Done ==> applied == Only(SET_POWER in radio.caps && p.power.Some?, SET_POWER)
    ensures outcome == Done ==> Underway(start, radio.State(), made + PowerChange(p, radio.caps))
    ensures outcome != Done ==>
              IsBadRequest(outcome) && Accepted(IntentOf(start), made + PowerChange(p, radio.caps)) == None
  {
    outcome, applied := Done, [];
    if SET_POWER in radio.caps && p.power.Some? {
      outcome := Set(radio, SetPower(p.power.value), start, made);
      if outcome == Done {
        applied := [SET_POWER];
      }
    } else {
      assert made + PowerChange(p, radio.caps) == made;
    }
  }

  method ApplyLegs(radio: TunableRadio, p: Preset)
    returns (outcome: Outcome, applied: seq<Capability>)
    requires radio.batchDepth >= 1
    modifies radio
    ensures radio.modulation == old(radio.modulation)
    ensures Untuned(old(radio.State()), radio.State())
    ensures outcome == Done ==> applied == LegReport(p, radio.caps)
    ensures outcome == Done ==> Underway(old(radio.State()), radio.State(), LegChanges(p, radio.caps))
    ensures outcome == Unsupported <==> SET_FREQUENCY !in radio.caps
    ensures outcome == Unsupported ==> radio.State() == old(radio.State())
    ensures outcome != Done && outcome != Unsupported ==>
              IsBadRequest(outcome) && Accepted(IntentOf(old(radio.State())), LegChanges(p, radio.caps)) == None
  {
    ghost var start, whole := radio.State(), LegChanges(p, radio.caps);
    applied := [];
    outcome := Set(radio, SetFrequency(p.frequency), start, []);
    ghost var made := [SetFrequency(p.frequency)];
    assert [] + made == made;
    if outcome == Unsupported {
      return;
    }
    if outcome != Done {
      RefusedStaysRefused(IntentOf(start), made, whole);
      return;
    }
    applied := applied + [SET_FREQUENCY];
    if SET_SPLIT in radio.caps {
      outcome := Set(radio, SetSplit(p.txFrequency), start, made);
      made := made + [SetSplit(p.txFrequency)];
      if outcome != Done {
        RefusedStaysRefused(IntentOf(start), made, whole);
        return;
      }
      if p.txFrequency.Some? {
        applied := applied + [SET_SPLIT];
      }
    }
    if SET_MODE in radio.caps {
      outcome := Set(radio, SetMode(p.mode), start, made);
      made := made + [SetMode(p.mode)];
      if outcome != Done {
        RefusedStaysRefused(IntentOf(start), made, whole);
        return;
      }
      applied := applied + [SET_MODE];
    }
    assert made == whole;
  }

  /** Leave the preset's batch after its last setter call, committing on the outermost exit. */
  method CloseBatch(radio: TunableRadio) returns (outcome: Outcome)
    requires radio.batchDepth >= 1
    modifies radio
    ensures radio.modulation == old(radio.modulation)
    ensures radio.batchDepth == old(radio.batchDepth) - 1
    ensures IntentOf(radio.State()) == old(IntentOf(radio.State()))
    ensures outcome == Done || outcome == RefusedTransmitting || outcome == TuneFailed
    ensures |radio.attempts| <= |old(radio.attempts)| + 1
    ensures outcome == Done && radio.batchDepth == 0 ==>
              radio.pending == None && radio.tuned == IntentOf(radio.State()).channel
    ensures outcome == RefusedTransmitting ==> old(radio.transmitting)
    ensures outcome == TuneFailed ==>
              |radio.attempts| > |old(radio.attempts)| && radio.confirmed == old(radio.confirmed)
    ensures outcome != Done ==> radio.tuned == old(radio.tuned)
  {
    CommitKeepsTheIntent(radio.State().(batchDepth := radio.batchDepth - 1));
    outcome := radio.EndBatch(false);
  }

  /** Apply a preset as one batch. A radio that cannot set its frequency refuses it and is left as it was.
      Success means every request was accepted and what was reported is what was promised, in the same
      order; outside any other batch it leaves the radio on exactly the channel asked for, after
      at most one tune. It fails only for a request this radio cannot meet, a demodulator or tuner that
      refuses, or a commit while transmitting; the channel tuned is then the one before, and success or
      failure the batch is closed. */
  method ApplyPreset(radio: TunableRadio, p: Preset)
    returns (outcome: Outcome, applied: seq<Capability>, skipped: seq<Skip>)
    requires radio.batchDepth >= 0
    modifies radio
    ensures radio.batchDepth == old(radio.batchDepth)
    ensures skipped == SkipReport(p, radio.caps)
    ensures outcome == Unsupported <==> SET_FREQUENCY !in radio.caps
    ensures outcome == Unsupported ==> radio.State() == old(radio.State())
    ensures outcome == Done ==> IsDemodulated(radio.State(), old(radio.State()), p)
    ensures outcome == Done ==>
              && applied == Honoured(p, radio.caps)
              && Accepted(IntentOf(old(radio.State())), PresetChanges(p, radio.caps)) == Some(IntentOf(radio.State()))
              && |radio.attempts| <= |old(radio.attempts)| + 1
    ensures IsBadRequest(outcome) && IsConsistent(IntentOf(old(radio.State()))) ==> !IsTunable(p, radio.caps)
    ensures IsBadRequest(outcome) ==> Accepted(IntentOf(old(radio.State())), PresetChanges(p, radio.caps)) == None
    ensures outcome == RefusedTransmitting ==> old(radio.transmitting)
    ensures outcome == TuneFailed ==>
              || SET_MODULATION in radio.caps
              || (|radio.attempts| > |old(radio.attempts)| && radio.confirmed == old(radio.confirmed))
    ensures outcome != Done ==> radio.tuned == old(radio.tuned)
    ensures outcome == Done && old(radio.batchDepth) == 0 ==>
              radio.pending == None && radio.tuned == IntentOf(radio.State()).channel
    ensures outcome == Done && IsConsistent(IntentOf(old(radio.State()))) ==>
              IntentOf(radio.State()) ==
              Intent(
                Some(ChannelAfter(IntentOf(old(radio.State())), p, radio.caps)),
                LevelAfter(p, radio.caps, old(radio.power)))
  {
    ghost var before := IntentOf(radio.State());
    var honoured;
    honoured, skipped := SplitPresetFields(p, radio.caps);
    radio.BeginBatch();
    ghost var start := radio.State();
    outcome, applied := ApplyFields(radio, p);
    if outcome != Done {
      if IsBadRequest(outcome) && IsConsistent(before) {
        PresetMovesWhatTheRadioCanSet(before, p, radio.caps);
      }
      var _ := radio.EndBatch(true);
      return;
    }
    AcceptedPresetIsItsChannel(before, p, radio.caps, IntentOf(radio.State()));
    outcome := CloseBatch(radio);
  }
}
