/**
 The software squelch: hysteresis (open on a high threshold, hold on a lower one) and a hang time.
 Its mutable state is characterised by an exact statement about the level trace, from which every
 monotonicity property follows by inspection.
 */
module Squelch {
  import opened Prelude

  /** One received frame: its level and the clock reading taken as it is judged. */
  datatype Frame = Frame(level: real, at: real)

  datatype Params = Params(on: real, off: real, hang: real)

  datatype GateState = GateState(open: bool, activeUntil: Option<real>)

  const SHUT := GateState(false, None)

  ghost predicate ValidParams(p: Params) {
    p.on > p.off
  }

  function Judge(p: Params, s: GateState, f: Frame): (r: (GateState, bool)) {
    if f.level >= (if s.open then p.off else p.on) then (GateState(true, Some(f.at + p.hang)), true)
    else if s.open && s.activeUntil.Some? && f.at < s.activeUntil.value then (s, true)
    else (SHUT, false)
  }

  function RunState(p: Params, frames: seq<Frame>): (s: GateState) {
    if frames == [] then SHUT
    else Judge(p, RunState(p, frames[..|frames| - 1]), frames[|frames| - 1]).0
  }

  /** Does frame `i` of the trace pass? */
  function Passes(p: Params, frames: seq<Frame>, i: nat): (pass: bool)
    requires i < |frames|
  {
    Judge(p, RunState(p, frames[..i]), frames[i]).1
  }

  ghost predicate ClockRuns(frames: seq<Frame>) {
    forall i, j :: 0 <= i <= j < |frames| ==> frames[i].at <= frames[j].at
  }

  // ----- What passing means ------------------------------------------------------------------

  /** Frame `m` holds the gate at frame `k`: it reached the off-threshold, and it is frame `k` itself
      or is less than the hang time before it. */
  predicate Holds(p: Params, frames: seq<Frame>, m: nat, k: nat)
    requires m <= k < |frames|
  {
    frames[m].level >= p.off && (m == k || frames[k].at < frames[m].at + p.hang)
  }

  ghost predicate Held(p: Params, frames: seq<Frame>, j: nat, k: nat)
    requires j <= k < |frames|
  {
    exists m: nat :: j <= m <= k && Holds(p, frames, m, k)
  }

  /** Frame `j` opened the gate, and every frame from it up to `i` is held by one since `j`. */
  ghost predicate OpenSince(p: Params, frames: seq<Frame>, j: nat, i: nat)
    requires i < |frames|
  {
    j <= i && frames[j].level >= p.on && forall k :: j <= k <= i ==> Held(p, frames, j, k)
  }

  /** The index of the frame that last renewed an open gate. */
  function LastHold(p: Params, frames: seq<Frame>): (m: nat)
    requires RunState(p, frames).open
    ensures m < |frames|
  {
    var n := |frames| - 1;
    var s := RunState(p, frames[..n]);
    if frames[n].level >= (if s.open then p.off else p.on) then n else LastHold(p, frames[..n])
  }

  /** An open gate is timed from its last renewal, and no later frame reached the off-threshold. */
  lemma {:induction false} OpenGateIsTimedFromItsLastHold(p: Params, frames: seq<Frame>)
    requires RunState(p, frames).open
    ensures var m := LastHold(p, frames);
            && RunState(p, frames).activeUntil == Some(frames[m].at + p.hang)
            && frames[m].level >= (if p.off <= p.on then p.off else p.on)
            && forall k :: m < k < |frames| ==> frames[k].level < p.off
  {
    var n := |frames| - 1;
    var s := RunState(p, frames[..n]);
    if !(frames[n].level >= (if s.open then p.off else p.on)) {
      OpenGateIsTimedFromItsLastHold(p, frames[..n]);
    }
  }

  lemma StateAfterFrame(p: Params, frames: seq<Frame>, i: nat)
    requires i < |frames|
    ensures RunState(p, frames[..i + 1]) == Judge(p, RunState(p, frames[..i]), frames[i]).0
    ensures Passes(p, frames, i) == RunState(p, frames[..i + 1]).open
  {
    assert frames[..i + 1][..i] == frames[..i];
  }

  /** A passing frame has been open since some frame that reached the on-threshold. */
  lemma {:induction false} PassingMeansOpenSince(p: Params, frames: seq<Frame>, i: nat) returns (j: nat)
    requires ValidParams(p) && i < |frames| && Passes(p, frames, i)
    ensures OpenSince(p, frames, j, i)
    ensures RunState(p, frames[..i]).open ==> j <= LastHold(p, frames[..i])
    decreases i
  {
    var before := frames[..i];
    var s := RunState(p, before);
    if !s.open {
      assert Holds(p, frames, i, i);
      j := i;
    } else {
      StateAfterFrame(p, frames, i - 1);
      assert Passes(p, frames, i - 1) by { assert frames[..i - 1 + 1] == before; }
      j := PassingMeansOpenSince(p, frames, i - 1);
      OpenGateIsTimedFromItsLastHold(p, before);
      var m := LastHold(p, before);
      assert before[..i - 1] == frames[..i - 1];
      if frames[i].level >= p.off {
        assert Holds(p, frames, i, i);
      } else {
        assert Holds(p, frames, m, i);
      }
      assert Held(p, frames, j, i);
    }
  }

  /** A frame held open since an opening frame passes. */
  lemma {:induction false} OpenSinceMeansPassing(p: Params, frames: seq<Frame>, j: nat, i: nat)
    requires ValidParams(p) && ClockRuns(frames)
    requires i < |frames| && OpenSince(p, frames, j, i)
    ensures Passes(p, frames, i)
    decreases i
  {
    if j < i {
      OpenSinceMeansPassing(p, frames, j, i - 1);
      StateAfterFrame(p, frames, i - 1);
      var before := frames[..i];
      assert frames[..i - 1 + 1] == before;
      OpenGateIsTimedFromItsLastHold(p, before);
      var last := LastHold(p, before);
      assert Held(p, frames, j, i);
      var m: nat :| j <= m <= i && Holds(p, frames, m, i);
      if m < i {
        assert before[m] == frames[m];
        assert m <= last;
        assert frames[m].at <= frames[last].at;
      }
    }
  }

  /** The squelch, exactly: frame `i` passes if and only if some frame up to it reached the
      on-threshold and every frame since is held by a frame that reached the off-threshold. */
  lemma PassesIffOpenSince(p: Params, frames: seq<Frame>, i: nat)
    requires ValidParams(p) && ClockRuns(frames) && i < |frames|
    ensures Passes(p, frames, i) <==> exists j: nat :: OpenSince(p, frames, j, i)
  {
    if Passes(p, frames, i) {
      var j := PassingMeansOpenSince(p, frames, i);
    }
    if j: nat :| OpenSince(p, frames, j, i) {
      OpenSinceMeansPassing(p, frames, j, i);
    }
  }

  /** `louder` has the same clock as `quieter` and is at least as loud in every frame. */
  ghost predicate AtLeastAsLoud(louder: seq<Frame>, quieter: seq<Frame>) {
    && |louder| == |quieter|
    && forall i :: 0 <= i < |louder| ==> louder[i].at == quieter[i].at && louder[i].level >= quieter[i].level
  }

  /** A louder trace, through a gate that is no harder to open or to hold, passes every frame that
      the quieter trace passes: two runs with different states throughout, compared frame by frame. */
  lemma LouderPassesMore(p: Params, quieter: seq<Frame>, q: Params, louder: seq<Frame>, i: nat)
    requires ValidParams(p) && ValidParams(q) && ClockRuns(quieter)
    requires AtLeastAsLoud(louder, quieter)
    requires q.on <= p.on && q.off <= p.off && q.hang >= p.hang
    requires i < |quieter| && Passes(p, quieter, i)
    ensures Passes(q, louder, i)
  {
    PassesIffOpenSince(p, quieter, i);
    var j: nat :| OpenSince(p, quieter, j, i);
    forall k | j <= k <= i
      ensures Held(q, louder, j, k)
    {
      assert Held(p, quieter, j, k);
      var m: nat :| j <= m <= k && Holds(p, quieter, m, k);
      assert Holds(q, louder, m, k);
    }
    assert OpenSince(q, louder, j, i);
    OpenSinceMeansPassing(q, louder, j, i);
  }

  // ----- The object --------------------------------------------------------------------------

  class AudioLevelGate {
    const params: Params
    var open: bool
    var activeUntil: Option<real>
    ghost var seen: seq<Frame>

    ghost predicate Valid()
      reads this
    {
      ValidParams(params) && GateState(open, activeUntil) == RunState(params, seen)
    }

    constructor Unchecked(params: Params)
      requires ValidParams(params)
      ensures Valid() && this.params == params && seen == []
    {
      this.params := params;
      open, activeUntil := false, None;
      seen := [];
    }

    /** Construction, with the refusal of thresholds that leave no hysteresis. */
    static method Create(params: Params) returns (gate: AudioLevelGate?)
      ensures gate == null <==> params.on <= params.off
      ensures gate != null ==> fresh(gate) && gate.Valid() && gate.params == params && gate.seen == []
    {
      if params.on <= params.off {
        return null;
      }
      gate := new AudioLevelGate.Unchecked(params);
    }

    method Relay(level: real, now: real) returns (pass: bool)
      requires Valid()
      modifies this
      ensures Valid() && seen == old(seen) + [Frame(level, now)]
      ensures pass == Passes(params, seen, |seen| - 1)
    {
      ghost var before := seen;
      seen := seen + [Frame(level, now)];
      assert seen[..|before|] == before;
      var threshold := if open then params.off else params.on;
      if level >= threshold {
        open, activeUntil := true, Some(now + params.hang);
        return true;
      }
      if open && activeUntil.Some? && now < activeUntil.value {
        return true;
      }
      open, activeUntil := false, None;
      return false;
    }
  }
}
