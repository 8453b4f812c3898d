/**
 One-time codes: a verifier that accepts a code over a window of three time steps, burns what it
 accepts, and forgets burns that no code can reach any more. Section 5.2 of RFC 6238 requires that a
 code be accepted at most once; the verifier meets it exactly, with at most three burns retained.
 */
module Totp {
  import opened Prelude

  type Code = string
  type Burn = (Code, int)

  /** The code generator: the code of each time step. Different steps may share a code. */
  type Generator = int -> Code

  /** One call: the time step the clock is in, and the code presented. */
  datatype Call = Call(step: int, code: Code)

  /** `int(now)` of the source: truncation toward zero. */
  function Truncate(now: real): (n: int) {
    if now >= 0.0 then now.Floor else -(-now).Floor
  }

  function StepAt(interval: int, now: real): (step: int)
    requires interval > 0
  {
    Truncate(now) / interval
  }

  /** The time step is the one whose interval the clock, truncated to whole seconds, is in. */
  lemma StepAtIsTheInterval(interval: int, now: real)
    requires interval > 0
    ensures var t, step := Truncate(now), StepAt(interval, now);
            && interval * step <= t < interval * (step + 1)
            && (now >= 0.0 ==> t as real <= now < (t + 1) as real)
            && (now < 0.0 ==> (t - 1) as real < now <= t as real)
  {
    var t, step := Truncate(now), StepAt(interval, now);
    assert t == interval * step + t % interval;
    assert interval * (step + 1) == interval * step + interval;
  }

  lemma StepAtIsMonotone(interval: int, t: real, u: real)
    requires interval > 0 && t <= u
    ensures StepAt(interval, t) <= StepAt(interval, u)
  {
    DivisionIsMonotone(Truncate(t), Truncate(u), interval);
  }

  lemma DivisionIsMonotone(a: int, b: int, d: int)
    requires d > 0 && a <= b
    ensures a / d <= b / d
  {
    var p, q := a / d, b / d;
    assert d * p <= a && b < d * q + d;
    assert d * (p - q) == d * p - d * q;
    if p - q >= 1 {
      WholeMultiple(d, p - q);
    }
  }

  lemma WholeMultiple(d: int, k: int)
    requires d > 0 && k >= 1
    ensures d * k >= d
  {
  }

  /** `step` is the first time step, of the one the clock is in and its two neighbours, whose code is the
      one presented. */
  ghost predicate IsFirstMatch(codeAt: Generator, c: Call, step: int) {
    && c.step - 1 <= step <= c.step + 1
    && codeAt(step) == c.code
    && forall s :: c.step - 1 <= s < step ==> codeAt(s) != c.code
  }

  function MatchedStep(codeAt: Generator, c: Call): (m: Option<int>)
    ensures m == None <==> forall s :: c.step - 1 <= s <= c.step + 1 ==> codeAt(s) != c.code
    ensures m.Some? ==> IsFirstMatch(codeAt, c, m.value)
  {
    if codeAt(c.step - 1) == c.code then Some(c.step - 1)
    else if codeAt(c.step) == c.code then Some(c.step)
    else if codeAt(c.step + 1) == c.code then Some(c.step + 1)
    else None
  }

  lemma MatchedStepIsTheFirstMatch(codeAt: Generator, c: Call, step: int)
    ensures MatchedStep(codeAt, c) == Some(step) <==> IsFirstMatch(codeAt, c, step)
  {
  }

  /** Forget every burn of a step before the window. */
  function Prune(burned: set<Burn>, step: int): (r: set<Burn>) {
    set k | k in burned && k.1 >= step - 1
  }

  /** Check a call against a burn set, burning what is accepted. */
  function Check(codeAt: Generator, burned: set<Burn>, c: Call): (r: (bool, set<Burn>)) {
    var m := MatchedStep(codeAt, c);
    if m.Some? && (c.code, m.value) !in burned
    then (true, burned + {(c.code, m.value)})
    else (false, burned)
  }

  /** The verifier: forget first, then check. */
  function Verify(codeAt: Generator, burned: set<Burn>, c: Call): (r: (bool, set<Burn>)) {
    Check(codeAt, Prune(burned, c.step), c)
  }

  /** Answers and burns after a run of the verifier. */
  function Run(codeAt: Generator, calls: seq<Call>): (r: (seq<bool>, set<Burn>))
    ensures |r.0| == |calls|
  {
    if calls == [] then ([], {})
    else
      var before := Run(codeAt, calls[..|calls| - 1]);
      var (ok, burned) := Verify(codeAt, before.1, calls[|calls| - 1]);
      (before.0 + [ok], burned)
  }

  /** The same run by a verifier that never forgets. */
  function RunForever(codeAt: Generator, calls: seq<Call>): (r: (seq<bool>, set<Burn>))
    ensures |r.0| == |calls|
  {
    if calls == [] then ([], {})
    else
      var before := RunForever(codeAt, calls[..|calls| - 1]);
      var (ok, burned) := Check(codeAt, before.1, calls[|calls| - 1]);
      (before.0 + [ok], burned)
  }

  ghost predicate NonDecreasing(calls: seq<Call>) {
    forall i, j :: 0 <= i < j < |calls| ==> calls[i].step <= calls[j].step
  }

  /** Forgetting is invisible: under a non-decreasing clock every answer is the one an unforgetting
      verifier gives, and what is kept is exactly its burns inside the current window. */
  lemma {:induction false} ForgettingIsInvisible(codeAt: Generator, calls: seq<Call>)
    requires NonDecreasing(calls)
    ensures Run(codeAt, calls).0 == RunForever(codeAt, calls).0
    ensures calls != [] ==>
              Run(codeAt, calls).1 == Prune(RunForever(codeAt, calls).1, calls[|calls| - 1].step)
  {
    if calls != [] {
      var n := |calls| - 1;
      var t := calls[..n];
      ForgettingIsInvisible(codeAt, t);
      var kept, all := Run(codeAt, t).1, RunForever(codeAt, t).1;
      if n > 0 {
        assert t[n - 1].step <= calls[n].step;
      }
      assert Prune(kept, calls[n].step) == Prune(all, calls[n].step);
    }
  }

  /** Burns name the code of their step, and lie in the window of some call. */
  lemma {:induction false} BurnsAreGenuine(codeAt: Generator, calls: seq<Call>, lo: int, hi: int)
    requires forall c :: c in calls ==> lo <= c.step <= hi
    ensures forall k :: k in RunForever(codeAt, calls).1 ==> k.0 == codeAt(k.1) && lo - 1 <= k.1 <= hi + 1
  {
    if calls != [] {
      BurnsAreGenuine(codeAt, calls[..|calls| - 1], lo, hi);
      assert calls[|calls| - 1] in calls;
    }
  }

  /** Call `i` was accepted, for time step `step`. */
  ghost predicate AcceptedStep(codeAt: Generator, calls: seq<Call>, i: nat, step: int)
    requires i < |calls|
  {
    Run(codeAt, calls).0[i] && IsFirstMatch(codeAt, calls[i], step)
  }

  lemma {:induction false} AnswersOfPrefix(codeAt: Generator, calls: seq<Call>, n: nat)
    requires n <= |calls|
    ensures Run(codeAt, calls[..n]).0 == Run(codeAt, calls).0[..n]
  {
    if n == |calls| {
      assert calls[..n] == calls;
    } else {
      AnswersOfPrefix(codeAt, calls[..|calls| - 1], n);
      assert calls[..|calls| - 1][..n] == calls[..n];
    }
  }

  lemma AcceptedStepOfPrefix(codeAt: Generator, calls: seq<Call>, n: nat, i: nat, step: int)
    requires i < n <= |calls|
    ensures AcceptedStep(codeAt, calls[..n], i, step) == AcceptedStep(codeAt, calls, i, step)
  {
    AnswersOfPrefix(codeAt, calls, n);
    assert Run(codeAt, calls).0[..n][i] == Run(codeAt, calls).0[i];
  }

  /** Exactly the steps accepted so far are burned by a verifier that never forgets. */
  lemma {:induction false} BurnedMeansAccepted(codeAt: Generator, calls: seq<Call>, step: int)
    requires NonDecreasing(calls)
    ensures (codeAt(step), step) in RunForever(codeAt, calls).1 <==>
            exists i: nat :: i < |calls| && AcceptedStep(codeAt, calls, i, step)
  {
    if calls != [] {
      var n := |calls| - 1;
      var t := calls[..n];
      BurnedMeansAccepted(codeAt, t, step);
      ForgettingIsInvisible(codeAt, calls);
      forall i: nat | i < n
        ensures AcceptedStep(codeAt, t, i, step) == AcceptedStep(codeAt, calls, i, step)
      {
        AcceptedStepOfPrefix(codeAt, calls, n, i, step);
      }
      if (codeAt(step), step) in RunForever(codeAt, t).1 {
        var i: nat :| i < n && AcceptedStep(codeAt, t, i, step);
        assert AcceptedStep(codeAt, calls, i, step);
      } else {
        assert AcceptedStep(codeAt, calls, n, step) <==> (codeAt(step), step) in RunForever(codeAt, calls).1;
      }
    }
  }

  /** One-time use, exactly: a call is accepted if and only if its code is that of some step of the
      window, the first of which no earlier call was accepted for. */
  lemma AcceptedIffStepIsFresh(codeAt: Generator, calls: seq<Call>, j: nat)
    requires NonDecreasing(calls) && j < |calls|
    ensures Run(codeAt, calls).0[j] <==>
            exists step ::
              && IsFirstMatch(codeAt, calls[j], step)
              && forall i: nat :: i < j ==> !AcceptedStep(codeAt, calls, i, step)
  {
    var m := MatchedStep(codeAt, calls[j]);
    if m.Some? {
      var upto := calls[..j + 1];
      AnswersOfPrefix(codeAt, calls, j + 1);
      LastIsAcceptedIffFresh(codeAt, upto, m.value);
      forall i: nat | i < j
        ensures AcceptedStep(codeAt, upto, i, m.value) == AcceptedStep(codeAt, calls, i, m.value)
      {
        AcceptedStepOfPrefix(codeAt, calls, j + 1, i, m.value);
      }
      assert Run(codeAt, calls).0[j] == Run(codeAt, upto).0[j];
      forall step | IsFirstMatch(codeAt, calls[j], step) ensures step == m.value {
        MatchedStepIsTheFirstMatch(codeAt, calls[j], step);
      }
    } else {
      RejectedWithoutAMatch(codeAt, calls, j);
    }
  }

  lemma RejectedWithoutAMatch(codeAt: Generator, calls: seq<Call>, j: nat)
    requires j < |calls| && MatchedStep(codeAt, calls[j]) == None
    ensures !Run(codeAt, calls).0[j]
  {
    AnswersOfPrefix(codeAt, calls, j + 1);
    assert Run(codeAt, calls).0[j] == Run(codeAt, calls[..j + 1]).0[j];
  }

  lemma LastIsAcceptedIffFresh(codeAt: Generator, calls: seq<Call>, step: int)
    requires NonDecreasing(calls) && calls != []
    requires MatchedStep(codeAt, calls[|calls| - 1]) == Some(step)
    ensures Run(codeAt, calls).0[|calls| - 1] <==>
            forall i: nat :: i < |calls| - 1 ==> !AcceptedStep(codeAt, calls, i, step)
  {
    var n := |calls| - 1;
    var t := calls[..n];
    ForgettingIsInvisible(codeAt, calls);
    BurnedMeansAccepted(codeAt, t, step);
    forall i: nat | i < n
      ensures AcceptedStep(codeAt, t, i, step) == AcceptedStep(codeAt, calls, i, step)
    {
      AcceptedStepOfPrefix(codeAt, calls, n, i, step);
    }
  }

  /** Single use, as the standard words it: no time step is ever accepted twice. */
  lemma NoStepIsAcceptedTwice(codeAt: Generator, calls: seq<Call>, i: nat, j: nat, step: int)
    requires NonDecreasing(calls) && i < j < |calls|
    requires AcceptedStep(codeAt, calls, i, step)
    ensures !AcceptedStep(codeAt, calls, j, step)
  {
    AcceptedIffStepIsFresh(codeAt, calls, j);
  }

  /** At most one burn per step fits in a range of steps. */
  lemma {:induction false} BurnsFitTheirRange(codeAt: Generator, burned: set<Burn>, lo: int, hi: int)
    requires forall k :: k in burned ==> k.0 == codeAt(k.1) && lo <= k.1 <= hi
    requires lo <= hi + 1
    ensures |burned| <= hi - lo + 1
    decreases hi - lo
  {
    if lo > hi {
      assert burned == {};
    } else {
      var top := (codeAt(hi), hi);
      var rest := burned - {top};
      BurnsFitTheirRange(codeAt, rest, lo, hi - 1);
      assert burned <= rest + {top};
      assert |burned| <= |rest| + 1 by {
        if top in burned { assert burned == rest + {top}; } else { assert burned == rest; }
      }
    }
  }

  /** Never more than three burns are retained, however long the verifier runs. */
  lemma AtMostThreeBurnsRetained(codeAt: Generator, calls: seq<Call>)
    requires NonDecreasing(calls)
    ensures |Run(codeAt, calls).1| <= 3
  {
    if calls != [] {
      var n := |calls| - 1;
      var now := calls[n].step;
      var least := calls[0].step;
      ForgettingIsInvisible(codeAt, calls);
      BurnsAreGenuine(codeAt, calls, least, now);
      BurnsFitTheirRange(codeAt, Run(codeAt, calls).1, now - 1, now + 1);
    }
  }

  function CountTrue(answers: seq<bool>): (n: nat) {
    if answers == [] then 0
    else CountTrue(answers[..|answers| - 1]) + if answers[|answers| - 1] then 1 else 0
  }

  lemma {:induction false} EveryAcceptIsABurn(codeAt: Generator, calls: seq<Call>)
    ensures CountTrue(RunForever(codeAt, calls).0) == |RunForever(codeAt, calls).1|
  {
    if calls != [] {
      EveryAcceptIsABurn(codeAt, calls[..|calls| - 1]);
      var answers := RunForever(codeAt, calls).0;
      assert answers[..|calls| - 1] == RunForever(codeAt, calls[..|calls| - 1]).0;
    }
  }

  /** A run whose clock spans steps a..b accepts at most b - a + 3 times, whatever is presented. */
  lemma AcceptsAreBoundedByTheClock(codeAt: Generator, calls: seq<Call>, a: int, b: int)
    requires NonDecreasing(calls) && a <= b
    requires forall c :: c in calls ==> a <= c.step <= b
    ensures CountTrue(Run(codeAt, calls).0) <= b - a + 3
  {
    ForgettingIsInvisible(codeAt, calls);
    EveryAcceptIsABurn(codeAt, calls);
    BurnsAreGenuine(codeAt, calls, a, b);
    BurnsFitTheirRange(codeAt, RunForever(codeAt, calls).1, a - 1, b + 1);
  }

  class TotpVerifier {
    const codeAt: Generator
    const interval: int
    var consumed: set<Burn>

    ghost predicate Valid() {
      interval > 0
    }

    constructor (codeAt: Generator, interval: int)
      requires interval > 0
      ensures Valid() && consumed == {} && this.codeAt == codeAt && this.interval == interval
    {
      this.codeAt, this.interval := codeAt, interval;
      consumed := {};
    }

    method VerifyAndBurn(code: Code, now: real) returns (ok: bool)
      requires Valid()
      modifies this
      ensures (ok, consumed) == Verify(codeAt, old(consumed), Call(StepAt(interval, now), code))
      ensures ok <==> exists step ::
                        IsFirstMatch(codeAt, Call(StepAt(interval, now), code), step) && (code, step) !in old(consumed)
    {
      var nowStep := StepAt(interval, now);
      PruneTo(nowStep);
      for offset := -1 to 2
        invariant consumed == Prune(old(consumed), nowStep)
        invariant forall s :: nowStep - 1 <= s < nowStep + offset ==> codeAt(s) != code
      {
        var step := nowStep + offset;
        if codeAt(step) == code {
          var key := (code, step);
          if key in consumed {
            return false;
          }
          consumed := consumed + {key};
          return true;
        }
      }
      return false;
    }

    method PruneTo(nowStep: int)
      modifies this
      ensures consumed == Prune(old(consumed), nowStep)
    {
      consumed := set k | k in consumed && k.1 >= nowStep - 1;
    }
  }
}
