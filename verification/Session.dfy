/**
 The login plane: one DTMF entry point that routes digits to code verification or to commands, with
 an inactivity timeout applied lazily. Proved over whole runs: when exactly an entry is a command,
 and that polling for idle sessions never changes what an entry does.
 */
module Session {
  import opened Prelude
  import opened Totp

  datatype Outcome = Accepted | Rejected | Command

  datatype Gate = Gate(codeAt: Generator, interval: int, timeout: real, enforce: bool)

  datatype GateState = GateState(authenticated: bool, lastActivity: real, burned: set<Burn>)

  datatype GateEvent =
    | Dtmf(digits: Code, at: real)
    | ExpireIfIdle(at: real)
    | Open(at: real)
    | Logout(at: real)
    | VerifiedElsewhere(code: Code, at: real)  // another session's entry, on the shared verifier

  const CLOSED := GateState(false, 0.0, {})

  ghost predicate ValidGate(g: Gate) {
    g.interval > 0
  }

  function CallOf(g: Gate, digits: Code, now: real): (c: Call)
    requires ValidGate(g)
  {
    Call(StepAt(g.interval, now), digits)
  }

  function Expire(g: Gate, s: GateState, now: real): (r: GateState) {
    if s.authenticated && now - s.lastActivity > g.timeout then s.(authenticated := false) else s
  }

  function DtmfStep(g: Gate, s: GateState, digits: Code, now: real): (r: (GateState, Outcome))
    requires ValidGate(g)
  {
    var live := Expire(g, s, now).(lastActivity := now);
    if !g.enforce then (live.(authenticated := true), Command)
    else if live.authenticated then (live, Command)
    else
      var (ok, burned) := Verify(g.codeAt, s.burned, CallOf(g, digits, now));
      (GateState(ok, now, burned), if ok then Accepted else Rejected)
  }

  function GateStep(g: Gate, s: GateState, e: GateEvent): (r: (GateState, Option<Outcome>))
    requires ValidGate(g)
  {
    match e
    case Dtmf(digits, now) =>
      var (s', outcome) := DtmfStep(g, s, digits, now);
      (s', Some(outcome))
    case ExpireIfIdle(now) => (Expire(g, s, now), None)
    case Open(now) => (s.(authenticated := true, lastActivity := now), None)
    case Logout(_) => (s.(authenticated := false), None)
    case VerifiedElsewhere(code, now) =>
      (s.(burned := Verify(g.codeAt, s.burned, CallOf(g, code, now)).1), None)
  }

  /** State after a run, and the outcome of every entry in order. */
  function GateRun(g: Gate, evs: seq<GateEvent>): (r: (GateState, seq<Outcome>))
    requires ValidGate(g)
  {
    if evs == [] then (CLOSED, [])
    else
      var before := GateRun(g, evs[..|evs| - 1]);
      var (s, outcome) := GateStep(g, before.0, evs[|evs| - 1]);
      (s, before.1 + if outcome.Some? then [outcome.value] else [])
  }

  ghost predicate ClockRuns(evs: seq<GateEvent>) {
    forall i, j :: 0 <= i <= j < |evs| ==> evs[i].at <= evs[j].at
  }

  // ----- Polling is invisible ----------------------------------------------------------------

  function WithoutPolls(evs: seq<GateEvent>): (r: seq<GateEvent>) {
    if evs == [] then []
    else
      WithoutPolls(evs[..|evs| - 1]) +
      if evs[|evs| - 1].ExpireIfIdle? then [] else [evs[|evs| - 1]]
  }

  /** The polled session agrees with the unpolled one, or has closed one that is already stale. */
  ghost predicate SameButStale(g: Gate, polled: GateState, unpolled: GateState, now: real) {
    && polled.lastActivity == unpolled.lastActivity
    && polled.burned == unpolled.burned
    && (polled.authenticated == unpolled.authenticated ||
        (unpolled.authenticated && now - unpolled.lastActivity > g.timeout))
  }

  /** One event keeps the two sessions in step, and an entry has the same outcome in both. */
  lemma StepKeepsSameButStale(g: Gate, polled: GateState, unpolled: GateState, e: GateEvent, now: real)
    requires ValidGate(g) && now <= e.at && SameButStale(g, polled, unpolled, now)
    ensures e.ExpireIfIdle? ==> SameButStale(g, GateStep(g, polled, e).0, unpolled, e.at)
    ensures !e.ExpireIfIdle? ==> SameButStale(g, GateStep(g, polled, e).0, GateStep(g, unpolled, e).0, e.at)
    ensures GateStep(g, polled, e).1 == GateStep(g, unpolled, e).1
  {
  }

  lemma GateRunOfSnoc(g: Gate, evs: seq<GateEvent>, e: GateEvent)
    requires ValidGate(g)
    ensures var before := GateRun(g, evs);
            var (s, outcome) := GateStep(g, before.0, e);
            GateRun(g, evs + [e]) == (s, before.1 + if outcome.Some? then [outcome.value] else [])
  {
    assert (evs + [e])[..|evs|] == evs;
  }

  lemma WithoutPollsOfSnoc(evs: seq<GateEvent>, e: GateEvent)
    ensures WithoutPolls(evs + [e]) == WithoutPolls(evs) + if e.ExpireIfIdle? then [] else [e]
  {
    assert (evs + [e])[..|evs|] == evs;
  }

  lemma PollingIsInvisibleOneMore(g: Gate, t: seq<GateEvent>, e: GateEvent, before: real)
    requires ValidGate(g) && before <= e.at
    requires GateRun(g, t).1 == GateRun(g, WithoutPolls(t)).1
    requires SameButStale(g, GateRun(g, t).0, GateRun(g, WithoutPolls(t)).0, before)
    ensures GateRun(g, t + [e]).1 == GateRun(g, WithoutPolls(t + [e])).1
    ensures SameButStale(g, GateRun(g, t + [e]).0, GateRun(g, WithoutPolls(t + [e])).0, e.at)
  {
    var u := WithoutPolls(t);
    StepKeepsSameButStale(g, GateRun(g, t).0, GateRun(g, u).0, e, before);
    GateRunOfSnoc(g, t, e);
    GateRunOfSnoc(g, u, e);
    WithoutPollsOfSnoc(t, e);
    assert u + [] == u;
  }

  /** Polling for idle sessions, at any times and any number of times, changes no entry's outcome. */
  lemma {:induction false} PollingIsInvisible(g: Gate, evs: seq<GateEvent>)
    requires ValidGate(g) && ClockRuns(evs)
    ensures GateRun(g, evs).1 == GateRun(g, WithoutPolls(evs)).1
    ensures evs != [] ==>
              SameButStale(g, GateRun(g, evs).0, GateRun(g, WithoutPolls(evs)).0, evs[|evs| - 1].at)
  {
    if evs != [] {
      var n := |evs| - 1;
      PollingIsInvisible(g, evs[..n]);
      assert evs[..n] + [evs[n]] == evs;
      PollingIsInvisibleOneMore(g, evs[..n], evs[n], if n > 0 then evs[n - 1].at else evs[n].at);
    }
  }

  // ----- When an entry is a command ----------------------------------------------------------

  predicate Stamps(e: GateEvent) {
    e.Dtmf? || e.Open?
  }

  /** The time of the last stamping event. */
  function StampTime(evs: seq<GateEvent>): (t: real) {
    if evs == [] then CLOSED.lastActivity
    else if Stamps(evs[|evs| - 1]) then evs[|evs| - 1].at
    else StampTime(evs[..|evs| - 1])
  }

  /** What entry `j` was answered. */
  function OutcomeAt(g: Gate, evs: seq<GateEvent>, j: nat): (outcome: Outcome)
    requires ValidGate(g) && j < |evs| && evs[j].Dtmf?
  {
    DtmfStep(g, GateRun(g, evs[..j]).0, evs[j].digits, evs[j].at).1
  }

  /** Event `j` opens the session whatever it was before: the operator, a login, or, where no code is
      asked for, any entry. */
  ghost predicate OpensAt(g: Gate, evs: seq<GateEvent>, j: nat)
    requires ValidGate(g) && j < |evs|
  {
    || evs[j].Open?
    || (evs[j].Dtmf? && (!g.enforce || OutcomeAt(g, evs, j) == Accepted))
  }

  /** Event `j` opened the session, nothing logged it out since, and no stamp gap since then, the one
      up to `now` included, exceeded the timeout. */
  ghost predicate OpenedAndKeptAlive(g: Gate, evs: seq<GateEvent>, j: nat, now: real)
    requires ValidGate(g)
  {
    && j < |evs|
    && OpensAt(g, evs, j)
    && (forall k :: j < k < |evs| ==> !evs[k].Logout?)
    && (forall k :: j < k < |evs| && Stamps(evs[k]) ==> evs[k].at - StampTime(evs[..k]) <= g.timeout)
    && now - StampTime(evs) <= g.timeout
  }

  ghost predicate KeptAlive(g: Gate, evs: seq<GateEvent>, now: real)
    requires ValidGate(g)
  {
    exists j: nat :: OpenedAndKeptAlive(g, evs, j, now)
  }

  lemma KeptAlivePastOneMore(g: Gate, evs: seq<GateEvent>, j: nat, now: real)
    requires ValidGate(g) && j < |evs| - 1
    ensures var n := |evs| - 1;
            OpenedAndKeptAlive(g, evs, j, now) <==>
            && !evs[n].Logout?
            && if Stamps(evs[n])
               then OpenedAndKeptAlive(g, evs[..n], j, evs[n].at) && now - evs[n].at <= g.timeout
               else OpenedAndKeptAlive(g, evs[..n], j, now)
  {
    var n := |evs| - 1;
    var t := evs[..n];
    assert forall k :: 0 <= k < n ==> t[..k] == evs[..k] && t[k] == evs[k];
    assert OpensAt(g, t, j) == OpensAt(g, evs, j);
  }

  /** What the last event does to being kept alive. */
  lemma KeptAliveOfSnoc(g: Gate, evs: seq<GateEvent>, now: real)
    requires ValidGate(g) && evs != []
    ensures var n := |evs| - 1;
            var t, e := evs[..n], evs[n];
            KeptAlive(g, evs, now) <==>
            if e.Logout? then false
            else if Stamps(e) then
              now - e.at <= g.timeout && (OpensAt(g, evs, n) || KeptAlive(g, t, e.at))
            else KeptAlive(g, t, now)
  {
    var n := |evs| - 1;
    var t, e := evs[..n], evs[n];
    var since := if Stamps(e) then e.at else now;
    if j: nat :| OpenedAndKeptAlive(g, evs, j, now) {
      if j < n {
        KeptAlivePastOneMore(g, evs, j, now);
        assert OpenedAndKeptAlive(g, t, j, since);
      }
    }
    if KeptAlive(g, t, since) {
      var j: nat :| OpenedAndKeptAlive(g, t, j, since);
      KeptAlivePastOneMore(g, evs, j, now);
    }
    if OpensAt(g, evs, n) {
      assert OpenedAndKeptAlive(g, evs, n, now) <==> now - e.at <= g.timeout;
    }
  }

  predicate LiveAt(g: Gate, s: GateState, now: real) {
    s.authenticated && now - s.lastActivity <= g.timeout
  }

  /** What one event does to a live session. */
  lemma LiveOfStep(g: Gate, s: GateState, e: GateEvent, now: real)
    requires ValidGate(g) && e.at <= now
    ensures var s' := GateStep(g, s, e).0;
            && s'.lastActivity == (if Stamps(e) then e.at else s.lastActivity)
            && (LiveAt(g, s', now) <==>
                if e.Logout? then false
                else if e.Open? then now - e.at <= g.timeout
                else if e.Dtmf? then
                  && now - e.at <= g.timeout
                  && (!g.enforce || LiveAt(g, s, e.at) || DtmfStep(g, s, e.digits, e.at).1 == Accepted)
                else LiveAt(g, s, now))
  {
  }

  /** A session is live at `now` exactly when some event that opened it has been kept alive. */
  lemma {:induction false} LiveIffKeptAlive(g: Gate, evs: seq<GateEvent>, now: real)
    requires ValidGate(g) && ClockRuns(evs)
    requires forall e :: e in evs ==> e.at <= now
    ensures GateRun(g, evs).0.lastActivity == StampTime(evs)
    ensures LiveAt(g, GateRun(g, evs).0, now) <==> KeptAlive(g, evs, now)
  {
    if evs != [] {
      var n := |evs| - 1;
      var t, e := evs[..n], evs[n];
      assert e in evs;
      forall d | d in t ensures d.at <= e.at {
        var i :| 0 <= i < n && t[i] == d;
        assert evs[i].at <= evs[n].at;
      }
      LiveIffKeptAlive(g, t, now);
      LiveIffKeptAlive(g, t, e.at);
      LiveOfStep(g, GateRun(g, t).0, e, now);
      KeptAliveOfSnoc(g, evs, now);
    }
  }

  /** An entry is treated as a command if and only if no code is asked for at all or, when it arrives,
      some accepted code or operator open since the last logout has been kept alive by stamps no further
      apart than the timeout. */
  lemma CommandIffLoggedIn(g: Gate, evs: seq<GateEvent>, digits: Code, now: real)
    requires ValidGate(g) && ClockRuns(evs)
    requires forall e :: e in evs ==> e.at <= now
    ensures DtmfStep(g, GateRun(g, evs).0, digits, now).1 == Command <==>
            !g.enforce || exists j: nat :: OpenedAndKeptAlive(g, evs, j, now)
  {
    LiveIffKeptAlive(g, evs, now);
  }

  /** A poll leaves the session open exactly when it was kept alive: a stale one is closed, a live one
      never is. */
  lemma PollClosesExactlyTheStale(g: Gate, evs: seq<GateEvent>, now: real)
    requires ValidGate(g) && ClockRuns(evs)
    requires forall e :: e in evs ==> e.at <= now
    ensures GateRun(g, evs + [ExpireIfIdle(now)]).0.authenticated <==> KeptAlive(g, evs, now)
  {
    LiveIffKeptAlive(g, evs, now);
    GateRunOfSnoc(g, evs, ExpireIfIdle(now));
  }

  // ----- Without codes -----------------------------------------------------------------------

  function EntryCount(evs: seq<GateEvent>): (n: nat) {
    if evs == [] then 0 else EntryCount(evs[..|evs| - 1]) + if evs[|evs| - 1].Dtmf? then 1 else 0
  }

  /** The verifier calls of other sessions. */
  function CallsElsewhere(g: Gate, evs: seq<GateEvent>): (calls: seq<Call>)
    requires ValidGate(g)
  {
    if evs == [] then []
    else
      var e := evs[|evs| - 1];
      CallsElsewhere(g, evs[..|evs| - 1]) + if e.VerifiedElsewhere? then [CallOf(g, e.code, e.at)] else []
  }

  /** Every entry is answered, once, in order. */
  lemma {:induction false} EveryEntryIsAnswered(g: Gate, evs: seq<GateEvent>)
    requires ValidGate(g)
    ensures |GateRun(g, evs).1| == EntryCount(evs)
  {
    if evs != [] {
      EveryEntryIsAnswered(g, evs[..|evs| - 1]);
    }
  }

  /** Where no code is asked for, every entry of a run is a command, and the run burns only what other
      sessions burn: no entry here costs anybody a code. */
  lemma {:induction false} UnenforcedOnlyCommands(g: Gate, evs: seq<GateEvent>)
    requires ValidGate(g) && !g.enforce
    ensures forall k :: 0 <= k < |GateRun(g, evs).1| ==> GateRun(g, evs).1[k] == Command
    ensures |GateRun(g, evs).1| == EntryCount(evs)
    ensures GateRun(g, evs).0.burned == Run(g.codeAt, CallsElsewhere(g, evs)).1
  {
    if evs != [] {
      var t, e := evs[..|evs| - 1], evs[|evs| - 1];
      UnenforcedOnlyCommands(g, t);
      if e.VerifiedElsewhere? {
        var calls, c := CallsElsewhere(g, t), CallOf(g, e.code, e.at);
        assert (calls + [c])[..|calls|] == calls;
      } else {
        assert CallsElsewhere(g, evs) == CallsElsewhere(g, t);
      }
    }
  }

  /** And each entry leaves its session open, stamped with its own time. */
  lemma UnenforcedEntryOpens(g: Gate, evs: seq<GateEvent>, digits: Code, now: real)
    requires ValidGate(g) && !g.enforce
    ensures var s := GateRun(g, evs + [Dtmf(digits, now)]).0;
            s.authenticated && s.lastActivity == now
  {
    GateRunOfSnoc(g, evs, Dtmf(digits, now));
  }

  // ----- One-time use across the login plane -------------------------------------------------

  /** The verifier call one event makes: an entry to a closed session, or another session's entry. */
  function CallMade(g: Gate, s: GateState, e: GateEvent): (c: Option<Call>)
    requires ValidGate(g)
  {
    if e.Dtmf? && g.enforce && !LiveAt(g, s, e.at) then Some(CallOf(g, e.digits, e.at))
    else if e.VerifiedElsewhere? then Some(CallOf(g, e.code, e.at))
    else None
  }

  /** The verifier calls a run makes. */
  function VerifierCalls(g: Gate, evs: seq<GateEvent>): (calls: seq<Call>)
    requires ValidGate(g)
  {
    if evs == [] then []
    else
      var t, e := evs[..|evs| - 1], evs[|evs| - 1];
      var c := CallMade(g, GateRun(g, t).0, e);
      VerifierCalls(g, t) + if c.Some? then [c.value] else []
  }

  lemma BurnsOfStep(g: Gate, s: GateState, e: GateEvent)
    requires ValidGate(g)
    ensures var c := CallMade(g, s, e);
            GateStep(g, s, e).0.burned == if c.Some? then Verify(g.codeAt, s.burned, c.value).1 else s.burned
  {
  }

  lemma VerifierRunOfSnoc(g: Gate, calls: seq<Call>, c: Call, step: int)
    requires NonDecreasing(calls) && (forall d :: d in calls ==> d.step <= step) && c.step == step
    ensures NonDecreasing(calls + [c])
    ensures forall d :: d in calls + [c] ==> d.step <= step
    ensures Run(g.codeAt, calls + [c]).1 == Verify(g.codeAt, Run(g.codeAt, calls).1, c).1
  {
    assert (calls + [c])[..|calls|] == calls;
    assert forall i :: 0 <= i < |calls| ==> calls[i] in calls;
  }

  /** The burns a run leaves are those of the verifier calls it made, in clock order. */
  lemma {:induction false} GateBurnsAreTheVerifiers(g: Gate, evs: seq<GateEvent>, now: real)
    requires ValidGate(g) && ClockRuns(evs)
    requires evs != [] ==> evs[|evs| - 1].at <= now
    ensures var calls := VerifierCalls(g, evs);
            && GateRun(g, evs).0.burned == Run(g.codeAt, calls).1
            && NonDecreasing(calls)
            && forall c :: c in calls ==> c.step <= StepAt(g.interval, now)
  {
    if evs != [] {
      var n := |evs| - 1;
      var t, e := evs[..n], evs[n];
      if n > 0 {
        assert evs[n - 1].at <= e.at;
      }
      GateBurnsAreTheVerifiers(g, t, e.at);
      StepAtIsMonotone(g.interval, e.at, now);
      var s := GateRun(g, t).0;
      BurnsOfStep(g, s, e);
      var c := CallMade(g, s, e);
      if c.Some? {
        VerifierRunOfSnoc(g, VerifierCalls(g, t), c.value, StepAt(g.interval, e.at));
      } else {
        assert VerifierCalls(g, evs) == VerifierCalls(g, t);
      }
    }
  }

  lemma NextCallIsAcceptedIffFresh(codeAt: Generator, calls: seq<Call>, c: Call)
    requires NonDecreasing(calls + [c])
    ensures Run(codeAt, calls + [c]).0[|calls|] <==>
            exists step ::
              && IsFirstMatch(codeAt, c, step)
              && forall i: nat :: i < |calls| ==> !AcceptedStep(codeAt, calls, i, step)
  {
    var all := calls + [c];
    assert all[..|calls|] == calls;
    AcceptedIffStepIsFresh(codeAt, all, |calls|);
    forall i: nat, step | i < |calls|
      ensures AcceptedStep(codeAt, all, i, step) == AcceptedStep(codeAt, calls, i, step)
    {
      AcceptedStepOfPrefix(codeAt, all, |calls|, i, step);
    }
  }

  /** A login succeeds if and only if the session has not been kept alive and the code is that of some
      time step of the window, the first of which no entry of any session has used before. */
  lemma LoginIffClosedAndFresh(g: Gate, evs: seq<GateEvent>, digits: Code, now: real)
    requires ValidGate(g) && g.enforce && ClockRuns(evs)
    requires forall e :: e in evs ==> e.at <= now
    ensures var calls, c := VerifierCalls(g, evs), CallOf(g, digits, now);
            DtmfStep(g, GateRun(g, evs).0, digits, now).1 == Accepted <==>
            && !KeptAlive(g, evs, now)
            && exists step ::
                 && IsFirstMatch(g.codeAt, c, step)
                 && forall i: nat :: i < |calls| ==> !AcceptedStep(g.codeAt, calls, i, step)
  {
    LiveIffKeptAlive(g, evs, now);
    var calls, c := VerifierCalls(g, evs), CallOf(g, digits, now);
    if evs != [] {
      assert evs[|evs| - 1] in evs;
    }
    GateBurnsAreTheVerifiers(g, evs, now);
    assert (calls + [c])[..|calls|] == calls;
    NextCallIsAcceptedIffFresh(g.codeAt, calls, c);
  }

  // ----- The objects -------------------------------------------------------------------------

  class SessionRecord {
    var authenticated: bool
    var lastActivity: real

    constructor ()
      ensures !authenticated && lastActivity == 0.0
    {
      authenticated, lastActivity := false, 0.0;
    }
  }

  class AuthGate {
    const verifier: TotpVerifier
    const timeout: real
    const enforce: bool

    constructor (verifier: TotpVerifier, timeout: real, enforce: bool)
      ensures this.verifier == verifier && this.timeout == timeout && this.enforce == enforce
    {
      this.verifier, this.timeout, this.enforce := verifier, timeout, enforce;
    }

    ghost function Config(): Gate {
      Gate(verifier.codeAt, verifier.interval, timeout, enforce)
    }

    ghost function State(session: SessionRecord): GateState
      reads session, verifier
    {
      GateState(session.authenticated, session.lastActivity, verifier.consumed)
    }

    method ExpireIfIdle(session: SessionRecord, now: real) returns (closed: bool)
      requires ValidGate(Config())
      modifies session
      ensures State(session) == GateStep(Config(), old(State(session)), GateEvent.ExpireIfIdle(now)).0
      ensures closed == (old(session.authenticated) && !session.authenticated)
      ensures closed <==> old(session.authenticated) && now - old(session.lastActivity) > timeout
    {
      if session.authenticated && now - session.lastActivity > timeout {
        session.authenticated := false;
        return true;
      }
      return false;
    }

    method LogOut(session: SessionRecord, ghost now: real) returns (closed: bool)
      requires ValidGate(Config())
      modifies session
      ensures State(session) == GateStep(Config(), old(State(session)), Logout(now)).0
      ensures closed == old(session.authenticated)
    {
      if !session.authenticated {
        return false;
      }
      session.authenticated := false;
      return true;
    }

    method OpenDirectly(session: SessionRecord, now: real) returns (isNew: bool)
      requires ValidGate(Config())
      modifies session
      ensures State(session) == GateStep(Config(), old(State(session)), Open(now)).0
      ensures isNew == !old(session.authenticated)
    {
      session.lastActivity := now;
      if session.authenticated {
        return false;
      }
      session.authenticated := true;
      return true;
    }

    method OnDtmf(digits: Code, session: SessionRecord, now: real) returns (outcome: Outcome)
      requires ValidGate(Config())
      modifies session, verifier
      ensures (State(session), Some(outcome)) == GateStep(Config(), old(State(session)), Dtmf(digits, now))
      ensures !enforce ==> outcome == Command && session.authenticated && verifier.consumed == old(verifier.consumed)
      ensures session.authenticated == (outcome != Rejected) && session.lastActivity == now
    {
      var _ := ExpireIfIdle(session, now);
      session.lastActivity := now;
      if !enforce {
        session.authenticated := true;
        return Command;
      }
      if !session.authenticated {
        var ok := verifier.VerifyAndBurn(digits, now);
        if ok {
          session.authenticated := true;
          return Accepted;
        }
        return Rejected;
      }
      return Command;
    }
  }
}
