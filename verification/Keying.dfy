/**
 The key-up and key-down protocol of the AIOC backend, at the grain of single field assignments, with
 every stream, frame and serial call free to raise and the playback thread free to fail. A snapshot is
 recorded after each assignment; the safety claims are about every snapshot ever recorded.
 */
module Keying {

  /** What a background cadence could observe at one instant. */
  datatype Snapshot = Snapshot(line: bool, transmitting: bool, keying: int, keyed: bool)

  /** The cadences' pause check, which reads two flags and does no I/O. */
  predicate CadencePaused(s: Snapshot) {
    s.transmitting || s.keying > 0
  }

  /** A keyed line is always announced, so no cadence is ever told the wire is free under it. */
  ghost predicate IsSafe(s: Snapshot) {
    (s.line ==> s.transmitting && CadencePaused(s)) && s.keying >= 0
  }

  /** The key-up was reserved: every snapshot recorded since `start`, up to `end`, pauses the cadences. */
  ghost predicate PausedThroughout(trace: seq<Snapshot>, start: nat, end: nat)
    requires start <= end <= |trace|
  {
    forall i :: start <= i < end ==> CadencePaused(trace[i])
  }

  // ----- The calls a key-up makes ------------------------------------------------------------

  datatype Step =
    | ClearReceiver     // ask, and clear, the second receiver
    | ReassertChannel
    | CheckTransmit     // refuse if the radio would swallow the over
    | OpenPlayout       // open the output stream and start its writer
    | RaiseLine
    | UndoLine          // the low-write of a key-up whose line assert raised
    | QueueLeadIn
    | QueueClip
    | DropLine

  /** One call the keying thread made into a device, and whether it came back without raising. */
  datatype Call = Call(step: Step, ok: bool)

  /** The steps any of which refuses the key-up, in order. */
  const KEY_UP: seq<Step> := [ClearReceiver, ReassertChannel, CheckTransmit, OpenPlayout, RaiseLine]

  /** How many calls a key-up that succeeds makes. */
  function KeyUpLength(lead: bool): (n: nat) {
    if lead then 6 else 5
  }

  /** The calls of one whole key-up. The steps are taken in order, each only once all before it have
      succeeded; it raises exactly if one of them did, and an assert that raised is undone. */
  ghost predicate IsKeyUp(made: seq<Call>, lead: bool, raised: bool) {
    && 1 <= |made| <= 6
    && (forall i :: 0 <= i < |made| && i < 5 ==> made[i].step == KEY_UP[i])
    && (forall i :: 0 <= i < |made| - 1 && i < 4 ==> made[i].ok)
    && (!raised ==>
        && |made| == KeyUpLength(lead) && made[4].ok
        && (lead ==> made[5] == Call(QueueLeadIn, true)))
    && (raised ==>
        && |made| != 5 && (|made| < 5 ==> !made[|made| - 1].ok)
        && (|made| == 6 ==> !made[4].ok && made[5].step == UndoLine))
  }

  /** A key-up raises if and only if one of its five steps did, and never goes past the one that did. */
  lemma KeyUpRaisesIffRefused(made: seq<Call>, lead: bool, raised: bool)
    requires IsKeyUp(made, lead, raised)
    ensures raised <==> exists i :: 0 <= i < |made| && !made[i].ok && made[i].step in KEY_UP
    ensures forall i :: 0 <= i < |made| && !made[i].ok && made[i].step in KEY_UP ==>
              forall j :: i < j < |made| ==> made[j].step == UndoLine
    ensures !raised ==> forall step :: step in KEY_UP ==> Call(step, true) in made
  {
    assert forall i :: 0 <= i < 5 ==> KEY_UP[i] in KEY_UP;
    if !raised {
      assert forall i :: 0 <= i < 5 ==> made[i] == Call(KEY_UP[i], true);
    } else {
      var last := if |made| < 5 then |made| - 1 else 4;
      assert !made[last].ok && made[last].step == KEY_UP[last];
    }
  }

  /** The calls of a one-shot clip that keyed up: the key-up, the clip if the writer was still attached,
      and the drop. It raises if the drop did, or if a writer that had the clip failed; a clip with no
      writer to take it means that the writer had already failed. */
  ghost predicate IsOneShot(made: seq<Call>, lead: bool, raised: bool, writerFailed: bool) {
    var n := KeyUpLength(lead);
    && n < |made| <= n + 2
    && IsKeyUp(made[..n], lead, false)
    && made[|made| - 1].step == DropLine
    && (|made| == n + 1 ==> writerFailed && (raised <==> !made[n].ok))
    && (|made| == n + 2 ==> made[n] == Call(QueueClip, true) && (raised <==> writerFailed || !made[n + 1].ok))
  }

  /** A one-shot that does not raise handed its clip to a writer that did not fail, unless the writer had
      failed before there was a clip for it; and then nobody is told. */
  lemma QuietOneShotPlayedIffQueued(made: seq<Call>, lead: bool, writerFailed: bool)
    requires IsOneShot(made, lead, false, writerFailed)
    ensures Call(QueueClip, true) in made <==> !writerFailed
  {
    var n := KeyUpLength(lead);
    forall i | 0 <= i < n ensures made[i].step != QueueClip {
      assert made[i] == made[..n][i];
      assert i < 5 ==> made[..n][i].step == KEY_UP[i];
    }
    if |made| == n + 2 {
      assert made[n] in made;
    }
  }

  /** Such a call: the lead-in failed to play and its writer was gone before the clip was queued. */
  lemma AOneShotMayPlayNothing()
    ensures IsOneShot(
              [Call(ClearReceiver, true), Call(ReassertChannel, true), Call(CheckTransmit, true),
               Call(OpenPlayout, true), Call(RaiseLine, true), Call(QueueLeadIn, true), Call(DropLine, true)],
              true, false, true)
  {
    var made := [Call(ClearReceiver, true), Call(ReassertChannel, true), Call(CheckTransmit, true),
                 Call(OpenPlayout, true), Call(RaiseLine, true), Call(QueueLeadIn, true), Call(DropLine, true)];
    assert forall i :: 0 <= i < 6 ==> made[..6][i] == made[i];
  }

  class AiocKeyer {
    var line: bool           // the PTT line itself
    var transmitting: bool
    var keyed: bool          // the line is held across frames by ptt(true)
    var keying: int          // depth of key-ups holding the wire reserved
    var pacer: bool          // a playback writer is attached
    var playback: bool       // an output stream is attached
    var writerReady: bool    // an output stream is open and its writer started, this key-up
    var writerFailed: bool   // the error kept by the last writer started
    const leadBytes: nat

    ghost var trace: seq<Snapshot>
    ghost var calls: seq<Call>        // every call the keying thread has made into a device
    ghost var lostLows: nat           // low-writes that have raised, whichever thread made them

    ghost function Now(): Snapshot
      reads this
    {
      Snapshot(line, transmitting, keying, keyed)
    }

    /** Every instant so far, and this one, was safe. */
    ghost predicate Valid()
      reads this
    {
      IsSafe(Now()) && forall i :: 0 <= i < |trace| ==> IsSafe(trace[i])
    }

    /** Between calls: the line is high only while held, and the flag tells the truth. */
    ghost predicate Settled()
      reads this
    {
      (line ==> keyed) && transmitting == line
    }

    /** Since `before`, only snapshots at the present reservation depth have been recorded. */
    ghost predicate RecordedAt(before: seq<Snapshot>, depth: int)
      reads this
    {
      before <= trace && forall i :: |before| <= i < |trace| ==> trace[i].keying == depth
    }

    /** The line is low and nothing of the key-up is left running. */
    ghost predicate IsTornDown()
      reads this
    {
      !line && !transmitting && !pacer && !playback && !writerReady
    }

    /** The line has been high at some instant since `before`. */
    ghost predicate RaisedSince(before: seq<Snapshot>)
      reads this
    {
      exists i :: |before| <= i < |trace| && trace[i].line
    }

    constructor (leadBytes: nat)
      ensures Valid() && Settled() && this.leadBytes == leadBytes
      ensures !line && !keyed && keying == 0 && trace == [] && calls == [] && lostLows == 0
    {
      this.leadBytes := leadBytes;
      line, transmitting, keyed, keying, pacer, playback := false, false, false, 0, false, false;
      writerFailed, writerReady := false, false;
      trace, calls, lostLows := [], [], 0;
    }

    // ----- Single assignments ----------------------------------------------------------------

    /** Drive the line. A write that raises may or may not have moved the line, but never away from
        the level it was driven to. The line may only be raised once the flag is up and there is an
        output stream to play. */
    method WriteLine(high: bool) returns (ok: bool)
      requires Valid() && (high ==> transmitting && writerReady)
      modifies `line, `trace, `lostLows
      ensures Valid() && trace == old(trace) + [Now()]
      ensures line == high || (!ok && line == old(line))
      ensures lostLows == old(lostLows) + if !ok && !high then 1 else 0
    {
      ok := *;
      if !ok && !high {
        lostLows := lostLows + 1;
      }
      var moved: bool := *;
      if ok || moved {
        line := high;
      }
      trace := trace + [Now()];
    }

    method SetTransmitting(on: bool)
      requires Valid() && (on || !line)
      modifies `transmitting, `trace
      ensures Valid() && trace == old(trace) + [Now()] && transmitting == on
    {
      transmitting := on;
      trace := trace + [Now()];
    }

    method SetKeyed(on: bool)
      requires Valid()
      modifies `keyed, `trace
      ensures Valid() && trace == old(trace) + [Now()] && keyed == on
    {
      keyed := on;
      trace := trace + [Now()];
    }

    method SetKeying(depth: int)
      requires Valid() && depth >= 0
      modifies `keying, `trace
      ensures Valid() && trace == old(trace) + [Now()] && keying == depth
    {
      keying := depth;
      trace := trace + [Now()];
    }

    /** One refusal of the key-up: a control exchange and what it decides. It may raise, and its frames
        may only go out on a reserved wire. */
    method Exchange(ghost step: Step) returns (raised: bool)
      requires keying > 0
      modifies `calls
      ensures calls == old(calls) + [Call(step, !raised)]
    {
      raised := *;
      calls := calls + [Call(step, !raised)];
    }

    /** Open the output stream and start its writer: either may raise. */
    method OpenStream() returns (raised: bool)
      modifies `writerReady, `writerFailed, `calls
      ensures writerReady == !raised && writerFailed == (raised && old(writerFailed))
      ensures calls == old(calls) + [Call(OpenPlayout, !raised)]
    {
      raised := *;
      writerReady := !raised;
      if !raised {
        writerFailed := false;
      }
      calls := calls + [Call(OpenPlayout, !raised)];
    }

    /** Hand audio to the writer: it never raises. */
    method Enqueue(ghost step: Step)
      modifies `calls
      ensures calls == old(calls) + [Call(step, true)]
    {
      calls := calls + [Call(step, true)];
    }

    // ----- Key down --------------------------------------------------------------------------

    /** Drive the line low, then clear the flag. If the write raises, the flag stays up. */
    method Drop() returns (raised: bool)
      requires Valid()
      modifies `line, `transmitting, `trace, `lostLows
      ensures Valid() && RecordedAt(old(trace), keying)
      ensures lostLows == old(lostLows) + if raised then 1 else 0
      ensures !raised ==> !line && !transmitting
      ensures raised ==> transmitting == old(transmitting)
      ensures line ==> old(line)
      ensures forall i :: |old(trace)| <= i < |trace| && trace[i].line ==> old(line)
    {
      var ok := WriteLine(false);
      if !ok {
        return true;
      }
      SetTransmitting(false);
      return false;
    }

    /** Un-key: the line first, unconditionally, and only then the playback teardown. */
    method KeyOff() returns (raised: bool)
      requires Valid()
      modifies `line, `transmitting, `trace, `pacer, `playback, `lostLows
      ensures Valid() && RecordedAt(old(trace), keying)
      ensures lostLows == old(lostLows) + if raised then 1 else 0
      ensures !raised ==> !line && !transmitting && !pacer && !playback
      ensures raised ==> transmitting == old(transmitting) && pacer == old(pacer) && playback == old(playback)
      ensures line ==> old(line)
    {
      raised := Drop();
      if raised {
        return;
      }
      pacer := false;
      playback := false;
    }

    /** The playback thread may fail, once, while it has audio; it then un-keys, swallowing errors, and
        keeps its own error for whoever asks. */
    method PacerMayFail()
      requires Valid()
      modifies `line, `transmitting, `trace, `pacer, `playback, `writerFailed, `lostLows
      ensures Valid() && RecordedAt(old(trace), keying)
      ensures old(writerFailed) || !old(writerReady) ==> writerFailed == old(writerFailed)
      ensures writerFailed == old(writerFailed) ==>
                && Now() == old(Now()) && trace == old(trace) && lostLows == old(lostLows)
                && pacer == old(pacer) && playback == old(playback)
      ensures writerFailed != old(writerFailed) ==>
                && writerFailed && lostLows <= old(lostLows) + 1 && (line ==> old(line))
                && (lostLows == old(lostLows) ==> !line && !transmitting && !pacer && !playback)
                && (lostLows != old(lostLows) ==>
                    transmitting == old(transmitting) && pacer == old(pacer) && playback == old(playback))
      ensures lostLows >= old(lostLows)
    {
      var fails: bool := *;
      if fails && writerReady && !writerFailed {
        writerFailed := true;
        var _ := KeyOff();
      }
    }

    // ----- Key up ----------------------------------------------------------------------------

    method ReserveTheWire()
      requires Valid()
      modifies `keying, `trace
      ensures Valid() && keying == old(keying) + 1 && trace == old(trace) + [Now()]
    {
      SetKeying(keying + 1);
    }

    method ReleaseTheWire()
      requires Valid()
      modifies `keying, `trace
      ensures Valid() && keying == (if old(keying) > 0 then old(keying) - 1 else 0)
      ensures trace == old(trace) + [Now()]
    {
      SetKeying(if keying > 0 then keying - 1 else 0);
    }

    /** The line never went high at any instant since `before`, unless it was high then. */
    ghost predicate NeverRaisedSince(before: seq<Snapshot>, wasHigh: bool)
      reads this
    {
      (line ==> wasHigh) && forall i :: |before| <= i < |trace| && trace[i].line ==> wasHigh
    }

    /** Key up. The wire is reserved before the first frame goes out and released on every exit; in
        between, every instant pauses the cadences, and at the first of them nothing else has moved: from
        an idle backend, the cadences are paused while the line is still low. The calls made are those of
        a key-up, so it raises exactly when one of its steps was refused; a refusal before the assert
        leaves the line untouched at every instant, and any key-up that raises leaves it low. */
    method KeyOn() returns (raised: bool, ghost made: seq<Call>)
      requires Valid()
      modifies `line, `transmitting, `keying, `trace, `pacer, `playback, `writerReady, `writerFailed,
               `calls, `lostLows
      ensures Valid() && keying == old(keying)
      ensures calls == old(calls) + made && IsKeyUp(made, leadBytes > 0, raised)
      ensures |made| < 5 ==> NeverRaisedSince(old(trace), old(line))
      ensures !raised ==> RaisedSince(old(trace))
      ensures !raised && !writerFailed ==> pacer && playback
      ensures lostLows >= old(lostLows)
      ensures old(trace) < trace && PausedThroughout(trace, |old(trace)|, |trace| - 1)
      ensures trace[|old(trace)|] == old(Now()).(keying := old(keying) + 1)
      ensures raised && lostLows == old(lostLows) && !old(line) && !old(transmitting) ==> !line && !transmitting
      ensures !raised && lostLows == old(lostLows) ==> transmitting == line
    {
      ReserveTheWire();
      raised, made := KeyOnReserved();
      ghost var before := trace;
      ReleaseTheWire();
      assert forall i :: 0 <= i < |before| ==> trace[i] == before[i];
    }

    /** The three refusals, and then the key-up itself. */
    method KeyOnReserved() returns (raised: bool, ghost made: seq<Call>)
      requires Valid() && keying > 0
      modifies `line, `transmitting, `trace, `pacer, `playback, `writerReady, `writerFailed, `calls, `lostLows
      ensures Valid() && RecordedAt(old(trace), keying)
      ensures calls == old(calls) + made && IsKeyUp(made, leadBytes > 0, raised)
      ensures |made| < 5 ==> NeverRaisedSince(old(trace), old(line))
      ensures !raised ==> RaisedSince(old(trace))
      ensures !raised && !writerFailed ==> pacer && playback
      ensures lostLows >= old(lostLows)
      ensures raised && lostLows == old(lostLows) && !old(line) && !old(transmitting) ==> !line && !transmitting
      ensures !raised && lostLows == old(lostLows) ==> transmitting == line
    {
      raised := Exchange(ClearReceiver);
      made := [Call(ClearReceiver, !raised)];
      if raised {
        return;
      }
      raised := Exchange(ReassertChannel);
      made := made + [Call(ReassertChannel, !raised)];
      if raised {
        return;
      }
      raised := Exchange(CheckTransmit);
      made := made + [Call(CheckTransmit, !raised)];
      if raised {
        return;
      }
      ghost var rest;
      raised, rest := KeyOnLocked();
      made := made + rest;
    }

    /** The calls of a key-up past its refusals. */
    ghost predicate IsKeyUpTail(rest: seq<Call>, lead: bool, raised: bool) {
      && 1 <= |rest| <= 3
      && rest[0].step == OpenPlayout
      && (rest[0].ok <==> |rest| > 1)
      && (|rest| > 1 ==> rest[1].step == RaiseLine)
      && (!raised ==> |rest| == KeyUpLength(lead) - 3 && rest[1].ok && (lead ==> rest[2] == Call(QueueLeadIn, true)))
      && (raised ==> |rest| != 2 && (|rest| == 3 ==> !rest[1].ok && rest[2].step == UndoLine))
    }

    /** Open the stream, start its writer, raise the flag and then the line; undo on failure. */
    method KeyOnLocked() returns (raised: bool, ghost rest: seq<Call>)
      requires Valid()
      modifies `line, `transmitting, `trace, `pacer, `playback, `writerReady, `writerFailed, `calls, `lostLows
      ensures Valid() && RecordedAt(old(trace), keying)
      ensures calls == old(calls) + rest && IsKeyUpTail(rest, leadBytes > 0, raised)
      ensures |rest| < 2 ==> NeverRaisedSince(old(trace), old(line))
      ensures raised ==> !writerReady
      ensures !raised ==> RaisedSince(old(trace))
      ensures !raised && !writerFailed ==> pacer && playback
      ensures lostLows >= old(lostLows)
      ensures raised && lostLows == old(lostLows) && !old(line) && !old(transmitting) ==> !line && !transmitting
      ensures !raised && lostLows == old(lostLows) ==> transmitting == line
    {
      raised := OpenStream();
      rest := [Call(OpenPlayout, !raised)];
      if raised {
        return;
      }
      ghost var more;
      raised, more := AssertLine();
      rest := rest + more;
      if raised {
        return;
      }
      AttachWriter();
      if leadBytes > 0 {
        rest := rest + [Call(QueueLeadIn, true)];
      }
    }

    /** Raise the flag, then the line; a line assert that raises is undone. */
    method AssertLine() returns (raised: bool, ghost made: seq<Call>)
      requires Valid() && writerReady
      modifies `line, `transmitting, `trace, `writerReady, `calls, `lostLows
      ensures Valid() && RecordedAt(old(trace), keying)
      ensures calls == old(calls) + made
      ensures !raised ==> made == [Call(RaiseLine, true)] && line && transmitting && writerReady
      ensures !raised ==> RaisedSince(old(trace)) && lostLows == old(lostLows)
      ensures raised ==> |made| == 2 && made[0] == Call(RaiseLine, false) && made[1].step == UndoLine
      ensures lostLows >= old(lostLows)
      ensures raised && lostLows == old(lostLows) ==> !line && !transmitting
      ensures raised ==> !writerReady
    {
      SetTransmitting(true);
      var ok := WriteLine(true);
      calls := calls + [Call(RaiseLine, ok)];
      made := [Call(RaiseLine, ok)];
      if ok {
        assert trace[|trace| - 1].line;
        return false, made;
      }
      var undoRaised := Drop();
      writerReady := false;
      calls := calls + [Call(UndoLine, !undoRaised)];
      made := made + [Call(UndoLine, !undoRaised)];
      return true, made;
    }

    /** The line is up: queue the lead-in and attach the writer, which may fail from its first audio on. */
    method AttachWriter()
      requires Valid() && line && transmitting && !writerFailed
      modifies `line, `transmitting, `trace, `pacer, `playback, `writerFailed, `calls, `lostLows
      ensures Valid() && RecordedAt(old(trace), keying)
      ensures leadBytes > 0 ==> calls == old(calls) + [Call(QueueLeadIn, true)]
      ensures leadBytes == 0 ==> calls == old(calls)
      ensures !writerFailed ==> pacer && playback
      ensures lostLows >= old(lostLows)
      ensures lostLows == old(lostLows) ==> transmitting == line
    {
      if leadBytes > 0 {
        Enqueue(QueueLeadIn);
        PacerMayFail();     // before the writer is attached
      }
      playback := true;
      pacer := true;
      if leadBytes > 0 {
        PacerMayFail();     // and after
      }
    }

    // ----- The shared surface ----------------------------------------------------------------

    /** Hold or release the line. Once it is not held, and no low-write was lost, the cadences may poll. */
    method Ptt(on: bool) returns (raised: bool, ghost made: seq<Call>)
      requires Valid()
      modifies this
      ensures Valid() && keying == old(keying) && old(trace) <= trace && calls == old(calls) + made
      ensures on && old(keyed) ==> !raised && made == [] && Now() == old(Now())
      ensures on && !old(keyed) ==>
                && IsKeyUp(made, leadBytes > 0, raised)
                && keyed == !raised
                && (!raised ==> RaisedSince(old(trace)))
                && (|made| < 5 ==> NeverRaisedSince(old(trace), old(line)))
      ensures !on ==> made == [Call(DropLine, !raised)] && !keyed
      ensures !raised && !on ==> IsTornDown()
      ensures on && raised && lostLows == old(lostLows) && old(Settled()) ==> !line
      ensures !keyed && keying == 0 && lostLows == old(lostLows) && old(Settled()) ==> !CadencePaused(Now())
      ensures lostLows == old(lostLows) && old(Settled()) ==> Settled()
    {
      made := [];
      if on {
        raised := false;
        if !keyed {
          raised, made := KeyOn();
          if raised {
            return;
          }
          ghost var before := trace;
          SetKeyed(true);
          assert forall i :: 0 <= i < |before| ==> trace[i] == before[i];
        }
      } else {
        SetKeyed(false);
        raised := KeyOff();
        if !raised {
          writerReady := false;
        }
        calls := calls + [Call(DropLine, !raised)];
        made := [Call(DropLine, !raised)];
      }
    }

    /** Play one clip. While the line is held the clip is queued and the call returns at once. A one-shot
        clip keys for its own duration: it raises exactly when its key-up was refused, the writer that had
        the clip failed, or the drop raised, and it always ends with the line low. */
    method Transmit(canonical: bool) returns (raised: bool, ghost made: seq<Call>)
      requires Valid()
      modifies this
      ensures Valid() && keying == old(keying) && keyed == old(keyed) && old(trace) <= trace
      ensures calls == old(calls) + made
      ensures !canonical ==> raised && made == [] && Now() == old(Now())
      ensures canonical && old(keyed) ==>
                !raised && |made| == (if old(pacer) then 1 else 0) && (old(pacer) ==> made[0] == Call(QueueClip, true))
      ensures canonical && !old(keyed) ==>
                || (raised && IsKeyUp(made, leadBytes > 0, true))
                || (&& IsOneShot(made, leadBytes > 0, raised, writerFailed) && RaisedSince(old(trace))
                    && (made[|made| - 1].ok ==> IsTornDown()))
      ensures canonical && !old(keyed) && |made| < 5 ==> NeverRaisedSince(old(trace), old(line))
      ensures canonical && !old(keyed) && lostLows == old(lostLows) && old(Settled()) ==> !line && !transmitting
      ensures !keyed && keying == 0 && lostLows == old(lostLows) && old(Settled()) ==> !CadencePaused(Now())
      ensures lostLows == old(lostLows) && old(Settled()) ==> Settled()
    {
      made := [];
      if !canonical {
        return true, made;
      }
      if keyed {
        if pacer {
          Enqueue(QueueClip);
          made := [Call(QueueClip, true)];
          PacerMayFail();
        }
        return false, made;
      }
      raised, made := KeyOn();
      if raised {
        return;
      }
      ghost var up := made;
      ghost var before := trace;
      ghost var rest;
      raised, rest := PlayAndDrop();
      made := made + rest;
      assert made[..|up|] == up;
      assert forall i :: 0 <= i < |before| ==> trace[i] == before[i];
    }

    /** The line is up for one clip: play it if there is a writer, and drop the line whatever happened. */
    method PlayAndDrop() returns (raised: bool, ghost made: seq<Call>)
      requires Valid() && (!pacer ==> writerFailed)
      modifies `line, `transmitting, `trace, `pacer, `playback, `writerReady, `writerFailed, `calls, `lostLows
      ensures Valid() && RecordedAt(old(trace), keying)
      ensures calls == old(calls) + made && 1 <= |made| <= 2
      ensures made[|made| - 1].step == DropLine
      ensures |made| == 1 ==> writerFailed && (raised <==> !made[0].ok)
      ensures |made| == 2 ==> made[0] == Call(QueueClip, true) && (raised <==> writerFailed || !made[1].ok)
      ensures made[|made| - 1].ok ==> IsTornDown()
      ensures lostLows >= old(lostLows)
      ensures lostLows == old(lostLows) ==> !line && !transmitting
    {
      raised, made := false, [];
      if pacer {
        Enqueue(QueueClip);
        made := [Call(QueueClip, true)];
        PacerMayFail();
        raised := writerFailed;
      }
      var dropRaised := KeyOff();
      if !dropRaised {
        writerReady := false;
      }
      calls := calls + [Call(DropLine, !dropRaised)];
      made := made + [Call(DropLine, !dropRaised)];
      raised := raised || dropRaised;
    }
  }
}
