/**
 Run heads: the one de-duplication rule both DTMF decoders implement.

 A decoder looks at audio in pieces and names the key it hears in each piece, or nothing. A key that
 stays down is heard in many pieces, so a press is a piece that names a key its predecessor did not.
 */
module KeyRuns {
  import opened Prelude

  /** What one piece of audio was classified as: a key, or silence. */
  type Heard = Option<char>

  /** Piece `i` starts a press: it names a key, and the piece before it does not name the same one. */
  predicate IsHead(s: seq<Heard>, i: nat)
    requires i < |s|
  {
    s[i].Some? && (i == 0 || s[i - 1] != s[i])
  }

  /** The keys pressed over the first `n` pieces. */
  function HeadsUpTo(s: seq<Heard>, n: nat): (keys: string)
    requires n <= |s|
  {
    if n == 0 then [] else HeadsUpTo(s, n - 1) + if IsHead(s, n - 1) then [s[n - 1].value] else []
  }

  /** The keys pressed over a whole classified stream. */
  function RunHeads(s: seq<Heard>): (keys: string) {
    HeadsUpTo(s, |s|)
  }

  /** Where the presses of the first `n` pieces start. */
  function HeadPositions(s: seq<Heard>, n: nat): (at: seq<nat>)
    requires n <= |s|
  {
    if n == 0 then [] else HeadPositions(s, n - 1) + if IsHead(s, n - 1) then [n - 1] else []
  }

  /** Key `k` of the first `n` pieces is the key named by the piece at position `k`. */
  lemma {:induction false} KeysStandAtTheirPositions(s: seq<Heard>, n: nat)
    requires n <= |s|
    ensures var at, keys := HeadPositions(s, n), HeadsUpTo(s, n);
            |keys| == |at| && forall k :: 0 <= k < |at| ==> at[k] < n && s[at[k]] == Some(keys[k])
  {
    if n > 0 {
      KeysStandAtTheirPositions(s, n - 1);
    }
  }

  /** The pressed keys are exactly the head pieces, each once, in order. */
  lemma {:induction false} KeysAreExactlyTheHeads(s: seq<Heard>, n: nat)
    requires n <= |s|
    ensures var at, keys := HeadPositions(s, n), HeadsUpTo(s, n);
            && |keys| == |at|
            && (forall k :: 0 <= k < |at| ==> at[k] < n && s[at[k]] == Some(keys[k]))
            && (forall k, l :: 0 <= k < l < |at| ==> at[k] < at[l])
            && (forall i: nat :: i < n ==> (IsHead(s, i) <==> i in at))
  {
    KeysStandAtTheirPositions(s, n);
    PositionsAreTheHeads(s, n);
  }

  lemma {:induction false} PositionsAreTheHeads(s: seq<Heard>, n: nat)
    requires n <= |s|
    ensures var at := HeadPositions(s, n);
            && (forall k :: 0 <= k < |at| ==> at[k] < n)
            && (forall k, l :: 0 <= k < l < |at| ==> at[k] < at[l])
            && (forall i: nat :: i < n ==> (IsHead(s, i) <==> i in at))
  {
    if n > 0 {
      PositionsAreTheHeads(s, n - 1);
      var before, at := HeadPositions(s, n - 1), HeadPositions(s, n);
      assert n - 1 !in before;
      assert forall i :: i in at <==> i in before || (i == n - 1 && IsHead(s, n - 1));
    }
  }

  lemma {:induction false} HeadsOfPrefix(s: seq<Heard>, t: seq<Heard>, n: nat)
    requires n <= |s| && s <= t
    ensures HeadsUpTo(s, n) == HeadsUpTo(t, n)
  {
    if n > 0 {
      HeadsOfPrefix(s, t, n - 1);
    }
  }

  /** What one more piece adds. */
  lemma RunHeadsOfSnoc(s: seq<Heard>, x: Heard)
    ensures RunHeads(s + [x]) ==
            RunHeads(s) + if x.Some? && (s == [] || s[|s| - 1] != x) then [x.value] else []
  {
    HeadsOfPrefix(s, s + [x], |s|);
  }

  /** Is the first piece of `b`, played straight after `a`, still the key `a` ended on? */
  predicate Continues(a: seq<Heard>, b: seq<Heard>)
  {
    a != [] && b != [] && b[0].Some? && a[|a| - 1] == b[0]
  }

  /** Playing two streams back to back merges at most the press they share at the join. */
  lemma {:induction false} RunHeadsOfConcat(a: seq<Heard>, b: seq<Heard>)
    ensures Continues(a, b) ==> |RunHeads(b)| > 0
    ensures RunHeads(a + b) == RunHeads(a) + if Continues(a, b) then RunHeads(b)[1..] else RunHeads(b)
  {
    HeadsOfConcat(a, b, |b|);
  }

  lemma {:induction false} HeadsOfConcat(a: seq<Heard>, b: seq<Heard>, n: nat)
    requires n <= |b|
    ensures Continues(a, b) && n > 0 ==> |HeadsUpTo(b, n)| > 0
    ensures HeadsUpTo(a + b, |a| + n) ==
            RunHeads(a) + if Continues(a, b) && n > 0 then HeadsUpTo(b, n)[1..] else HeadsUpTo(b, n)
  {
    if n == 0 {
      HeadsOfPrefix(a, a + b, |a|);
    } else {
      HeadsOfConcat(a, b, n - 1);
      assert IsHead(a + b, |a| + n - 1) == (IsHead(b, n - 1) && !(n == 1 && Continues(a, b)));
    }
  }

  /** A press that follows any gap registers again, even for the same key. */
  lemma RepeatAfterGapRegisters(a: seq<Heard>, b: seq<Heard>)
    ensures RunHeads(a + [None] + b) == RunHeads(a) + RunHeads(b)
  {
    RunHeadsOfConcat(a + [None], b);
    RunHeadsOfSnoc(a, None);
  }

  /** Holding a key longer changes nothing: doubling any piece leaves the pressed keys alone. */
  lemma HoldingLongerChangesNothing(s: seq<Heard>, i: nat)
    requires i < |s|
    ensures RunHeads(s[..i + 1] + s[i..]) == RunHeads(s)
  {
    var a, x, b := s[..i], s[i], s[i..];
    calc {
      RunHeads(s[..i + 1] + b);
      { assert s[..i + 1] == a + [x]; }
      RunHeads(a + [x] + b);
      { HoldingTheJoinedPiece(a, x, b); }
      RunHeads(a + b);
      { assert a + b == s; }
      RunHeads(s);
    }
  }

  lemma HoldingTheJoinedPiece(a: seq<Heard>, x: Heard, b: seq<Heard>)
    requires b != [] && b[0] == x
    ensures RunHeads(a + [x] + b) == RunHeads(a + b)
  {
    RunHeadsOfConcat(a, b);
    RunHeadsOfConcat(a + [x], b);
    RunHeadsOfSnoc(a, x);
    if x.Some? {
      FirstHead(b, |b|);
    }
  }

  /** A stream that opens on a key presses that key first. */
  lemma {:induction false} FirstHead(s: seq<Heard>, n: nat)
    requires 0 < n <= |s| && s[0].Some?
    ensures |HeadsUpTo(s, n)| > 0 && HeadsUpTo(s, n)[0] == s[0].value
  {
    if n > 1 {
      FirstHead(s, n - 1);
    }
  }
}
