/**
 The two front ends that turn audio into framed entries: the streaming input (continuous decoder, no
 de-dup) and the buffered input (fixed windows, held-key de-dup). Both are proved end to end.
 */
module DtmfInput {
  import opened Prelude
  import opened KeyRuns
  import opened Framing
  import opened Goertzel

  /** The keys of one decoder answer, all stamped with the time of the call that delivered them. */
  function Stamped(keys: string, now: real): (h: seq<TimedKey>) {
    seq(|keys|, i requires 0 <= i < |keys| => TimedKey(keys[i], now))
  }

  /** Since `before`, keys have been fed at time `now` only. */
  ghost predicate StampedSince(before: seq<TimedKey>, log: seq<TimedKey>, now: real) {
    before <= log && forall i :: |before| <= i < |log| ==> IsStamped(log, i, now)
  }

  predicate IsStamped(log: seq<TimedKey>, i: nat, now: real)
    requires i < |log|
  {
    log[i].at == now
  }

  lemma StampedOneMore(before: seq<TimedKey>, log: seq<TimedKey>, key: char, now: real)
    requires StampedSince(before, log, now)
    ensures StampedSince(before, log + [TimedKey(key, now)], now)
  {
    var more := log + [TimedKey(key, now)];
    forall i: nat | |before| <= i < |more| ensures IsStamped(more, i, now) {
      assert i < |log| ==> IsStamped(log, i, now);
    }
  }

  lemma KeysOfConcat(a: seq<TimedKey>, b: seq<TimedKey>)
    ensures Keys(a + b) == Keys(a) + Keys(b)
  {
  }

  /** The framer holds exactly the run that `log` leaves pending. */
  ghost predicate Holds(framer: DtmfFramer, log: seq<TimedKey>)
    reads framer
  {
    && framer.buffer == Pending(framer.timeout, log)
    && framer.lastAt == if log == [] then None else Some(log[|log| - 1].at)
  }

  /** Feed one key to a framer that has handled `log`, collecting the entry it completes. */
  method FeedKey(framer: DtmfFramer, key: char, now: real, ghost log: seq<TimedKey>, sofar: seq<string>,
                 ghost earlier: seq<string>)
      returns (entries: seq<string>)
    requires Holds(framer, log)
    requires earlier + sofar == Entries(framer.timeout, log)
    modifies framer
    ensures Holds(framer, log + [TimedKey(key, now)])
    ensures earlier + entries == Entries(framer.timeout, log + [TimedKey(key, now)])
  {
    ghost var k := TimedKey(key, now);
    PressMeansEntryAt(framer.timeout, log, framer.State(), k);
    EntriesOfSnoc(framer.timeout, log, k);
    var entry := framer.Feed(key, now);
    entries := if entry.Some? then sofar + [entry.value] else sofar;
  }

  class StreamingDtmfInput {
    const stream: GoertzelStream
    const framer: DtmfFramer

    ghost var log: seq<TimedKey>      // every key fed to the framer, with its stamp
    ghost var returned: seq<string>   // every entry returned so far

    ghost predicate Valid()
      reads this, stream, framer
    {
      && stream.Valid()
      && Keys(log) == stream.drained
      && Holds(framer, log)
      && returned == Entries(framer.timeout, log)
    }

    constructor (stream: GoertzelStream, framer: DtmfFramer)
      requires stream.Valid() && stream.drained == [] && framer.State() == FRESH
      ensures Valid() && this.stream == stream && this.framer == framer
      ensures log == [] && returned == []
    {
      this.stream := stream;
      this.framer := framer;
      log, returned := [], [];
    }

    /** Feed one frame's resampled audio; return the entries its keys complete. What has been returned
        so far is always what the timed keys denote, the keys are those of the whole sample stream,
        and while no key gap reaches the timeout the entries depend on the samples alone. */
    method Pump(resampled: seq<real>, now: real) returns (entries: seq<string>)
      requires Valid()
      modifies this, stream, framer
      ensures Valid() && stream.closed == old(stream.closed)
      ensures stream.heard == old(stream.heard) + if stream.closed then [] else resampled
      ensures returned == old(returned) + entries
      ensures Keys(log) == KeysOf(stream.classify, stream.heard)
      ensures exists keys: string :: log == old(log) + Stamped(keys, now)
      ensures NeverStalls(framer.timeout, log) ==>
                returned == UntimedEntries(KeysOf(stream.classify, stream.heard))
    {
      stream.Write(resampled);
      var keys := stream.Read();
      entries := Deliver(keys, now);
    }

    /** Report keys decoded but not yet read, with no new audio. */
    method Flush(now: real) returns (entries: seq<string>)
      requires Valid()
      modifies this, stream, framer
      ensures Valid() && stream.heard == old(stream.heard)
      ensures returned == old(returned) + entries
      ensures Keys(log) == KeysOf(stream.classify, stream.heard)
      ensures NeverStalls(framer.timeout, log) ==>
                returned == UntimedEntries(KeysOf(stream.classify, stream.heard))
    {
      var keys := stream.Read();
      entries := Deliver(keys, now);
    }

    method Deliver(keys: string, now: real) returns (entries: seq<string>)
      requires stream.Valid() && Keys(log) + keys == stream.drained
      requires Holds(framer, log) && returned == Entries(framer.timeout, log)
      modifies this, framer
      ensures Valid() && log == old(log) + Stamped(keys, now)
      ensures returned == old(returned) + entries
      ensures NeverStalls(framer.timeout, log) ==> returned == UntimedEntries(stream.drained)
    {
      entries := [];
      ghost var h := log;
      var i := 0;
      assert h + Stamped(keys, now)[..0] == h && returned + [] == returned;
      while i < |keys|
        invariant i <= |keys|
        invariant log == h + Stamped(keys, now)[..i]
        invariant returned == old(returned)
        invariant Holds(framer, log)
        invariant returned + entries == Entries(framer.timeout, log)
      {
        entries := FeedKey(framer, keys[i], now, log, entries, returned);
        log := log + [TimedKey(keys[i], now)];
        assert Stamped(keys, now)[..i + 1] == Stamped(keys, now)[..i] + [TimedKey(keys[i], now)];
        i := i + 1;
      }
      assert Stamped(keys, now)[..|keys|] == Stamped(keys, now);
      KeysOfConcat(h, Stamped(keys, now));
      assert Keys(Stamped(keys, now)) == keys;
      returned := returned + entries;
      if NeverStalls(framer.timeout, log) {
        TimingIsInvisibleWhileNothingStalls(framer.timeout, log);
      }
    }
  }

  // ----- Buffered input ----------------------------------------------------------------------

  newtype Byte = b: int | 0 <= b < 256
  type Pcm = seq<Byte>
  type Decoder = Pcm -> string

  /** One decoded window as heard pieces: a window with no tone is a single silent piece. */
  function WindowPieces(digits: string): (s: seq<Heard>) {
    if digits == [] then [None] else Tones(digits)
  }

  function Tones(digits: string): (s: seq<Heard>) {
    seq(|digits|, i requires 0 <= i < |digits| => Some(digits[i]))
  }

  function Pieces(decode: Decoder, windows: seq<Pcm>): (s: seq<Heard>) {
    PiecesUpTo(decode, windows, |windows|)
  }

  function PiecesUpTo(decode: Decoder, windows: seq<Pcm>, n: nat): (s: seq<Heard>)
    requires n <= |windows|
  {
    if n == 0 then [] else PiecesUpTo(decode, windows, n - 1) + WindowPieces(decode(windows[n - 1]))
  }

  function RawKeys(decode: Decoder, windows: seq<Pcm>): (keys: string) {
    RawKeysUpTo(decode, windows, |windows|)
  }

  function RawKeysUpTo(decode: Decoder, windows: seq<Pcm>, n: nat): (keys: string)
    requires n <= |windows|
  {
    if n == 0 then [] else RawKeysUpTo(decode, windows, n - 1) + decode(windows[n - 1])
  }

  function LastPiece(s: seq<Heard>): (last: Heard) {
    if s == [] then None else s[|s| - 1]
  }

  /** The keys a sequence of decoded windows denotes, past the de-dup. */
  function DedupKeys(decode: Decoder, windows: seq<Pcm>): (keys: string) {
    RunHeads(Pieces(decode, windows))
  }

  /** `keys` are what the windows denote, with or without the de-dup. */
  ghost predicate AreKeysOf(keys: string, decode: Decoder, dedup: bool, windows: seq<Pcm>) {
    && (dedup ==> keys == DedupKeys(decode, windows))
    && (!dedup ==> keys == RawKeys(decode, windows))
  }

  lemma {:induction false} PiecesOfPrefix(decode: Decoder, a: seq<Pcm>, b: seq<Pcm>, n: nat)
    requires n <= |a| && a <= b
    ensures PiecesUpTo(decode, a, n) == PiecesUpTo(decode, b, n)
    ensures RawKeysUpTo(decode, a, n) == RawKeysUpTo(decode, b, n)
  {
    if n > 0 {
      PiecesOfPrefix(decode, a, b, n - 1);
    }
  }

  lemma PiecesOfSnoc(decode: Decoder, windows: seq<Pcm>, w: Pcm)
    ensures Pieces(decode, windows + [w]) == Pieces(decode, windows) + WindowPieces(decode(w))
  {
    PiecesOfPrefix(decode, windows, windows + [w], |windows|);
  }

  lemma RawKeysOfSnoc(decode: Decoder, windows: seq<Pcm>, w: Pcm)
    ensures RawKeys(decode, windows + [w]) == RawKeys(decode, windows) + decode(w)
  {
    PiecesOfPrefix(decode, windows, windows + [w], |windows|);
  }

  lemma {:induction false} PiecesOfConcat(decode: Decoder, a: seq<Pcm>, b: seq<Pcm>, n: nat)
    requires n <= |b|
    ensures PiecesUpTo(decode, a + b, |a| + n) == Pieces(decode, a) + PiecesUpTo(decode, b, n)
  {
    if n == 0 {
      PiecesOfPrefix(decode, a, a + b, |a|);
    } else {
      PiecesOfConcat(decode, a, b, n - 1);
      assert (a + b)[|a| + n - 1] == b[n - 1];
      ConcatIsAssociative(Pieces(decode, a), PiecesUpTo(decode, b, n - 1), WindowPieces(decode(b[n - 1])));
    }
  }

  /** A silent window separates the de-dup completely: keys before and after it never merge. */
  lemma SilentWindowSeparates(decode: Decoder, a: seq<Pcm>, silent: Pcm, b: seq<Pcm>)
    requires decode(silent) == []
    ensures DedupKeys(decode, a + [silent] + b) == DedupKeys(decode, a) + DedupKeys(decode, b)
  {
    PiecesOfConcat(decode, a + [silent], b, |b|);
    PiecesOfSnoc(decode, a, silent);
    RepeatAfterGapRegisters(Pieces(decode, a), Pieces(decode, b));
  }

  /** Keep each key that differs from the one before it. */
  function CollapseRepeats(keys: string, n: nat): (r: string)
    requires n <= |keys|
  {
    if n == 0 then []
    else CollapseRepeats(keys, n - 1) + if n > 1 && keys[n - 1] == keys[n - 2] then [] else [keys[n - 1]]
  }

  /** Between silent windows, the de-dup is adjacent-duplicate collapse across window boundaries. */
  lemma DedupCollapsesRepeats(decode: Decoder, windows: seq<Pcm>)
    requires forall w :: w in windows ==> decode(w) != []
    ensures var keys := RawKeys(decode, windows);
            DedupKeys(decode, windows) == CollapseRepeats(keys, |keys|)
  {
    AllTonePieces(decode, windows, |windows|);
    CollapseIsRunHeads(RawKeys(decode, windows), |RawKeys(decode, windows)|);
  }

  lemma {:induction false} AllTonePieces(decode: Decoder, windows: seq<Pcm>, n: nat)
    requires n <= |windows| && forall w :: w in windows ==> decode(w) != []
    ensures PiecesUpTo(decode, windows, n) == Tones(RawKeysUpTo(decode, windows, n))
  {
    if n > 0 {
      AllTonePieces(decode, windows, n - 1);
      assert windows[n - 1] in windows;
      TonesOfConcat(RawKeysUpTo(decode, windows, n - 1), decode(windows[n - 1]));
    }
  }

  lemma TonesOfConcat(a: string, b: string)
    ensures Tones(a + b) == Tones(a) + Tones(b)
  {
  }

  lemma {:induction false} CollapseIsRunHeads(keys: string, n: nat)
    requires n <= |keys|
    ensures HeadsUpTo(Tones(keys), n) == CollapseRepeats(keys, n)
  {
    if n > 0 {
      CollapseIsRunHeads(keys, n - 1);
    }
  }

  /** The tones of `digits` are the pieces of `all` from `n` to the end. */
  ghost predicate ToneSlots(all: seq<Heard>, n: nat, digits: string) {
    |all| == n + |digits| && forall k: nat :: k < |digits| ==> IsTone(all, n, digits, k)
  }

  predicate IsTone(all: seq<Heard>, n: nat, digits: string, k: nat)
    requires |all| == n + |digits| && k < |digits|
  {
    all[n + k] == Some(digits[k])
  }

  /** Where the tones of a window stand in the stream of pieces. */
  lemma TonesFollow(before: seq<Heard>, digits: string)
    ensures var all := before + Tones(digits);
            && ToneSlots(all, |before|, digits)
            && (before != [] ==> all[|before| - 1] == before[|before| - 1])
            && HeadsUpTo(all, |before|) == RunHeads(before)
  {
    var all := before + Tones(digits);
    HeadsOfPrefix(before, all, |before|);
    forall k: nat | k < |digits| ensures IsTone(all, |before|, digits, k) {
      assert all[|before| + k] == Tones(digits)[k];
    }
  }

  lemma OneMoreKey(raw: string, digits: string, i: nat)
    requires i < |digits|
    ensures raw + digits[..i] + [digits[i]] == raw + digits[..i + 1]
  {
  }

  /** What one more window adds: nothing if it is silent, else its keys past the de-dup. */
  lemma DedupKeysOfSnoc(decode: Decoder, windows: seq<Pcm>, w: Pcm)
    ensures var before, after, digits := Pieces(decode, windows), Pieces(decode, windows + [w]), decode(w);
            && (digits == [] ==>
                DedupKeys(decode, windows + [w]) == DedupKeys(decode, windows) && LastPiece(after) == None)
            && (digits != [] ==> after == before + Tones(digits))
  {
    PiecesOfSnoc(decode, windows, w);
    RunHeadsOfSnoc(Pieces(decode, windows), None);
  }

  /** A window whose tones have all been fed leaves the keys and the held key the windows denote. */
  lemma WindowFed(decode: Decoder, dedup: bool, earlier: seq<Pcm>, w: Pcm, keys: string, last: Heard)
    requires dedup ==> decode(w) != []
    requires dedup ==> keys == RunHeads(Pieces(decode, earlier) + Tones(decode(w)))
    requires dedup ==> last == LastPiece(Pieces(decode, earlier) + Tones(decode(w)))
    requires !dedup ==> keys == RawKeys(decode, earlier) + decode(w)
    ensures AreKeysOf(keys, decode, dedup, earlier + [w])
    ensures dedup ==> last == LastPiece(Pieces(decode, earlier + [w]))
  {
    if dedup {
      DedupKeysOfSnoc(decode, earlier, w);
    } else {
      RawKeysOfSnoc(decode, earlier, w);
    }
  }

  class BufferedDtmfInput {
    const decode: Decoder
    const framer: DtmfFramer
    const windowBytes: int
    const dedup: bool
    var buf: Pcm
    var lastDigit: Heard   // the key still being held, for the de-dup

    ghost var pumped: Pcm             // every byte handed to Pump
    ghost var windows: seq<Pcm>       // every window decoded, in order
    ghost var log: seq<TimedKey>      // every key fed to the framer
    ghost var returned: seq<string>   // every entry returned

    /** No audio is lost, the keys fed are the ones the windows denote, and the entries returned are
        the ones those timed keys denote. */
    ghost predicate Valid()
      reads this, framer
    {
      && Flatten(windows) + buf == pumped
      && AreKeysOf(Keys(log), decode, dedup, windows)
      && (dedup ==> lastDigit == LastPiece(Pieces(decode, windows)))
      && Holds(framer, log)
      && returned == Entries(framer.timeout, log)
    }

    constructor (decode: Decoder, framer: DtmfFramer, windowBytes: int, dedup: bool)
      requires framer.State() == FRESH
      ensures Valid() && this.framer == framer && this.decode == decode
      ensures this.windowBytes == windowBytes && this.dedup == dedup
      ensures pumped == [] && windows == [] && log == [] && returned == [] && buf == []
    {
      this.decode, this.framer, this.windowBytes, this.dedup := decode, framer, windowBytes, dedup;
      buf, lastDigit := [], None;
      pumped, windows, log, returned := [], [], [], [];
    }

    method Pump(samples: Pcm, now: real) returns (entries: seq<string>)
      requires Valid()
      modifies this, framer
      ensures Valid()
      ensures pumped == old(pumped) + samples
      ensures buf == [] || |buf| < windowBytes
      ensures if |old(buf) + samples| >= windowBytes && old(buf) + samples != []
              then windows == old(windows) + [old(buf) + samples]
              else windows == old(windows) && entries == []
      ensures returned == old(returned) + entries && StampedSince(old(log), log, now)
    {
      buf := buf + samples;
      pumped := pumped + samples;
      assert Valid() by {
        assert Flatten(windows) + (old(buf) + samples) == Flatten(windows) + old(buf) + samples;
      }
      if |buf| >= windowBytes {
        entries := DecodeWindow(now);
      } else {
        entries := [];
      }
    }

    method Flush(now: real) returns (entries: seq<string>)
      requires Valid()
      modifies this, framer
      ensures Valid()
      ensures pumped == old(pumped) && buf == [] && Flatten(windows) == pumped
      ensures returned == old(returned) + entries && StampedSince(old(log), log, now)
    {
      entries := DecodeWindow(now);
    }

    method DecodeWindow(now: real) returns (entries: seq<string>)
      requires Valid()
      modifies this, framer
      ensures Valid()
      ensures pumped == old(pumped) && buf == []
      ensures windows == if old(buf) == [] then old(windows) else old(windows) + [old(buf)]
      ensures old(buf) == [] ==> entries == []
      ensures returned == old(returned) + entries && StampedSince(old(log), log, now)
    {
      if buf == [] {
        return [];
      }
      ghost var earlier := windows;
      var chunk := TakeWindow();
      entries := FeedChunk(chunk, now, earlier);
      returned := returned + entries;
    }

    /** Move the whole buffer into a window of its own. */
    method TakeWindow() returns (chunk: Pcm)
      requires Flatten(windows) + buf == pumped
      modifies `buf, `windows
      ensures buf == [] && windows == old(windows) + [chunk] && chunk == old(buf)
      ensures Flatten(windows) + buf == pumped
    {
      chunk := buf;
      FlattenWithRest(windows, chunk);
      buf := [];
      windows := windows + [chunk];
    }

    /** Decode one window and feed its keys; a silent window only ends the key being held. */
    method FeedChunk(chunk: Pcm, now: real, ghost earlier: seq<Pcm>) returns (entries: seq<string>)
      requires AreKeysOf(Keys(log), decode, dedup, earlier)
      requires dedup ==> lastDigit == LastPiece(Pieces(decode, earlier))
      requires Holds(framer, log) && returned == Entries(framer.timeout, log)
      modifies `log, `lastDigit, framer
      ensures AreKeysOf(Keys(log), decode, dedup, earlier + [chunk])
      ensures dedup ==> lastDigit == LastPiece(Pieces(decode, earlier + [chunk]))
      ensures Holds(framer, log) && returned + entries == Entries(framer.timeout, log)
      ensures StampedSince(old(log), log, now)
    {
      var digits := decode(chunk);
      if dedup && digits == [] {
        DedupKeysOfSnoc(decode, earlier, chunk);
        lastDigit := None;
        return [];
      }
      ghost var before := Pieces(decode, earlier);
      ghost var all := before + Tones(digits);
      TonesFollow(before, digits);
      entries := FeedWindow(digits, now, all, |before|, RawKeys(decode, earlier));
      WindowFed(decode, dedup, earlier, chunk, Keys(log), lastDigit);
    }

    /** What the framer has been fed and what the de-dup remembers, `n` pieces into the stream `all`. */
    ghost predicate Fed(all: seq<Heard>, n: nat, raw: string)
      requires n <= |all|
      reads this, framer
    {
      && (dedup ==> Keys(log) == HeadsUpTo(all, n))
      && (!dedup ==> Keys(log) == raw)
      && (dedup ==> lastDigit == if n == 0 then None else all[n - 1])
      && Holds(framer, log)
    }

    /** Feed one window's keys past the de-dup: `all[n..]` are their pieces. */
    method FeedWindow(digits: string, now: real, ghost all: seq<Heard>, ghost n: nat, ghost raw: string)
      returns (entries: seq<string>)
      requires ToneSlots(all, n, digits) && Fed(all, n, raw)
      requires returned == Entries(framer.timeout, log)
      modifies `log, `lastDigit, framer
      ensures Fed(all, |all|, raw + digits)
      ensures returned + entries == Entries(framer.timeout, log)
      ensures StampedSince(old(log), log, now)
    {
      entries := [];
      ghost var done, start := raw, log;
      var i := 0;
      assert raw + digits[..0] == raw;
      while i < |digits|
        invariant i <= |digits| && done == raw + digits[..i]
        invariant Fed(all, n + i, done)
        invariant StampedSince(start, log, now)
        invariant returned + entries == Entries(framer.timeout, log)
      {
        assert IsTone(all, n, digits, i);
        entries := FeedDigit(digits[i], now, all, n + i, done, start, entries);
        OneMoreKey(raw, digits, i);
        done := done + [digits[i]];
        i := i + 1;
      }
      assert digits[..|digits|] == digits;
    }

    method FeedDigit(digit: char, now: real, ghost all: seq<Heard>, ghost n: nat, ghost raw: string,
                     ghost start: seq<TimedKey>, sofar: seq<string>) returns (entries: seq<string>)
      requires StampedSince(start, log, now)
      requires n < |all| && all[n] == Some(digit) && Fed(all, n, raw)
      requires returned + sofar == Entries(framer.timeout, log)
      modifies `log, `lastDigit, framer
      ensures Fed(all, n + 1, raw + [digit])
      ensures returned + entries == Entries(framer.timeout, log)
      ensures StampedSince(start, log, now)
    {
      if dedup {
        if Some(digit) == lastDigit {
          return sofar;  // a repeat within one press
        }
        lastDigit := Some(digit);
      }
      ghost var fed := log;
      entries := FeedKey(framer, digit, now, log, sofar, returned);
      StampedOneMore(start, log, digit, now);
      log := log + [TimedKey(digit, now)];
      KeysOfConcat(fed, [TimedKey(digit, now)]);
    }
  }
}
