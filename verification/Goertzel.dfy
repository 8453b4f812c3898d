/**
 The in-process DTMF stream: resampled audio arrives in chunks of any size, is cut into contiguous
 205-sample blocks, each block is classified, and an onset/gap machine turns the classified blocks
 into keys. Its state is proved to depend only on the samples heard so far, never on how they were
 split into chunks or on when the keys were read.
 */
module Goertzel {
  import opened Prelude
  import opened KeyRuns

  const NATIVE_BLOCK_N := 205
  const NATIVE_ONSET_BLOCKS := 1
  const NATIVE_RELEASE_BLOCKS := 1

  type Classifier = seq<real> -> Heard

  /** The classifications of every whole block in `samples`. */
  function Blocks(classify: Classifier, samples: seq<real>): (blocks: seq<Heard>) {
    if |samples| < NATIVE_BLOCK_N then []
    else [classify(samples[..NATIVE_BLOCK_N])] + Blocks(classify, samples[NATIVE_BLOCK_N..])
  }

  /** The samples past the last whole block. */
  function Leftover(samples: seq<real>): (rest: seq<real>)
    ensures |rest| < NATIVE_BLOCK_N
  {
    if |samples| < NATIVE_BLOCK_N then samples else Leftover(samples[NATIVE_BLOCK_N..])
  }

  /** The blocks and the leftover fill the stream: there are as many blocks as fit. */
  lemma {:induction false} BlocksFillTheStream(classify: Classifier, samples: seq<real>)
    ensures var n := |Blocks(classify, samples)|;
            205 * n <= |samples| < 205 * (n + 1) && Leftover(samples) == samples[205 * n..]
  {
    if |samples| >= NATIVE_BLOCK_N {
      var rest := samples[205..];
      BlocksFillTheStream(classify, rest);
      var n := |Blocks(classify, rest)|;
      assert rest[205 * n..] == samples[205 * (n + 1)..];
    }
  }

  /** Blocks are contiguous, do not overlap, and none is skipped: block `i` is samples 205i..205i+205. */
  lemma {:induction false} BlockIsItsSlice(classify: Classifier, samples: seq<real>, i: nat)
    requires i < |Blocks(classify, samples)|
    ensures 205 * (i + 1) <= |samples|
    ensures Blocks(classify, samples)[i] == classify(samples[205 * i..205 * (i + 1)])
  {
    if i > 0 {
      var rest := samples[205..];
      BlockIsItsSlice(classify, rest, i - 1);
      assert rest[205 * (i - 1)..205 * i] == samples[205 * i..205 * (i + 1)];
    }
  }

  /** The keys a whole sample stream denotes. */
  function KeysOf(classify: Classifier, samples: seq<real>): (keys: string) {
    RunHeads(Blocks(classify, samples))
  }

  /** Cutting `x + y` into blocks is cutting `x`, then cutting what `x` left over followed by `y`. */
  lemma {:induction false} BlocksDoNotSeeChunks(classify: Classifier, x: seq<real>, y: seq<real>)
    ensures Blocks(classify, x + y) == Blocks(classify, x) + Blocks(classify, Leftover(x) + y)
    ensures Leftover(x + y) == Leftover(Leftover(x) + y)
  {
    if |x| >= NATIVE_BLOCK_N {
      var rest := x[NATIVE_BLOCK_N..];
      BlocksDoNotSeeChunks(classify, rest, y);
      assert (x + y)[..NATIVE_BLOCK_N] == x[..NATIVE_BLOCK_N];
      assert (x + y)[NATIVE_BLOCK_N..] == rest + y;
    }
  }

  /** The blocks and leftover of a stream handed `chunks` one write at a time. */
  function ChunkedBlocks(classify: Classifier, chunks: seq<seq<real>>): (r: (seq<Heard>, seq<real>)) {
    if chunks == [] then ([], [])
    else
      var before := ChunkedBlocks(classify, chunks[..|chunks| - 1]);
      var buf := before.1 + chunks[|chunks| - 1];
      (before.0 + Blocks(classify, buf), Leftover(buf))
  }

  /** Classifying chunk by chunk classifies the whole stream: any two ways of splitting the same
      samples agree on every block, on the leftover, and so on the keys. */
  lemma {:induction false} ChunkingIsInvisible(classify: Classifier, chunks: seq<seq<real>>)
    ensures ChunkedBlocks(classify, chunks) == (Blocks(classify, Flatten(chunks)), Leftover(Flatten(chunks)))
  {
    if chunks != [] {
      var n := |chunks| - 1;
      ChunkingIsInvisible(classify, chunks[..n]);
      assert Flatten(chunks) == Flatten(chunks[..n]) + chunks[n];
      BlocksDoNotSeeChunks(classify, Flatten(chunks[..n]), chunks[n]);
    }
  }

  class GoertzelStream {
    const classify: Classifier
    var buf: seq<real>      // samples awaiting a full block
    var keys: string        // recognised keys not yet read
    var held: Heard         // key currently emitted and still present
    var gapRun: nat         // drop-out blocks since the held key was last seen
    var candidate: Heard    // key accumulating toward an onset
    var candidateRun: nat
    var closed: bool

    ghost var heard: seq<real>  // every sample accepted so far
    ghost var drained: string   // every key handed out by Read so far

    /** The onset/gap machine is where the classified blocks put it. */
    ghost predicate HasSeen(blocks: seq<Heard>)
      reads this
    {
      && drained + keys == RunHeads(blocks)
      && held == (if blocks == [] then None else blocks[|blocks| - 1])
    }

    ghost predicate Valid()
      reads this
    {
      && HasSeen(Blocks(classify, heard))
      && buf == Leftover(heard)
    }

    constructor (classify: Classifier)
      ensures Valid() && this.classify == classify
      ensures heard == [] && drained == [] && keys == [] && !closed
    {
      this.classify := classify;
      buf, keys, closed := [], [], false;
      held, gapRun, candidate, candidateRun := None, 0, None, 0;
      heard, drained := [], [];
    }

    /** Accept one chunk of resampled audio. The keys recognised so far are those of everything heard. */
    method Write(resampled: seq<real>)
      requires Valid()
      modifies this
      ensures Valid() && closed == old(closed)
      ensures heard == old(heard) + if closed then [] else resampled
      ensures drained == old(drained) && drained + keys == KeysOf(classify, heard)
      ensures |buf| < NATIVE_BLOCK_N
    {
      ghost var x := heard;
      BlocksDoNotSeeChunks(classify, x, resampled);
      if closed || resampled == [] {
        assert x + [] == x;
        return;
      }
      buf := buf + resampled;
      heard := x + resampled;
      var n := NATIVE_BLOCK_N;
      var consumed := 0;
      ghost var seen := Blocks(classify, x);
      assert buf[0..] == buf;
      while |buf| - consumed >= n
        invariant consumed <= |buf|
        invariant buf == Leftover(x) + resampled && heard == x + resampled
        invariant drained == old(drained) && closed == old(closed)
        invariant HasSeen(seen)
        invariant seen + Blocks(classify, buf[consumed..]) == Blocks(classify, heard)
        invariant Leftover(buf[consumed..]) == Leftover(heard)
        decreases |buf| - consumed
      {
        var block := buf[consumed..consumed + n];
        assert buf[consumed..][..n] == block && buf[consumed..][n..] == buf[consumed + n..];
        Advance(classify(block), seen);
        seen := seen + [classify(block)];
        consumed := consumed + n;
      }
      assert seen == Blocks(classify, heard);
      buf := buf[consumed..];
    }

    /** One block's classification: no key while the same key is held, a key at every onset. */
    method Advance(digit: Heard, ghost blocks: seq<Heard>)
      requires HasSeen(blocks)
      modifies `keys, `held, `gapRun, `candidate, `candidateRun
      ensures HasSeen(blocks + [digit])
    {
      RunHeadsOfSnoc(blocks, digit);
      if digit.Some? && digit == held {
        gapRun := 0;
        return;
      }
      gapRun := gapRun + 1;
      if gapRun >= NATIVE_RELEASE_BLOCKS {
        held := None;
      }
      if digit == None {
        candidate, candidateRun := None, 0;
        return;
      }
      if digit == candidate {
        candidateRun := candidateRun + 1;
      } else {
        candidate, candidateRun := digit, 1;
      }
      if candidateRun >= NATIVE_ONSET_BLOCKS && held == None {
        keys := keys + [digit.value];
        held, gapRun := digit, 0;
        candidate, candidateRun := None, 0;
      }
    }

    /** Drain the recognised keys. Reading hands them over and disturbs nothing else. */
    method Read() returns (out: string)
      requires Valid()
      modifies this
      ensures Valid() && keys == []
      ensures out == old(keys) && drained == old(drained) + out
      ensures drained == KeysOf(classify, heard)
      ensures heard == old(heard) && buf == old(buf) && closed == old(closed)
    {
      out := keys;
      keys := [];
      drained := drained + out;
    }

    method Close()
      requires Valid()
      modifies this
      ensures Valid() && closed
      ensures heard == old(heard) && drained == old(drained) && keys == old(keys)
    {
      closed := true;
    }
  }
}
