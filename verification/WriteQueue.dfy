/**
 The bounded hand-off from the event loop to the decoder's writer thread. A write that meets a full
 queue evicts the oldest chunk and tries again; the writer thread may take a chunk between any two of
 those steps. Over every interleaving the queue holds a contiguous run of the newest writes, and a chunk
 leaves it untaken only by being evicted as the oldest.
 */
module WriteQueue {
  import opened Prelude

  /** Where the event-loop side of a write stands. Chunks are named by their write number. */
  datatype Phase = Idle | MustEvict(chunk: nat) | MustRetry(chunk: nat)

  datatype State = State(
    queue: seq<nat>, phase: Phase, begun: nat,
    taken: seq<nat>, evicted: seq<nat>,
    swallowed: nat)  // second attempts that found the queue full again

  const EMPTY := State([], Idle, 0, [], [], 0)

  /** One atomic queue operation, by either thread. An operation that is not enabled does nothing. */
  datatype Action = BeginWrite | EvictOldest | RetryPut | WriterTakes

  function Act(maxsize: nat, s: State, a: Action): (s': State) {
    match a
    case BeginWrite =>
      if s.phase != Idle then s
      else if |s.queue| < maxsize then s.(begun := s.begun + 1, queue := s.queue + [s.begun])
      else s.(begun := s.begun + 1, phase := MustEvict(s.begun))
    case EvictOldest =>
      if !s.phase.MustEvict? then s
      else
        var t := s.(phase := MustRetry(s.phase.chunk));
        if s.queue == [] then t
        else t.(queue := s.queue[1..], evicted := s.evicted + [s.queue[0]])
    case RetryPut =>
      if !s.phase.MustRetry? then s
      else if |s.queue| < maxsize then s.(phase := Idle, queue := s.queue + [s.phase.chunk])
      else s.(phase := Idle, swallowed := s.swallowed + 1)
    case WriterTakes =>
      if s.queue == [] then s else s.(queue := s.queue[1..], taken := s.taken + [s.queue[0]])
  }

  function ActAll(maxsize: nat, actions: seq<Action>): (s: State) {
    if actions == [] then EMPTY
    else Act(maxsize, ActAll(maxsize, actions[..|actions| - 1]), actions[|actions| - 1])
  }

  /** How many chunks have left the queue. */
  function Left(s: State): (n: nat) {
    |s.taken| + |s.evicted|
  }

  ghost predicate Increasing(chunks: seq<nat>) {
    forall i, j :: 0 <= i < j < |chunks| ==> chunks[i] < chunks[j]
  }

  /** The queue is the contiguous run of the newest chunks put; what left before it was either taken or
      evicted, each exactly once and in order; nothing left it any other way. */
  ghost predicate IsContiguous(maxsize: nat, s: State) {
    && |s.queue| <= maxsize
    && (forall i :: 0 <= i < |s.queue| ==> s.queue[i] == Left(s) + i)
    && Left(s) + |s.queue| + (if s.phase == Idle then 0 else 1) == s.begun
    && (s.phase != Idle ==> s.phase.chunk == s.begun - 1)
    && (s.phase.MustRetry? ==> |s.queue| < maxsize)
    && s.swallowed == 0
    && Increasing(s.taken) && Increasing(s.evicted)
    && (forall c: nat :: c < Left(s) <==> c in s.taken || c in s.evicted)
    && (forall c: nat :: !(c in s.taken && c in s.evicted))
  }

  lemma ActKeepsTheQueueContiguous(maxsize: nat, s: State, a: Action)
    requires maxsize > 0 && IsContiguous(maxsize, s)
    ensures IsContiguous(maxsize, Act(maxsize, s, a))
  {
    var s' := Act(maxsize, s, a);
    if Left(s') != Left(s) {
      var c := s.queue[0];
      assert c == Left(s);
      assert forall d :: d in s'.taken || d in s'.evicted <==> d in s.taken || d in s.evicted || d == c;
      assert forall i :: 0 <= i < |s.taken| ==> s.taken[i] in s.taken;
      assert forall i :: 0 <= i < |s.evicted| ==> s.evicted[i] in s.evicted;
    }
  }

  /** Over every interleaving of the two threads the queue stays contiguous: a write never blocks,
      never loses the chunk it is writing, and costs at most the one oldest chunk. */
  lemma {:induction false} EveryInterleavingIsContiguous(maxsize: nat, actions: seq<Action>)
    requires maxsize > 0
    ensures IsContiguous(maxsize, ActAll(maxsize, actions))
  {
    if actions != [] {
      EveryInterleavingIsContiguous(maxsize, actions[..|actions| - 1]);
      ActKeepsTheQueueContiguous(maxsize, ActAll(maxsize, actions[..|actions| - 1]), actions[|actions| - 1]);
    }
  }

  /** The writer thread takes `n` times running. */
  function Taking(maxsize: nat, s: State, n: nat): (s': State) {
    if n == 0 then s else Act(maxsize, Taking(maxsize, s, n - 1), WriterTakes)
  }

  /** What the writer thread takes is the queue, oldest first: after any run, as many takes as there are
      chunks queued empty the queue into what was taken, and evict nothing. */
  lemma {:induction false} TakingDrainsTheQueue(maxsize: nat, s: State, n: nat)
    requires n <= |s.queue|
    ensures Taking(maxsize, s, n) == s.(queue := s.queue[n..], taken := s.taken + s.queue[..n])
  {
    if n > 0 {
      TakingDrainsTheQueue(maxsize, s, n - 1);
      assert s.queue[n - 1..][1..] == s.queue[n..];
      assert s.taken + s.queue[..n - 1] + [s.queue[n - 1]] == s.taken + s.queue[..n];
    } else {
      assert s.taken + [] == s.taken && s.queue[0..] == s.queue;
    }
  }

  /** Undisturbed by the writer thread, a write to a full queue leaves exactly the newest chunks. */
  lemma UndisturbedWriteKeepsTheNewest(maxsize: nat, actions: seq<Action>)
    requires maxsize > 0 && ActAll(maxsize, actions).phase == Idle
    ensures var s := ActAll(maxsize, actions);
            var s' := Act(maxsize, Act(maxsize, Act(maxsize, s, BeginWrite), EvictOldest), RetryPut);
            && s'.phase == Idle && s'.begun == s.begun + 1
            && s'.queue == if |s.queue| < maxsize then s.queue + [s.begun] else s.queue[1..] + [s.begun]
  {
    EveryInterleavingIsContiguous(maxsize, actions);
  }
}
