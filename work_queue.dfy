/**
  The persisted work queue, `DownloadQueue` of e621dl_lib/local.py:142-220: a FIFO of
  batches of posts handed from the prefiltering thread to the downloading loop, the
  search cursor `last_id`, the `completed` flag, the names of finished generators and
  the fingerprint of the configuration the queue was built for.

  The lock is left out (every operation here is one sequential step) and so is the
  sleep-spin in `append`, which becomes the precondition that the queue has room.
  Saving to and loading from the pickle file are left out; the constructor takes the
  loaded state as a parameter, `None` when loading fails.
*/
module WorkQueue {
  import opened Wrappers

  /** `0x7F_FF_FF_FF`: the cursor value meaning "start from the newest post". */
  const Sentinel: int := 0x7FFF_FFFF

  /** The default `maxlen` of `append`. */
  const DefaultMaxLen: nat := 10

  /** Everything the queue holds (and pickles): the batches, the cursor, the flag, the
      finished generators and the configuration fingerprint. */
  datatype QueueState<T> = QueueState(
    batches: seq<T>,
    lastId: int,
    completed: bool,
    completedGens: seq<string>,
    configHash: Option<string>)

  // ---------------------------------------------------------------------------
  // Specification of the operations on the state
  // ---------------------------------------------------------------------------

  /** `reset`: nothing queued, not completed, cursor back at the sentinel, no finished
      generators; an existing fingerprint is kept. */
  function AfterReset<T>(s: QueueState<T>): QueueState<T>
  {
    QueueState([], Sentinel, false, [], s.configHash)
  }

  /** The state a queue starts from when nothing could be loaded: `reset` on an object
      that has no fingerprint yet, which sets it to `None`. */
  function Initial<T>(): QueueState<T>
  {
    QueueState([], Sentinel, false, [], None)
  }

  /** `append`: the batch goes to the back. */
  function Push<T>(s: QueueState<T>, x: T): QueueState<T>
  {
    s.(batches := s.batches + [x])
  }

  /** The oldest batch, if any (`first`, or what `popleft` returns). */
  function Front<T>(s: QueueState<T>): Option<T>
  {
    if s.batches == [] then None else Some(s.batches[0])
  }

  /** `popleft`: the state after removing the oldest batch (unchanged when empty, where
      the source raises). */
  function Pop<T>(s: QueueState<T>): QueueState<T>
  {
    if s.batches == [] then s else s.(batches := s.batches[1..])
  }

  /** `completed_gen(name)`. */
  function CompleteGen<T>(s: QueueState<T>, name: string): QueueState<T>
  {
    s.(completedGens := s.completedGens + [name], lastId := Sentinel)
  }

  /** `in_gens(name)`. */
  predicate GenFinished<T>(s: QueueState<T>, name: string)
  {
    name in s.completedGens
  }

  /** `check_config_hash(h)`: a different fingerprint resets the queue and is stored. */
  function AfterCheckConfigHash<T>(s: QueueState<T>, h: string): QueueState<T>
  {
    if s.configHash != Some(h) then AfterReset(s).(configHash := Some(h)) else s
  }

  // ---------------------------------------------------------------------------
  // Properties of the specification
  // ---------------------------------------------------------------------------

  /** After `reset` the queue is empty, not completed, at the sentinel, has no finished
      generators and still carries its fingerprint; resetting again changes nothing. */
  lemma ResetProperties<T>(s: QueueState<T>)
    ensures var r := AfterReset(s);
      && Front(r).None? && !r.completed && r.lastId == Sentinel
      && (forall name :: !GenFinished(r, name))
      && r.configHash == s.configHash
      && AfterReset(r) == r
  {
  }

  /** A matching fingerprint changes nothing; any fingerprint is stored afterwards; a
      different one leaves the queue as `reset` does; and checking twice is checking
      once. */
  lemma CheckConfigHashProperties<T>(s: QueueState<T>, h: string)
    ensures s.configHash == Some(h) ==> AfterCheckConfigHash(s, h) == s
    ensures AfterCheckConfigHash(s, h).configHash == Some(h)
    ensures s.configHash != Some(h) ==> AfterCheckConfigHash(s, h).(configHash := s.configHash) == AfterReset(s)
    ensures AfterCheckConfigHash(AfterCheckConfigHash(s, h), h) == AfterCheckConfigHash(s, h)
  {
  }

  /** After `completed_gen(name)` the generator is finished, every earlier one still
      is, the cursor is at the sentinel, and the batches and the flag are untouched. */
  lemma CompleteGenProperties<T>(s: QueueState<T>, name: string)
    ensures var r := CompleteGen(s, name);
      && GenFinished(r, name)
      && (forall other :: GenFinished(s, other) ==> GenFinished(r, other))
      && (forall other :: GenFinished(r, other) ==> GenFinished(s, other) || other == name)
      && r.lastId == Sentinel
      && r.batches == s.batches && r.completed == s.completed && r.configHash == s.configHash
  {
  }

  /** Batches come out in the order they went in: after pushing `xs` onto an empty
      queue, popping `|xs|` times yields `xs`. */
  lemma {:induction false} FifoOrder<T>(s: QueueState<T>, xs: seq<T>)
    requires s.batches == []
    ensures Drain(PushAll(s, xs), |xs|) == xs
  {
    PushAllBatches(s, xs);
    DrainBatches(PushAll(s, xs), |xs|);
    assert PushAll(s, xs).batches[..|xs|] == xs;
  }

  /** `xs` pushed one after the other. */
  function PushAll<T>(s: QueueState<T>, xs: seq<T>): QueueState<T>
    decreases |xs|
  {
    if xs == [] then s else PushAll(Push(s, xs[0]), xs[1..])
  }

  /** The batches returned by `n` pops. */
  function Drain<T>(s: QueueState<T>, n: nat): seq<T>
    decreases n
  {
    if n == 0 then []
    else match Front(s)
      case None => []
      case Some(x) => [x] + Drain(Pop(s), n - 1)
  }

  lemma {:induction false} PushAllBatches<T>(s: QueueState<T>, xs: seq<T>)
    ensures PushAll(s, xs).batches == s.batches + xs
    decreases |xs|
  {
    if xs != [] {
      PushAllBatches(Push(s, xs[0]), xs[1..]);
      assert s.batches + [xs[0]] + xs[1..] == s.batches + xs;
    }
  }

  lemma {:induction false} DrainBatches<T>(s: QueueState<T>, n: nat)
    ensures Drain(s, n) == s.batches[..if n <= |s.batches| then n else |s.batches|]
    decreases n
  {
    if n > 0 && s.batches != [] {
      DrainBatches(Pop(s), n - 1);
      var k := if n <= |s.batches| then n else |s.batches|;
      assert s.batches[..k] == [s.batches[0]] + s.batches[1..][..k - 1];
    }
  }

  // ---------------------------------------------------------------------------
  // The queue object
  // ---------------------------------------------------------------------------

  class DownloadQueue<T> {
    var batches: seq<T>
    var lastId: int
    var completed: bool
    var completedGens: seq<string>
    var configHash: Option<string>
    var aborted: bool

    /** The pickled part of the object. */
    function State(): QueueState<T>
      reads this
    {
      QueueState(batches, lastId, completed, completedGens, configHash)
    }

    /** `__init__`: the loaded state, or `reset` when loading fails; never aborted. */
    constructor (loaded: Option<QueueState<T>>)
      ensures State() == (if loaded.Some? then loaded.value else Initial())
      ensures !aborted
    {
      if loaded.Some? {
        var s := loaded.value;
        batches, lastId, completed := s.batches, s.lastId, s.completed;
        completedGens, configHash := s.completedGens, s.configHash;
      } else {
        batches, lastId, completed := [], Sentinel, false;
        completedGens, configHash := [], None;
      }
      aborted := false;
    }

    /** `append(x, maxlen)`, entered once the queue has fewer than `maxlen` batches;
        so the queue never holds more than `maxlen`. */
    method Append(x: T, maxlen: nat)
      requires |batches| < maxlen
      modifies this
      ensures State() == Push(old(State()), x)
      ensures |batches| <= maxlen
      ensures aborted == old(aborted)
    {
      batches := batches + [x];
    }

    /** `popleft()`: the oldest batch, removed; `None` (the source raises) when empty. */
    method PopLeft() returns (r: Option<T>)
      modifies this
      ensures r == Front(old(State()))
      ensures State() == Pop(old(State()))
      ensures aborted == old(aborted)
    {
      if batches == [] {
        r := None;
      } else {
        r := Some(batches[0]);
        batches := batches[1..];
      }
    }

    /** `first()`: the oldest batch, left in place; `None` when empty. */
    method First() returns (r: Option<T>)
      ensures r == Front(State())
      ensures r.Some? <==> |batches| > 0
      ensures r.Some? ==> r.value == batches[0]
    {
      if batches == [] {
        r := None;
      } else {
        r := Some(batches[0]);
      }
    }

    /** `last()`: the newest batch, left in place; `None` when empty. */
    method Last() returns (r: Option<T>)
      ensures r.Some? <==> |batches| > 0
      ensures r.Some? ==> r.value == batches[|batches| - 1]
    {
      if batches == [] {
        r := None;
      } else {
        r := Some(batches[|batches| - 1]);
      }
    }

    /** `reset()`. */
    method Reset()
      modifies this
      ensures State() == AfterReset(old(State()))
      ensures aborted == old(aborted)
    {
      batches := [];
      completed := false;
      lastId := Sentinel;
      completedGens := [];
    }

    /** `completed_gen(name)`. */
    method CompletedGen(name: string)
      modifies this
      ensures State() == CompleteGen(old(State()), name)
      ensures aborted == old(aborted)
    {
      completedGens := completedGens + [name];
      lastId := Sentinel;
    }

    /** `check_config_hash(h)`. */
    method CheckConfigHash(h: string)
      modifies this
      ensures State() == AfterCheckConfigHash(old(State()), h)
      ensures aborted == old(aborted)
    {
      if configHash != Some(h) {
        Reset();
        configHash := Some(h);
      }
    }

    /** `in_gens(name)`. */
    method InGens(name: string) returns (r: bool)
      ensures r <==> GenFinished(State(), name)
      ensures r <==> exists k :: 0 <= k < |completedGens| && completedGens[k] == name
    {
      r := name in completedGens;
    }
  }
}
