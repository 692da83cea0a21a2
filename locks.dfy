/**
 * The write-lock registry of imageAgent-windows-safe.js: a process-wide set of
 * keys `operation-outputPath`. A writer spins until its key is absent, adds it,
 * and deletes it in a `finally`. The model is sequential: an acquire that finds
 * its key held is one turn of the spin and changes nothing.
 */
module Locks {
  import opened Stages

  /** The registry key of a write: `${operation}-${outputPath}`. */
  function LockKey(operation: string, outputPath: string): string {
    operation + "-" + outputPath
  }

  /** For the three image operations the key determines both the operation and the path. */
  lemma LockKeyInjective(op1: ImageOp, path1: string, op2: ImageOp, path2: string)
    requires LockKey(OpName(op1), path1) == LockKey(OpName(op2), path2)
    ensures op1 == op2 && path1 == path2
  {
    var k := LockKey(OpName(op1), path1);
    assert |OpName(op1)| == 6 && |OpName(op2)| == 6;
    assert k[..6] == OpName(op1);
    assert LockKey(OpName(op2), path2)[..6] == OpName(op2);
    assert k[7..] == path1;
    assert LockKey(OpName(op2), path2)[7..] == path2;
  }

  datatype LockEvent = Acquire(key: string) | Release(key: string)

  /** One event: an acquire inserts a free key (a held key makes it a spin turn); a release deletes. */
  function Step(held: set<string>, e: LockEvent): set<string> {
    match e
    case Acquire(k) => if k in held then held else held + {k}
    case Release(k) => held - {k}
  }

  /** The keys held after a trace of events, starting from the empty registry (`new Set()`). */
  function Replay(trace: seq<LockEvent>): set<string>
    decreases |trace|
  {
    if trace == [] then {} else Step(Replay(trace[..|trace| - 1]), trace[|trace| - 1])
  }

  /** Event `i` is an acquire that found its key free, i.e. the caller now holds the key. */
  predicate Granted(trace: seq<LockEvent>, i: nat)
    requires i < |trace|
  {
    trace[i].Acquire? && trace[i].key !in Replay(trace[..i])
  }

  lemma ReplayAppend(trace: seq<LockEvent>, e: LockEvent)
    ensures Replay(trace + [e]) == Step(Replay(trace), e)
  {
    assert (trace + [e])[..|trace|] == trace;
  }

  /** A key stays held across events that do not release it. */
  lemma {:induction false} StaysHeld(trace: seq<LockEvent>, k: string, lo: int, hi: int)
    requires 0 <= lo <= hi <= |trace|
    requires k in Replay(trace[..lo])
    requires forall m :: lo <= m < hi ==> trace[m] != Release(k)
    ensures k in Replay(trace[..hi])
    decreases hi - lo
  {
    if lo < hi {
      assert trace[..lo + 1] == trace[..lo] + [trace[lo]];
      ReplayAppend(trace[..lo], trace[lo]);
      StaysHeld(trace, k, lo + 1, hi);
    }
  }

  /**
   * Mutual exclusion: when two acquires of the same key are both granted, the key
   * was released in between, so no two callers hold a key at the same time.
   */
  lemma MutualExclusion(trace: seq<LockEvent>, i: nat, j: nat)
    requires i < j < |trace|
    requires Granted(trace, i) && Granted(trace, j) && trace[i].key == trace[j].key
    ensures exists m :: i < m < j && trace[m] == Release(trace[i].key)
  {
    var k := trace[i].key;
    if forall m :: i < m < j ==> trace[m] != Release(k) {
      assert trace[..i + 1] == trace[..i] + [trace[i]];
      ReplayAppend(trace[..i], trace[i]);
      StaysHeld(trace, k, i + 1, j);
      assert false;
    }
  }

  /** A release frees the key whatever happened before, and touches no other key. */
  lemma ReleaseFrees(held: set<string>, k: string)
    ensures k !in Step(held, Release(k))
    ensures forall other :: other != k ==> (other in Step(held, Release(k)) <==> other in held)
  {
  }

  /**
   * The registry as an object: `held` is the set, `log` the ghost history of
   * acquire and release events that produced it.
   */
  class Registry {
    var held: set<string>
    ghost var log: seq<LockEvent>

    ghost predicate Valid()
      reads this
    {
      held == Replay(log)
    }

    constructor ()
      ensures Valid() && held == {} && log == []
    {
      held := {};
      log := [];
    }

    /** One turn of the spin: `processingLocks.has(key)`, and `add(key)` when it was absent. */
    method TryAcquire(key: string) returns (acquired: bool)
      requires Valid()
      modifies this
      ensures Valid()
      ensures acquired <==> key !in old(held)
      ensures held == old(held) + {key}
      ensures log == old(log) + [Acquire(key)]
    {
      ReplayAppend(log, Acquire(key));
      acquired := key !in held;
      held := held + {key};
      log := log + [Acquire(key)];
    }

    /** `processingLocks.delete(key)`. */
    method Release(key: string)
      requires Valid()
      modifies this
      ensures Valid()
      ensures held == old(held) - {key}
      ensures log == old(log) + [LockEvent.Release(key)]
    {
      ReplayAppend(log, LockEvent.Release(key));
      held := held - {key};
      log := log + [LockEvent.Release(key)];
    }
  }
}
