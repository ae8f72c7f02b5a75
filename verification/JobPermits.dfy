/**
 The runner's concurrency pool (crates/jobs/src/jobs/runner.rs, `Permits`): a semaphore that a reload may
 resize while jobs are running. Permits can be added at any time but taken back only while they are free.
 */
module JobPermits {

  function Max(a: nat, b: nat): nat { if a < b then b else a }

  class Permits {
    var capacity: nat
    var free: nat
    ghost var busy: nat

    /** What the pool has issued is free or held. */
    ghost predicate Valid() reads this { capacity == free + busy }

    constructor (size: nat)
      ensures Valid() && capacity == size && busy == 0
    {
      capacity, free, busy := size, size, 0;
    }

    /** Grows at once; shrinks as far as held permits allow, and never below them. */
    method Resize(target: nat)
      requires Valid()
      modifies this`capacity, this`free
      ensures Valid() && capacity == if target >= old(capacity) then target else Max(target, busy)
    {
      if target > capacity {
        free := free + (target - capacity);
        capacity := target;
      } else if target < capacity {
        // `forget_permits` takes what is free and says how many it got.
        var forgotten := if capacity - target <= free then capacity - target else free;
        free := free - forgotten;
        capacity := capacity - forgotten;
      }
    }

    /** `drain_ready`'s step: the pool is moved towards its target before a slot is handed out. */
    method TryAcquire(target: nat) returns (acquired: bool)
      requires Valid()
      modifies this
      ensures Valid() && capacity == if target >= old(capacity) then target else Max(target, old(busy))
      ensures acquired <==> old(busy) < capacity
      ensures acquired <==> old(busy) < target
      ensures busy == old(busy) + (if acquired then 1 else 0)
    {
      Resize(target);
      acquired := free > 0;
      if acquired {
        free := free - 1;
        busy := busy + 1;
      }
    }

    /** A settled job's permit. Its handler may still be executing, if its time ran out. */
    method Return()
      requires Valid() && busy > 0
      modifies this`free, this`busy
      ensures Valid() && busy == old(busy) - 1
    {
      free := free + 1;
      busy := busy - 1;
    }

    /** `stop`: taking every issued permit succeeds exactly when no permit is out. */
    method Drained() returns (drained: bool)
      requires Valid() && capacity > 0
      ensures drained <==> busy == 0
    {
      drained := free >= (if capacity > 1 then capacity else 1);
    }
  }
}
