/** The per-key lock pool: one lock per key in use, counted by the callers in flight. */
module Flight {

  type Key = string
  type LockId = nat

  datatype Slot = Slot(lock: LockId, refs: nat)

  /** `next` is larger than every lock handed out so far. */
  datatype Pool = Pool(slots: map<Key, Slot>, next: LockId)

  function Acquire(p: Pool, k: Key): (Pool, LockId) {
    if k in p.slots
    then (p.(slots := p.slots[k := p.slots[k].(refs := p.slots[k].refs + 1)]), p.slots[k].lock)
    else (Pool(p.slots[k := Slot(p.next, 1)], p.next + 1), p.next)
  }

  function Release(p: Pool, k: Key): Pool {
    if k !in p.slots then p
    else if p.slots[k].refs <= 1 then p.(slots := p.slots - {k})
    else p.(slots := p.slots[k := p.slots[k].(refs := p.slots[k].refs - 1)])
  }

  /** Distinct keys never share a lock, and no future lock is already in the pool. */
  ghost predicate Sound(p: Pool) {
    && (forall k :: k in p.slots ==> p.slots[k].lock < p.next && p.slots[k].refs > 0)
    && (forall j, k :: j in p.slots && k in p.slots && j != k ==> p.slots[j].lock != p.slots[k].lock)
  }

  /** Taking a flight and giving it back restores the pool, and keeps it sound throughout. */
  lemma AcquireRelease(p: Pool, k: Key)
    requires Sound(p)
    ensures Sound(Acquire(p, k).0) && Sound(Release(p, k))
    ensures Release(Acquire(p, k).0, k).slots == p.slots
    ensures k in p.slots ==> Acquire(p, k).1 == p.slots[k].lock
  {
    if k !in p.slots {
      assert p.slots[k := Slot(p.next, 1)] - {k} == p.slots;
    }
  }

  class SingleFlightManager {
    var locks: map<Key, Slot>
    var nextLock: LockId
    var stampedesPrevented: nat

    ghost function State(): Pool
      reads this
    {
      Pool(locks, nextLock)
    }

    constructor ()
      ensures State() == Pool(map[], 0) && stampedesPrevented == 0
    {
      locks, nextLock, stampedesPrevented := map[], 0, 0;
    }

    method AcquireFlight(key: Key) returns (lock: LockId)
      modifies this`locks, this`nextLock
      ensures (State(), lock) == Acquire(old(State()), key)
    {
      if key in locks {
        var slot := locks[key];
        locks := locks[key := Slot(slot.lock, slot.refs + 1)];
        lock := slot.lock;
      } else {
        lock := nextLock;
        nextLock := nextLock + 1;
        locks := locks[key := Slot(lock, 1)];
      }
    }

    method ReleaseFlight(key: Key)
      modifies this`locks
      ensures State() == Release(old(State()), key)
    {
      if key in locks {
        var slot := locks[key];
        if slot.refs <= 1 {
          locks := locks - {key};
        } else {
          locks := locks[key := Slot(slot.lock, slot.refs - 1)];
        }
      }
    }
  }
}
