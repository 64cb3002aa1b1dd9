/** Single flight, background refresh and bookkeeping: what holds in every reachable state,
    under every interleaving, inside each worker. */
module Coalescing {
  import opened Basics
  import opened Tiered
  import Lineage

  // ---------------------------------------------------------------- who is where

  predicate Flying(pc: PC) {
    match pc
    case Wait => true
    case RecheckL1 => true
    case RecheckL2 => true
    case RecheckPurge => true
    case RecheckBackfill(_, _) => true
    case Produce => true
    case Producing => true
    case Encode(_) => true
    case PutL2(_, _) => true
    case PutL1(_, _) => true
    case Unlock(_) => true
    case Release(_) => true
    case _ => false
  }

  predicate Coalesced(c: Call) {
    c.kind.GetOrSet? || c.kind.Refresh?
  }

  /** Between `acquire_flight` and `release_flight`. */
  predicate InFlight(th: Thread) {
    Coalesced(th.call) && Flying(th.pc)
  }

  /** Holding the key's lock. */
  predicate Critical(th: Thread) {
    InFlight(th) && !th.pc.Wait? && !th.pc.Release?
  }

  /** Running the producer. */
  predicate Running(th: Thread) {
    th.pc.Producing?
  }

  /** Responsible for a scheduled or running background refresh. */
  predicate Refreshing(th: Thread) {
    th.pc.Submit? || (th.call.kind.Refresh? && !th.pc.Done?)
  }

  /** A background refresh that was counted as started and not yet as completed or failed. */
  predicate Uncounted(th: Thread) {
    th.call.kind.Refresh?
    && match th.pc
       case Unlock(out) => out.Raised?
       case Release(out) => out.Raised?
       case CountError(_) => true
       case Discard(_) => false
       case Done(_) => false
       case _ => true
  }

  /** A miss that has neither started its producer nor been answered by the re-check. */
  predicate Undecided(th: Thread) {
    th.call.kind.GetOrSet?
    && (th.pc.Acquire? || th.pc.Wait? || th.pc.RecheckL1? || th.pc.RecheckL2? || th.pc.RecheckPurge? || th.pc.Produce?)
  }

  /** A foreground call that has started its own producer, whether or not it is finished. */
  predicate RanProducer(th: Thread) {
    th.call.kind.GetOrSet?
    && match th.pc
       case Producing => true
       case Encode(_) => true
       case PutL2(_, _) => true
       case PutL1(_, _) => true
       case Unlock(out) => !out.Served?
       case Release(out) => !out.Served?
       case Done(out) => !out.Served?
       case _ => false
  }

  /** A plain `get` that found nothing. */
  predicate CameUpEmpty(th: Thread) {
    th.pc.Done? && th.pc.out.Missed?
  }

  function FlyersOf(i: Wid, k: Key): Thread -> bool {
    (th: Thread) => th.call.worker == i && th.call.key == k && InFlight(th)
  }

  function RefreshersOf(i: Wid, k: Key): Thread -> bool {
    (th: Thread) => th.call.worker == i && th.call.key == k && Refreshing(th)
  }

  function UncountedOf(i: Wid): Thread -> bool {
    (th: Thread) => th.call.worker == i && Uncounted(th)
  }

  function UndecidedOf(i: Wid): Thread -> bool {
    (th: Thread) => th.call.worker == i && Undecided(th)
  }

  function RanProducerOf(i: Wid): Thread -> bool {
    (th: Thread) => th.call.worker == i && RanProducer(th)
  }

  function CameUpEmptyOf(i: Wid): Thread -> bool {
    (th: Thread) => th.call.worker == i && CameUpEmpty(th)
  }

  // ---------------------------------------------------------------- the invariant

  function Refs(p: Flight.Pool, k: Key): nat {
    if k in p.slots then p.slots[k].refs else 0
  }

  /** The stored reference count of every key is the number of threads in flight for it. */
  ghost predicate RefsExact(threads: map<Tid, Thread>, i: Wid, w: Worker) {
    Flight.Sound(w.pool) && forall k :: Refs(w.pool, k) == Tally(threads, FlyersOf(i, k))
  }

  /** Every thread in flight for a key got the lock the pool has for that key. */
  ghost predicate LocksAgree(threads: map<Tid, Thread>, i: Wid, w: Worker) {
    forall t :: t in threads && threads[t].call.worker == i && InFlight(threads[t]) ==>
      threads[t].call.key in w.pool.slots && threads[t].lock == w.pool.slots[threads[t].call.key].lock
  }

  /** A lock is held exactly by the one thread inside its critical section. */
  ghost predicate HeldExact(threads: map<Tid, Thread>, i: Wid, w: Worker) {
    && (forall t :: t in threads && threads[t].call.worker == i && Critical(threads[t]) ==>
          threads[t].lock in w.held && w.held[threads[t].lock] == t)
    && (forall l :: l in w.held ==>
          var t := w.held[l];
          t in threads && threads[t].call.worker == i && Critical(threads[t]) && threads[t].lock == l)
  }

  /** A key is marked exactly while its one refresh is scheduled or running. */
  ghost predicate RefreshExact(threads: map<Tid, Thread>, i: Wid, w: Worker) {
    forall k :: Tally(threads, RefreshersOf(i, k)) == if k in w.active then 1 else 0
  }

  ghost predicate CountsExact(threads: map<Tid, Thread>, i: Wid, w: Worker) {
    && w.m.started == w.m.completed + w.m.failed + Tally(threads, UncountedOf(i))
    && w.m.l2Miss == w.m.foreground + w.m.prevented + w.m.plainMisses + Tally(threads, UndecidedOf(i))
    && w.m.foreground == Tally(threads, RanProducerOf(i))
    && w.m.plainMisses == Tally(threads, CameUpEmptyOf(i))
    && w.m.producerCalls == w.m.foreground + w.m.background
  }

  ghost predicate WorkerOk(threads: map<Tid, Thread>, i: Wid, w: Worker) {
    && RefsExact(threads, i, w)
    && LocksAgree(threads, i, w)
    && HeldExact(threads, i, w)
    && RefreshExact(threads, i, w)
    && CountsExact(threads, i, w)
  }

  ghost predicate Inv(s: State) {
    && Lineage.Inv(s)
    && forall i :: i in s.workers ==> WorkerOk(s.threads, i, s.workers[i])
  }

  // ---------------------------------------------------------------- one thread step, by effect

  function Bit(b: bool): int {
    if b then 1 else 0
  }

  /** Which calls can be at which point, and with which kind of result. */
  predicate Shape(th: Thread) {
    var k := th.call.kind;
    match th.pc
    case ReadL1 => k.GetOrSet? || k.Get?
    case ReadL2 => k.GetOrSet? || k.Get?
    case PurgeL2 => k.GetOrSet? || k.Get?
    case Backfill(_, _, _) => k.GetOrSet? || k.Get?
    case Schedule(out) => k.GetOrSet? && out.Served?
    case Submit(out) => k.GetOrSet? && out.Served?
    case Acquire => k.GetOrSet? || k.Refresh?
    case Wait => k.GetOrSet? || k.Refresh?
    case RecheckL1 => k.GetOrSet?
    case RecheckL2 => k.GetOrSet?
    case RecheckPurge => k.GetOrSet?
    case RecheckBackfill(_, _) => k.GetOrSet?
    case Produce => k.GetOrSet? || k.Refresh?
    case Producing => k.GetOrSet? || k.Refresh?
    case Encode(_) => !k.Get?
    case PutL2(_, _) => !k.Get?
    case PutL1(_, _) => !k.Get?
    case Unlock(out) => Ending(k, out) && (k.GetOrSet? || k.Refresh?)
    case Release(out) => Ending(k, out) && (k.GetOrSet? || k.Refresh?)
    case CountError(out) => k.Refresh? && Ending(k, out)
    case Discard(out) => k.Refresh? && Ending(k, out)
    case Done(out) => Ending(k, out)
  }

  predicate Ending(k: Kind, out: Outcome) {
    match k
    case GetOrSet => out.Served? || out.Produced? || out.Raised?
    case Refresh => out.Refreshed? || out.Raised?
    case Get => out.Served? || out.Missed?
    case Put(_) => out.Stored?
  }

  lemma ShapeHolds(h: Lineage.History, t: Tid, th: Thread)
    requires Lineage.ThreadOk(h, t, th)
    ensures Shape(th)
  {
  }

  /** The lock discipline of one step: what it does to the pool and to the held locks ... */
  lemma MovePool(t: Tid, th: Thread, w: Worker, l2: map<Key, Envelope>, now: real, ch: Choice)
    requires Shape(th) && Ready(th, w)
    ensures var e := Move(t, th, w, l2, now, ch);
            var key := th.call.key;
            && e.worker.pool ==
               (if th.pc.Acquire? then Flight.Acquire(w.pool, key).0
                else if th.pc.Release? then Flight.Release(w.pool, key)
                else w.pool)
            && e.lock == (if th.pc.Acquire? then Flight.Acquire(w.pool, key).1 else th.lock)
            && e.worker.held ==
               (if th.pc.Wait? then w.held[th.lock := t]
                else if th.pc.Unlock? then w.held - {th.lock}
                else w.held)
  {
    hide Look, Purged, Seal, EntryOf, Window, L1.Read, L1.Peek, L1.Write, Flight.Acquire, Flight.Release;
  }

  /** ... and to where the thread stands. */
  lemma MovePhase(t: Tid, th: Thread, w: Worker, l2: map<Key, Envelope>, now: real, ch: Choice)
    requires Shape(th) && Ready(th, w)
    ensures var e := Move(t, th, w, l2, now, ch);
            var th' := Thread(th.call, e.pc, e.lock);
            && InFlight(th') == (if th.pc.Acquire? then true else if th.pc.Release? then false else InFlight(th))
            && Critical(th') == (if th.pc.Wait? then true else if th.pc.Unlock? then false else Critical(th))
            && (th.pc.Acquire? ==> !InFlight(th) && !Critical(th))
            && (th.pc.Release? || th.pc.Wait? ==> InFlight(th) && !Critical(th))
            && (th.pc.Unlock? ==> Critical(th))
  {
    hide Look, Purged, Seal, EntryOf, Window, L1.Read, L1.Peek, L1.Write, Flight.Acquire, Flight.Release, Fill, Rank;
  }

  /** The refresh marks of one step: marking, handing over to the spawned worker, clearing. */
  lemma MoveRefresh(t: Tid, th: Thread, w: Worker, l2: map<Key, Envelope>, now: real, ch: Choice)
    requires Shape(th) && Ready(th, w)
    ensures var e := Move(t, th, w, l2, now, ch);
            var th' := Thread(th.call, e.pc, e.lock);
            var key := th.call.key;
            && (e.spawns <==> th.pc.Submit?)
            && e.worker.active == (if th.pc.Schedule? then w.active + {key}
               else if th.pc.Discard? then w.active - {key} else w.active)
            && Refreshing(th') == (if th.pc.Schedule? then key !in w.active
               else if th.pc.Submit? || th.pc.Discard? then false else Refreshing(th))
            && (th.pc.Schedule? ==> !Refreshing(th))
            && (th.pc.Submit? || th.pc.Discard? ==> Refreshing(th))
  {
    hide Look, Purged, Seal, EntryOf, Window, L1.Read, L1.Peek, L1.Write, Flight.Acquire, Flight.Release;
  }

  // The counters of one step move together with the threads they count.

  lemma MoveRefreshCounts(t: Tid, th: Thread, w: Worker, l2: map<Key, Envelope>, now: real, ch: Choice)
    requires Shape(th) && Ready(th, w)
    ensures var e := Move(t, th, w, l2, now, ch);
            var th' := Thread(th.call, e.pc, e.lock);
            var m, m' := w.m, e.worker.m;
            (m'.started - m'.completed - m'.failed) - (m.started - m.completed - m.failed) ==
              Bit(Uncounted(th')) - Bit(Uncounted(th)) + Bit(e.spawns)
  {
    hide Look, Purged, Seal, EntryOf, Window, L1.Read, L1.Peek, L1.Write, Flight.Acquire, Flight.Release;
  }

  lemma MoveMissCounts(t: Tid, th: Thread, w: Worker, l2: map<Key, Envelope>, now: real, ch: Choice)
    requires Shape(th) && Ready(th, w)
    ensures var e := Move(t, th, w, l2, now, ch);
            var th' := Thread(th.call, e.pc, e.lock);
            var m, m' := w.m, e.worker.m;
            (m'.l2Miss - m'.foreground - m'.prevented - m'.plainMisses)
              - (m.l2Miss - m.foreground - m.prevented - m.plainMisses)
            == Bit(Undecided(th')) - Bit(Undecided(th))
  {
    hide Look, Purged, Seal, EntryOf, Window, L1.Read, L1.Peek, L1.Write, Flight.Acquire, Flight.Release;
  }

  lemma MoveRunCounts(t: Tid, th: Thread, w: Worker, l2: map<Key, Envelope>, now: real, ch: Choice)
    requires Shape(th) && Ready(th, w)
    ensures var e := Move(t, th, w, l2, now, ch);
            var th' := Thread(th.call, e.pc, e.lock);
            var m, m' := w.m, e.worker.m;
            && m'.foreground - m.foreground == Bit(RanProducer(th')) - Bit(RanProducer(th))
            && m'.plainMisses - m.plainMisses == Bit(CameUpEmpty(th')) - Bit(CameUpEmpty(th))
            && m'.producerCalls - m'.foreground - m'.background == m.producerCalls - m.foreground - m.background
  {
  }

  // ---------------------------------------------------------------- one system step

  function Recruit(c: Call): Thread {
    Thread(c.(kind := Refresh), Acquire, 0)
  }

  /** The thread table after `t` became `th'` and possibly spawned a refresh numbered `n`. */
  function Moved(threads: map<Tid, Thread>, t: Tid, th': Thread, spawns: bool, n: Tid): map<Tid, Thread> {
    if spawns then threads[t := th'][n := Recruit(th'.call)] else threads[t := th']
  }

  lemma TallyMoved(threads: map<Tid, Thread>, t: Tid, th': Thread, spawns: bool, n: Tid, p: Thread -> bool)
    requires t in threads && n !in threads
    ensures Tally(Moved(threads, t, th', spawns, n), p)
            == Tally(threads, p) - Bit(p(threads[t])) + Bit(p(th')) + Bit(spawns && p(Recruit(th'.call)))
  {
    TallyReplace(threads, t, th', p);
    if spawns {
      TallyAdd(threads[t := th'], n, Recruit(th'.call), p);
    }
  }

  lemma AcquireSteps(p: Flight.Pool, key: Key)
    requires Flight.Sound(p)
    ensures var q := Flight.Acquire(p, key).0;
            && Flight.Sound(q)
            && (forall k :: Refs(q, k) == Refs(p, k) + Bit(k == key))
            && (forall k :: k in p.slots ==> k in q.slots && q.slots[k].lock == p.slots[k].lock)
            && key in q.slots && q.slots[key].lock == Flight.Acquire(p, key).1
  {
    Flight.AcquireRelease(p, key);
  }

  lemma ReleaseSteps(p: Flight.Pool, key: Key)
    requires Flight.Sound(p) && key in p.slots
    ensures var q := Flight.Release(p, key);
            && Flight.Sound(q)
            && (forall k :: Refs(q, k) == Refs(p, k) - Bit(k == key))
            && (forall k :: k in q.slots ==> k in p.slots && q.slots[k].lock == p.slots[k].lock)
  {
    Flight.AcquireRelease(p, key);
  }

  /** The changes of one step to the thread's own worker (`mine`), or none to another one. */
  ghost predicate PoolMoved(th: Thread, th': Thread, mine: bool, w: Worker, w': Worker) {
    var key := th.call.key;
    && th'.call == th.call
    && w'.pool == (if !mine then w.pool else if th.pc.Acquire? then Flight.Acquire(w.pool, key).0
       else if th.pc.Release? then Flight.Release(w.pool, key) else w.pool)
    && (mine ==> th'.lock == if th.pc.Acquire? then Flight.Acquire(w.pool, key).1 else th.lock)
    && InFlight(th') == (if th.pc.Acquire? then true else if th.pc.Release? then false else InFlight(th))
    && (th.pc.Acquire? ==> !InFlight(th))
    && (th.pc.Release? ==> InFlight(th))
  }

  lemma RefsMoved(threads: map<Tid, Thread>, t: Tid, th': Thread, spawns: bool, n: Tid, i: Wid, w: Worker, w': Worker)
    requires t in threads && n !in threads
    requires PoolMoved(threads[t], th', i == th'.call.worker, w, w')
    requires RefsExact(threads, i, w)
    ensures RefsExact(Moved(threads, t, th', spawns, n), i, w')
  {
    var th := threads[t];
    TallyZero(threads, FlyersOf(i, th.call.key));
    assert FlyersOf(i, th.call.key)(th) ==> th.call.key in w.pool.slots;
    AcquireSteps(w.pool, th.call.key);
    if th.call.key in w.pool.slots {
      ReleaseSteps(w.pool, th.call.key);
    }
    forall k
      ensures Refs(w'.pool, k) == Tally(Moved(threads, t, th', spawns, n), FlyersOf(i, k))
    {
      TallyMoved(threads, t, th', spawns, n, FlyersOf(i, k));
    }
  }

  lemma RecruitIdle(c: Call)
    ensures !InFlight(Recruit(c)) && !Critical(Recruit(c))
  {
  }

  /** A lock handed out before the step is still the one in the pool after it. */
  lemma SlotsKept(th: Thread, th': Thread, mine: bool, w: Worker, w': Worker)
    requires PoolMoved(th, th', mine, w, w') && Flight.Sound(w.pool)
    requires mine && InFlight(th) ==> th.call.key in w.pool.slots
    ensures forall k :: k in w.pool.slots && k in w'.pool.slots ==> w'.pool.slots[k].lock == w.pool.slots[k].lock
    ensures forall k :: Refs(w'.pool, k) > 0 ==> k in w'.pool.slots
    ensures mine && th.pc.Acquire? ==> w'.pool.slots[th.call.key].lock == th'.lock
  {
    AcquireSteps(w.pool, th.call.key);
    if th.call.key in w.pool.slots {
      ReleaseSteps(w.pool, th.call.key);
    }
    hide Flight.Acquire, Flight.Release, InFlight;
  }

  lemma FlyerHasSlot(threads: map<Tid, Thread>, u: Tid, i: Wid, w: Worker)
    requires u in threads && threads[u].call.worker == i && InFlight(threads[u]) && RefsExact(threads, i, w)
    ensures threads[u].call.key in w.pool.slots && Refs(w.pool, threads[u].call.key) > 0
  {
    var k := threads[u].call.key;
    TallyZero(threads, FlyersOf(i, k));
    assert FlyersOf(i, k)(threads[u]);
  }

  lemma LocksMoved(threads: map<Tid, Thread>, t: Tid, th': Thread, spawns: bool, n: Tid, i: Wid, w: Worker, w': Worker)
    requires t in threads && n !in threads
    requires PoolMoved(threads[t], th', i == th'.call.worker, w, w')
    requires RefsExact(threads, i, w) && LocksAgree(threads, i, w)
    ensures LocksAgree(Moved(threads, t, th', spawns, n), i, w')
  {
    var th := threads[t];
    var threads' := Moved(threads, t, th', spawns, n);
    RefsMoved(threads, t, th', spawns, n, i, w, w');
    RecruitIdle(th'.call);
    if th.call.worker == i && InFlight(th) {
      FlyerHasSlot(threads, t, i, w);
    }
    SlotsKept(th, th', i == th'.call.worker, w, w');
    hide Flight.Acquire, Flight.Release, InFlight, Refs, RefsExact;
    forall u | u in threads' && threads'[u].call.worker == i && InFlight(threads'[u])
      ensures threads'[u].call.key in w'.pool.slots && threads'[u].lock == w'.pool.slots[threads'[u].call.key].lock
    {
      FlyerHasSlot(threads', u, i, w');
      if u != t || !th.pc.Acquire? {
        assert u in threads && threads[u].call == threads'[u].call;
        FlyerHasSlot(threads, u, i, w);
      }
    }
  }

  ghost predicate HeldMoved(t: Tid, th: Thread, th': Thread, mine: bool, w: Worker, w': Worker) {
    && th'.call == th.call
    && w'.held == (if !mine then w.held else if th.pc.Wait? then w.held[th.lock := t]
       else if th.pc.Unlock? then w.held - {th.lock} else w.held)
    && Critical(th') == (if th.pc.Wait? then true else if th.pc.Unlock? then false else Critical(th))
    && (!th.pc.Acquire? ==> th'.lock == th.lock)
    && (th.pc.Acquire? || th.pc.Wait? ==> !Critical(th))
    && (th.pc.Unlock? ==> Critical(th))
    && (mine && th.pc.Wait? ==> th.lock !in w.held)
  }

  lemma HeldKept(threads: map<Tid, Thread>, t: Tid, th': Thread, spawns: bool, n: Tid, i: Wid, w: Worker, w': Worker)
    requires t in threads && n !in threads
    requires HeldMoved(t, threads[t], th', i == th'.call.worker, w, w')
    requires HeldExact(threads, i, w)
    ensures HeldExact(Moved(threads, t, th', spawns, n), i, w')
  {
    var threads' := Moved(threads, t, th', spawns, n);
    forall l | l in w'.held
      ensures var u := w'.held[l];
              u in threads' && threads'[u].call.worker == i && Critical(threads'[u]) && threads'[u].lock == l
    {
      if l in w.held {
        assert w.held[l] in threads;
      }
    }
  }

  ghost predicate MarksMoved(th: Thread, th': Thread, mine: bool, spawns: bool, w: Worker, w': Worker) {
    var key := th.call.key;
    && th'.call == th.call
    && (spawns <==> th.pc.Submit?)
    && w'.active == (if !mine then w.active else if th.pc.Schedule? then w.active + {key}
       else if th.pc.Discard? then w.active - {key} else w.active)
    && (mine ==> Refreshing(th') == (if th.pc.Schedule? then key !in w.active
               else if th.pc.Submit? || th.pc.Discard? then false else Refreshing(th)))
    && (th.pc.Schedule? ==> !Refreshing(th))
    && (th.pc.Submit? || th.pc.Discard? ==> Refreshing(th))
  }

  lemma MarksKept(threads: map<Tid, Thread>, t: Tid, th': Thread, spawns: bool, n: Tid, i: Wid, w: Worker, w': Worker)
    requires t in threads && n !in threads
    requires MarksMoved(threads[t], th', i == th'.call.worker, spawns, w, w')
    requires RefreshExact(threads, i, w)
    ensures RefreshExact(Moved(threads, t, th', spawns, n), i, w')
  {
    var th := threads[t];
    forall k
      ensures Tally(Moved(threads, t, th', spawns, n), RefreshersOf(i, k)) == if k in w'.active then 1 else 0
    {
      TallyMoved(threads, t, th', spawns, n, RefreshersOf(i, k));
      TallyZero(threads, RefreshersOf(i, k));
      assert RefreshersOf(i, k)(th) ==> k in w.active;
    }
  }

  ghost predicate CountsMoved(th: Thread, th': Thread, mine: bool, spawns: bool, m: Metrics, m': Metrics) {
    && th'.call == th.call
    && (!mine ==> m' == m)
    && (mine ==>
          && (m'.started - m'.completed - m'.failed) - (m.started - m.completed - m.failed) ==
              Bit(Uncounted(th')) - Bit(Uncounted(th)) + Bit(spawns)
          && (m'.l2Miss - m'.foreground - m'.prevented - m'.plainMisses)
              - (m.l2Miss - m.foreground - m.prevented - m.plainMisses)
             == Bit(Undecided(th')) - Bit(Undecided(th))
          && m'.foreground - m.foreground == Bit(RanProducer(th')) - Bit(RanProducer(th))
          && m'.plainMisses - m.plainMisses == Bit(CameUpEmpty(th')) - Bit(CameUpEmpty(th))
          && m'.producerCalls - m'.foreground - m'.background == m.producerCalls - m.foreground - m.background)
  }

  lemma CountsKept(threads: map<Tid, Thread>, t: Tid, th': Thread, spawns: bool, n: Tid, i: Wid, w: Worker, w': Worker)
    requires t in threads && n !in threads
    requires CountsMoved(threads[t], th', i == th'.call.worker, spawns, w.m, w'.m)
    requires CountsExact(threads, i, w)
    ensures CountsExact(Moved(threads, t, th', spawns, n), i, w')
  {
    TallyMoved(threads, t, th', spawns, n, UncountedOf(i));
    TallyMoved(threads, t, th', spawns, n, UndecidedOf(i));
    TallyMoved(threads, t, th', spawns, n, RanProducerOf(i));
    TallyMoved(threads, t, th', spawns, n, CameUpEmptyOf(i));
  }

  /** One step of a thread, as seen by its own worker and by any other one. */
  ghost predicate WorkerMoved(t: Tid, th: Thread, th': Thread, mine: bool, spawns: bool, w: Worker, w': Worker) {
    && PoolMoved(th, th', mine, w, w')
    && HeldMoved(t, th, th', mine, w, w')
    && MarksMoved(th, th', mine, spawns, w, w')
    && CountsMoved(th, th', mine, spawns, w.m, w'.m)
  }

  lemma MoveIsSeen(t: Tid, th: Thread, w: Worker, l2: map<Key, Envelope>, now: real, ch: Choice, other: Worker)
    requires Shape(th) && Ready(th, w)
    ensures var e := Move(t, th, w, l2, now, ch);
            var th' := Thread(th.call, e.pc, e.lock);
            && WorkerMoved(t, th, th', true, e.spawns, w, e.worker)
            && WorkerMoved(t, th, th', false, e.spawns, other, other)
  {
    hide Move, Flight.Acquire, Flight.Release, InFlight, Critical, Refreshing, Uncounted, Undecided, RanProducer,
         CameUpEmpty, Shape, Bit;
    MovePool(t, th, w, l2, now, ch);
    MovePhase(t, th, w, l2, now, ch);
    MoveRefresh(t, th, w, l2, now, ch);
    MoveRefreshCounts(t, th, w, l2, now, ch);
    MoveMissCounts(t, th, w, l2, now, ch);
    MoveRunCounts(t, th, w, l2, now, ch);
  }

  lemma MovedKeeps(threads: map<Tid, Thread>, t: Tid, th': Thread, spawns: bool, n: Tid, i: Wid, w: Worker, w': Worker)
    requires t in threads && n !in threads && WorkerOk(threads, i, w)
    requires WorkerMoved(t, threads[t], th', i == th'.call.worker, spawns, w, w')
    ensures WorkerOk(Moved(threads, t, th', spawns, n), i, w')
  {
    hide PoolMoved, HeldMoved, MarksMoved, CountsMoved, RefsExact, LocksAgree, HeldExact, RefreshExact, CountsExact,
         Moved;
    RefsMoved(threads, t, th', spawns, n, i, w, w');
    LocksMoved(threads, t, th', spawns, n, i, w, w');
    HeldKept(threads, t, th', spawns, n, i, w, w');
    MarksKept(threads, t, th', spawns, n, i, w, w');
    CountsKept(threads, t, th', spawns, n, i, w, w');
  }

  ghost predicate KeptAt(s: State, i: Wid) {
    i in s.workers && WorkerOk(s.threads, i, s.workers[i])
  }

  lemma AdvanceKeeps(s: State, t: Tid, ch: Choice, i: Wid)
    requires Inv(s) && Enabled(s, Advance(t, ch)) && i in s.workers
    ensures KeptAt(Apply(s, Advance(t, ch)), i)
  {
    hide Move, WorkerOk, WorkerMoved, Shape, Lineage.ThreadOk;
    var th, n := s.threads[t], s.nextTid;
    var w0 := s.workers[th.call.worker];
    var e := Move(t, th, w0, s.l2, s.now, ch);
    var th' := Thread(th.call, e.pc, e.lock);
    var s' := Apply(s, Advance(t, ch));
    ShapeHolds(Lineage.Past(s), t, th);
    MoveIsSeen(t, th, w0, s.l2, s.now, ch, s.workers[i]);
    MovedKeeps(s.threads, t, th', e.spawns, n, i, s.workers[i], s'.workers[i]);
  }

  /** A thread that no predicate counts can join without disturbing any worker. */
  lemma JoinKeeps(threads: map<Tid, Thread>, n: Tid, th: Thread, i: Wid, w: Worker)
    requires n !in threads && WorkerOk(threads, i, w)
    requires !InFlight(th) && !Refreshing(th) && !Uncounted(th) && !Undecided(th) && !RanProducer(th) &&
             !CameUpEmpty(th)
    ensures WorkerOk(threads[n := th], i, w)
  {
    var threads' := threads[n := th];
    forall k
      ensures Refs(w.pool, k) == Tally(threads', FlyersOf(i, k))
      ensures Tally(threads', RefreshersOf(i, k)) == if k in w.active then 1 else 0
    {
      TallyAdd(threads, n, th, FlyersOf(i, k));
      TallyAdd(threads, n, th, RefreshersOf(i, k));
    }
    TallyAdd(threads, n, th, UncountedOf(i));
    TallyAdd(threads, n, th, UndecidedOf(i));
    TallyAdd(threads, n, th, RanProducerOf(i));
    TallyAdd(threads, n, th, CameUpEmptyOf(i));
  }

  lemma BootKeeps(threads: map<Tid, Thread>, i: Wid, max: int)
    requires forall t :: t in threads ==> threads[t].call.worker != i
    ensures WorkerOk(threads, i, NewWorker(max))
  {
    var w := NewWorker(max);
    forall k
      ensures Refs(w.pool, k) == Tally(threads, FlyersOf(i, k))
      ensures Tally(threads, RefreshersOf(i, k)) == if k in w.active then 1 else 0
    {
      TallyZero(threads, FlyersOf(i, k));
      TallyZero(threads, RefreshersOf(i, k));
    }
    TallyZero(threads, UncountedOf(i));
    TallyZero(threads, UndecidedOf(i));
    TallyZero(threads, RanProducerOf(i));
    TallyZero(threads, CameUpEmptyOf(i));
  }

  lemma StepKeeps(s: State, a: Action)
    requires Inv(s) && Enabled(s, a)
    ensures Inv(Apply(s, a))
  {
    hide Move, WorkerOk, Lineage.Inv;
    Lineage.StepSound(s, a);
    var s' := Apply(s, a);
    forall i | i in s'.workers
      ensures WorkerOk(s'.threads, i, s'.workers[i])
    {
      match a {
        case Boot(w, max) =>
          if i == w {
            WorkersKnown(s);
            BootKeeps(s.threads, i, max);
          }
        case Start(c) =>
          WorkersKnown(s);
          JoinKeeps(s.threads, s.nextTid, Thread(c, FirstPC(c), 0), i, s.workers[i]);
        case Advance(t, ch) => AdvanceKeeps(s, t, ch, i);
        case Tick(_) =>
        case Invalidate(w, keys) => L1Irrelevant(s.threads, i, s.workers[i], s'.workers[i]);
        case LoseL2(_) =>
      }
    }
  }

  lemma WorkersKnown(s: State)
    requires Lineage.Inv(s)
    ensures forall t :: t in s.threads ==> t < s.nextTid && s.threads[t].call.worker in s.workers
  {
  }

  /** Nothing here depends on what the L1 holds. */
  lemma L1Irrelevant(threads: map<Tid, Thread>, i: Wid, w: Worker, w': Worker)
    requires WorkerOk(threads, i, w) && w' == w.(l1 := w'.l1)
    ensures WorkerOk(threads, i, w')
  {
  }

  lemma {:induction false} RunKeeps(s: State, run: seq<Action>)
    requires Inv(s) && Legal(s, run)
    ensures Inv(Final(s, run))
    decreases |run|
  {
    if run != [] {
      StepKeeps(s, run[0]);
      RunKeeps(Apply(s, run[0]), run[1..]);
    }
  }

  // ---------------------------------------------------------------- what it means

  /** At most one thread per worker and key is past the lock, so at most one producer runs. */
  lemma OneProducer(t0: real, run: seq<Action>, a: Tid, b: Tid)
    requires Legal(Init(t0), run)
    requires var s := Final(Init(t0), run);
             && a in s.threads && b in s.threads
             && s.threads[a].call.worker == s.threads[b].call.worker && s.threads[a].call.key == s.threads[b].call.key
             && Critical(s.threads[a]) && Critical(s.threads[b])
    ensures a == b
  {
    RunKeeps(Init(t0), run);
    var s := Final(Init(t0), run);
    var i := s.threads[a].call.worker;
    assert i in s.workers;
    assert WorkerOk(s.threads, i, s.workers[i]);
  }

  lemma IdleWorker(threads: map<Tid, Thread>, i: Wid, w: Worker)
    requires RefsExact(threads, i, w) && HeldExact(threads, i, w)
    requires forall t :: t in threads && threads[t].call.worker == i ==> !InFlight(threads[t])
    ensures w.pool.slots == map[] && w.held == map[]
  {
    forall k
      ensures k !in w.pool.slots
    {
      TallyZero(threads, FlyersOf(i, k));
    }
    forall l
      ensures l !in w.held
    {
    }
  }

  /** The lock pool is empty, and nothing is locked, when nobody is in flight. */
  lemma IdlePoolIsEmpty(t0: real, run: seq<Action>, i: Wid)
    requires Legal(Init(t0), run) && i in Final(Init(t0), run).workers
    requires var s := Final(Init(t0), run);
             forall t :: t in s.threads && s.threads[t].call.worker == i ==> !InFlight(s.threads[t])
    ensures var w := Final(Init(t0), run).workers[i]; w.pool.slots == map[] && w.held == map[]
  {
    RunKeeps(Init(t0), run);
    IdleWorker(Final(Init(t0), run).threads, i, Final(Init(t0), run).workers[i]);
  }

  lemma Reachable(t0: real, run: seq<Action>, i: Wid)
    requires Legal(Init(t0), run) && i in Final(Init(t0), run).workers
    ensures WorkerOk(Final(Init(t0), run).threads, i, Final(Init(t0), run).workers[i])
  {
    RunKeeps(Init(t0), run);
  }

  /** A tally of one belongs to one thread, a tally of zero to none. */
  lemma TallyAtMostOne(threads: map<Tid, Thread>, p: Thread -> bool)
    requires Tally(threads, p) <= 1
    ensures forall a, b :: a in threads && b in threads && p(threads[a]) && p(threads[b]) ==> a == b
    ensures Tally(threads, p) == 1 <==> exists t :: t in threads && p(threads[t])
  {
    var owners := Satisfying(threads, p);
    forall a, b | a in threads && b in threads && p(threads[a]) && p(threads[b])
      ensures a == b
    {
      assert a in owners && b in owners;
      assert owners == {a} + (owners - {a});
      assert |owners - {a}| == 0;
      assert b !in owners - {a};
    }
    TallyZero(threads, p);
  }

  /** At most one refresh per key is scheduled or running, and the key is marked exactly then. */
  lemma OneRefresh(t0: real, run: seq<Action>, i: Wid, k: Key)
    requires Legal(Init(t0), run) && i in Final(Init(t0), run).workers
    ensures var s := Final(Init(t0), run);
            && (forall a, b ::
                  (a in s.threads && b in s.threads
                   && RefreshersOf(i, k)(s.threads[a]) && RefreshersOf(i, k)(s.threads[b])) ==> a == b)
            && (k in s.workers[i].active <==> exists t :: t in s.threads && RefreshersOf(i, k)(s.threads[t]))
  {
    hide Refreshing;
    Reachable(t0, run, i);
    TallyAtMostOne(Final(Init(t0), run).threads, RefreshersOf(i, k));
  }

  /** In every state, started = completed + failed + those still to be counted, and every miss
      is answered by its own producer, by the re-check, is a plain read, or is undecided. */
  lemma Conservation(t0: real, run: seq<Action>, i: Wid)
    requires Legal(Init(t0), run) && i in Final(Init(t0), run).workers
    ensures var s := Final(Init(t0), run);
            var m := s.workers[i].m;
            && m.started == m.completed + m.failed + Tally(s.threads, UncountedOf(i))
            && m.l2Miss == Tally(s.threads, RanProducerOf(i)) + m.prevented + Tally(s.threads,
               CameUpEmptyOf(i)) + Tally(s.threads, UndecidedOf(i))
            && m.producerCalls == Tally(s.threads, RanProducerOf(i)) + m.background
  {
    hide Uncounted, RanProducer, CameUpEmpty, Undecided;
    Reachable(t0, run, i);
  }

  /** Once every call of the worker has finished: started = completed + failed, and if nobody
      used the plain read, misses = foreground producer runs + prevented stampedes. */
  lemma QuiescentCounts(t0: real, run: seq<Action>, i: Wid)
    requires Legal(Init(t0), run) && i in Final(Init(t0), run).workers
    requires var s := Final(Init(t0), run);
             forall t :: t in s.threads && s.threads[t].call.worker == i ==>
               s.threads[t].pc.Done? && !s.threads[t].pc.out.Missed?
    ensures var s := Final(Init(t0), run);
            var m := s.workers[i].m;
            && m.started == m.completed + m.failed
            && m.l2Miss == Tally(s.threads, RanProducerOf(i)) + m.prevented
  {
    Conservation(t0, run, i);
    var threads := Final(Init(t0), run).threads;
    TallyZero(threads, UncountedOf(i));
    TallyZero(threads, UndecidedOf(i));
    TallyZero(threads, CameUpEmptyOf(i));
  }

  // ---------------------------------------------------------------- progress

  /** How many steps a call still has before it; a background refresh counts with the step
      that spawns it. */
  function Rank(th: Thread): nat {
    match th.pc
    case ReadL1 => 34
    case ReadL2 => 33
    case PurgeL2 => 32
    case Backfill(_, _, _) => 19
    case Schedule(_) => 18
    case Submit(_) => 17
    case Acquire => 14
    case Wait => 13
    case RecheckL1 => 12
    case RecheckL2 => 11
    case RecheckPurge => 10
    case RecheckBackfill(_, _) => 9
    case Produce => 9
    case Producing => 8
    case Encode(_) => 7
    case PutL2(_, _) => 6
    case PutL1(_, _) => 5
    case Unlock(_) => 4
    case Release(_) => 3
    case CountError(_) => 2
    case Discard(_) => 1
    case Done(_) => 0
  }

  /** No call loops: every step brings its thread, and the refresh it may spawn, closer to the end. */
  lemma StepProgresses(t: Tid, th: Thread, w: Worker, l2: map<Key, Envelope>, now: real, ch: Choice)
    requires Ready(th, w)
    ensures var e := Move(t, th, w, l2, now, ch);
            Rank(Thread(th.call, e.pc, e.lock)) + (if e.spawns then Rank(Recruit(th.call)) else 0) < Rank(th)
  {
    hide Look, Purged, Seal, EntryOf, Window, L1.Read, L1.Peek, L1.Write, Flight.Acquire, Flight.Release;
  }

  /** The steps that the calls numbered below `n` still have before them, together. */
  function TotalRank(threads: map<Tid, Thread>, n: Tid): nat {
    if n == 0 then 0
    else TotalRank(threads, n - 1) + (if n - 1 in threads then Rank(threads[n - 1]) else 0)
  }

  lemma {:induction false} TotalReplace(threads: map<Tid, Thread>, n: Tid, t: Tid, th: Thread)
    ensures TotalRank(threads[t := th], n) ==
            if t < n then TotalRank(threads, n) - (if t in threads then Rank(threads[t]) else 0) + Rank(th)
            else TotalRank(threads, n)
  {
    hide Rank;
    if n > 0 {
      TotalReplace(threads, n - 1, t, th);
    }
  }

  function Starts(run: seq<Action>): nat {
    if run == [] then 0 else (if run[0].Start? then 1 else 0) + Starts(run[1..])
  }

  function Advances(run: seq<Action>): nat {
    if run == [] then 0 else (if run[0].Advance? then 1 else 0) + Advances(run[1..])
  }

  lemma StepIsPaid(s: State, a: Action)
    requires Lineage.Inv(s) && Enabled(s, a)
    ensures var s' := Apply(s, a);
            TotalRank(s'.threads, s'.nextTid) + (if a.Advance? then 1 else 0)
            <= TotalRank(s.threads, s.nextTid) + (if a.Start? then 34 else 0)
  {
    WorkersKnown(s);
    hide Move, Lineage.Inv;
    match a {
      case Start(c) =>
        TotalReplace(s.threads, s.nextTid, s.nextTid, Thread(c, FirstPC(c), 0));
      case Advance(t, ch) =>
        var th, n := s.threads[t], s.nextTid;
        var w := s.workers[th.call.worker];
        var e := Move(t, th, w, s.l2, s.now, ch);
        var th' := Thread(th.call, e.pc, e.lock);
        StepProgresses(t, th, w, s.l2, s.now, ch);
        TotalReplace(s.threads, n, t, th');
        if e.spawns {
          TotalReplace(s.threads[t := th'], n, n, Recruit(th.call));
        }
      case _ =>
    }
  }

  /** Every run is short: whoever schedules, n calls - with all the refreshes they spawn - take at
      most 34 n steps between them, and what is left of that bounds what is still to come. */
  lemma {:induction false} RunIsPaid(s: State, run: seq<Action>)
    requires Lineage.Inv(s) && Legal(s, run)
    ensures var f := Final(s, run);
            Advances(run) + TotalRank(f.threads, f.nextTid) <= TotalRank(s.threads, s.nextTid) + 34 * Starts(run)
    decreases |run|
  {
    hide TotalRank, Lineage.Inv, Apply, Enabled;
    if run != [] {
      StepIsPaid(s, run[0]);
      Lineage.StepSound(s, run[0]);
      RunIsPaid(Apply(s, run[0]), run[1..]);
    }
  }

  lemma RunsAreShort(t0: real, run: seq<Action>)
    requires Legal(Init(t0), run)
    ensures Advances(run) <= 34 * Starts(run)
  {
    RunIsPaid(Init(t0), run);
  }

  /** No deadlock: while some call is unfinished, some thread can take a step. */
  lemma SomebodyCanMove(t0: real, run: seq<Action>, t: Tid)
    requires Legal(Init(t0), run)
    requires var s := Final(Init(t0), run); t in s.threads && !s.threads[t].pc.Done?
    ensures var s := Final(Init(t0), run); exists u :: u in s.threads && CanStep(s, u)
  {
    hide RefsExact, LocksAgree, RefreshExact, CountsExact, Final;
    RunKeeps(Init(t0), run);
    var s := Final(Init(t0), run);
    var i := s.threads[t].call.worker;
    WorkersKnown(s);
    assert WorkerOk(s.threads, i, s.workers[i]);
    if !Ready(s.threads[t], s.workers[i]) {
      var u := s.workers[i].held[s.threads[t].lock];
      assert Critical(s.threads[u]);
      assert CanStep(s, u);
    } else {
      assert CanStep(s, t);
    }
  }

  /** Thread `u` is able to move now, whatever the adversary chooses for it. */
  predicate CanStep(s: State, u: Tid) {
    u in s.threads && s.threads[u].call.worker in s.workers && Ready(s.threads[u], s.workers[s.threads[u].call.worker])
  }
}
