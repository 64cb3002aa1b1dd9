/** The tiered cache as a step system. Any number of workers, each with a private L1, a lock
    pool and a set of refreshing keys, share one L2 that may lose, drop or corrupt anything at
    any moment. Every call is a thread with a program counter; a step is one lock-protected
    access, one remote operation or one producer call. All choices that the program does not
    control - which thread runs, what the remote store does, what the producer returns, how
    much time passes - belong to the adversary who picks the actions. */
module Tiered {
  import opened Basics
  import L1
  import Flight

  type Key = L1.Key
  type Tid = nat
  type Wid = nat
  type LockId = Flight.LockId

  // ---------------------------------------------------------------- values and envelopes

  /** What a producer returns: a value in native form, one that already has JSON form, or
      one the serializer rejects. */
  datatype Value = Native(content: int) | Json(content: int) | Opaque(content: int)

  /** The value as it comes back from the remote store. */
  function Wire(v: Value): Value {
    if v.Opaque? then v else Json(v.content)
  }

  predicate Same(written: Value, seen: Value) {
    seen == written || seen == Wire(written)
  }

  datatype Envelope = Envelope(value: Value, created: real, expires: real, staleUntil: real)

  datatype Kind = GetOrSet | Get | Put(value: Value) | Refresh

  /** `began`: the clock when the call was made; a refresh has it from the call that scheduled it. */
  datatype Call = Call(
    worker: Wid, key: Key, kind: Kind, ttl: real, l1ttl: real, allowStale: bool, window: real, began: real)

  function Window(c: Call): real {
    if c.allowStale then c.window else 0.0
  }

  function Seal(v: Value, c: Call, now: real): Envelope {
    Envelope(Wire(v), now, now + c.ttl, now + c.ttl + Window(c))
  }

  function EntryOf(v: Value, env: Envelope, l1ttl: real, now: real): L1.Entry<Value> {
    L1.Entry(v, now, now + l1ttl, env.created, env.expires, env.staleUntil)
  }

  // ---------------------------------------------------------------- threads

  /** How a call ends. `Served` records the clock reading at which the tier was consulted. */
  datatype Outcome =
    | Served(value: Value, at: real, stale: bool)
    | Produced(value: Value)
    | Missed
    | Stored(ok: bool)
    | Refreshed
    | Raised

  datatype PC =
    | ReadL1
    | ReadL2
    | PurgeL2
    | Backfill(env: Envelope, at: real, stale: bool)
    | Schedule(out: Outcome)
    | Submit(out: Outcome)
    | Acquire
    | Wait
    | RecheckL1
    | RecheckL2
    | RecheckPurge
    | RecheckBackfill(env: Envelope, at: real)
    | Produce
    | Producing
    | Encode(value: Value)
    | PutL2(value: Value, env: Envelope)
    | PutL1(value: Value, env: Envelope)
    | Unlock(out: Outcome)
    | Release(out: Outcome)
    | CountError(out: Outcome)
    | Discard(out: Outcome)
    | Done(out: Outcome)

  datatype Thread = Thread(call: Call, pc: PC, lock: LockId)

  datatype Metrics = Metrics(
    l2Miss: nat, prevented: nat, producerCalls: nat,
    started: nat, completed: nat, failed: nat,
    foreground: nat, background: nat, plainMisses: nat)

  datatype Worker = Worker(
    l1: L1.Store<Value>, max: int, pool: Flight.Pool, held: map<LockId, Tid>, active: set<Key>, m: Metrics)

  function NewWorker(max: int): Worker {
    Worker(L1.Store([], map[]), max, Flight.Pool(map[], 0), map[], {}, Metrics(0, 0, 0, 0, 0, 0, 0, 0, 0))
  }

  // ---------------------------------------------------------------- history

  /** One sealed write: the value, when it was sealed, and the lifetimes it was given. */
  datatype Write = Write(key: Key, value: Value, created: real, ttl: real, window: real, tid: Tid)

  /** One producer run that returned. */
  datatype Production = Production(tid: Tid, worker: Wid, key: Key, value: Value, at: real)

  datatype State = State(
    now: real,
    threads: map<Tid, Thread>,
    nextTid: Tid,
    workers: map<Wid, Worker>,
    l2: map<Key, Envelope>,
    writes: set<Write>,
    productions: set<Production>,
    raised: set<Tid>)

  function Init(now: real): State {
    State(now, map[], 0, map[], map[], {}, {}, {})
  }

  // ---------------------------------------------------------------- the adversary's choices

  /** A remote read yields nothing (down, refused by the breaker, timed out), bytes that do
      not decode, or what is stored. */
  datatype Reply = Down | Garbage | Intact

  /** `applied`: whether a remote write or delete took effect, however it was reported.
      `product`: what the producer returns, or None when it raises. */
  datatype Choice = Choice(reply: Reply, applied: bool, product: Option<Value>)

  datatype Action =
    | Boot(worker: Wid, max: int)
    | Start(call: Call)
    | Advance(tid: Tid, choice: Choice)
    | Tick(elapsed: real)
    | Invalidate(worker: Wid, keys: set<Key>)
    | LoseL2(keys: set<Key>)

  // ---------------------------------------------------------------- one thread step

  datatype Found = Nothing | Corrupt | Hit(env: Envelope, stale: bool)

  function Look(l2: map<Key, Envelope>, key: Key, reply: Reply, allowStale: bool, now: real): Found {
    match reply
    case Down => Nothing
    case Garbage => Corrupt
    case Intact =>
      if key !in l2 then Nothing
      else if now < l2[key].expires then Hit(l2[key], false)
      else if allowStale && now < l2[key].staleUntil then Hit(l2[key], true)
      else Nothing
  }

  predicate Ready(th: Thread, w: Worker) {
    !th.pc.Done? && (th.pc.Wait? ==> th.lock !in w.held)
  }

  /** What a step changes: the thread itself, its worker, the remote store and the history. */
  datatype Effect = Effect(
    pc: PC, lock: LockId, worker: Worker, l2: map<Key, Envelope>,
    wrote: set<Write>, made: set<Production>, raised: bool, spawns: bool)

  function AfterL2Miss(th: Thread, e: Effect): Effect {
    var m := e.worker.m.(l2Miss := e.worker.m.l2Miss + 1);
    if th.call.kind.GetOrSet?
    then e.(worker := e.worker.(m := m), pc := Acquire)
    else e.(worker := e.worker.(m := m.(plainMisses := m.plainMisses + 1)), pc := Done(Missed))
  }

  function Purged(l2: map<Key, Envelope>, key: Key, applied: bool): map<Key, Envelope> {
    if applied then l2 - {key} else l2
  }

  function Fill(w: Worker, key: Key, v: Value, env: Envelope, l1ttl: real, now: real): Worker {
    w.(l1 := L1.Write(w.l1, w.max, key, EntryOf(v, env, l1ttl, now)))
  }

  function Move(t: Tid, th: Thread, w: Worker, l2: map<Key, Envelope>, now: real, ch: Choice): Effect {
    var key := th.call.key;
    var stay := Effect(th.pc, th.lock, w, l2, {}, {}, false, false);
    match th.pc
    case ReadL1 =>
      var e := stay.(worker := w.(l1 := L1.Read(w.l1, key, th.call.allowStale, now, now)));
      (match L1.Peek(w.l1.entries, key, th.call.allowStale, now, now)
       case Miss => e.(pc := ReadL2)
       case Fresh(entry) => e.(pc := Done(Served(entry.value, now, false)))
       case Stale(entry) =>
         var out := Served(entry.value, now, true);
         e.(pc := if th.call.kind.GetOrSet? then Schedule(out) else Done(out)))
    case ReadL2 =>
      (match Look(l2, key, ch.reply, th.call.allowStale, now)
       case Nothing => AfterL2Miss(th, stay)
       case Corrupt => stay.(pc := PurgeL2)
       case Hit(env, stale) => stay.(pc := Backfill(env, now, stale)))
    case PurgeL2 =>
      AfterL2Miss(th, stay.(l2 := Purged(l2, key, ch.applied)))
    case Backfill(env, at, stale) =>
      var out := Served(env.value, at, stale);
      stay.(worker := Fill(w, key, env.value, env, th.call.l1ttl, now),
      pc := if stale && th.call.kind.GetOrSet? then Schedule(out) else Done(out))
    case Schedule(out) =>
      if key in w.active then stay.(pc := Done(out))
      else stay.(worker := w.(active := w.active + {key}), pc := Submit(out))
    case Submit(out) =>
      stay.(worker := w.(m := w.m.(started := w.m.started + 1)), spawns := true, pc := Done(out))
    case Acquire =>
      var (pool, lock) := Flight.Acquire(w.pool, key);
      stay.(worker := w.(pool := pool), lock := lock, pc := Wait)
    case Wait =>
      stay.(worker := w.(held := w.held[th.lock := t]), pc := if th.call.kind.Refresh? then Produce else RecheckL1)
    case RecheckL1 =>
      var e := stay.(worker := w.(l1 := L1.Read(w.l1, key, false, now, now)));
      (match L1.Peek(w.l1.entries, key, false, now, now)
       case Fresh(entry) =>
         e.(worker := e.worker.(m := w.m.(prevented := w.m.prevented + 1)),
           pc := Unlock(Served(entry.value, now, false)))
       case _ => e.(pc := RecheckL2))
    case RecheckL2 =>
      (match Look(l2, key, ch.reply, false, now)
       case Nothing => stay.(pc := Produce)
       case Corrupt => stay.(pc := RecheckPurge)
       case Hit(env, _) =>
         stay.(worker := w.(m := w.m.(prevented := w.m.prevented + 1)), pc := RecheckBackfill(env, now)))
    case RecheckPurge =>
      stay.(l2 := Purged(l2, key, ch.applied), pc := Produce)
    case RecheckBackfill(env, at) =>
      stay.(worker := Fill(w, key, env.value, env, th.call.l1ttl, now), pc := Unlock(Served(env.value, at, false)))
    case Produce =>
      var m := w.m.(producerCalls := w.m.producerCalls + 1);
      stay.(worker := w.(m := if th.call.kind.Refresh? then m.(background := m.background + 1)
        else m.(foreground := m.foreground + 1)),
      pc := Producing)
    case Producing =>
      (match ch.product
       case Some(v) => stay.(made := {Production(t, th.call.worker, key, v, now)}, pc := Encode(v))
       case None => stay.(raised := true, pc := Unlock(Raised)))
    case Encode(v) =>
      if v.Opaque? then
        stay.(pc := match th.call.kind
        case Refresh => Unlock(Raised)
        case Put(_) => Done(Stored(false))
        case _ => Unlock(Produced(v)))
      else
        stay.(wrote := {Write(key, v, now, th.call.ttl, Window(th.call), t)}, pc := PutL2(v, Seal(v, th.call, now)))
    case PutL2(v, env) =>
      stay.(l2 := if ch.applied then l2[key := env] else l2, pc := PutL1(v, env))
    case PutL1(v, env) =>
      var filled := Fill(w, key, v, env, th.call.l1ttl, now);
      (match th.call.kind
       case Refresh =>
         stay.(worker := filled.(m := w.m.(completed := w.m.completed + 1)), pc := Unlock(Refreshed))
       case Put(_) => stay.(worker := filled, pc := Done(Stored(true)))
       case _ => stay.(worker := filled, pc := Unlock(Produced(v))))
    case Unlock(out) =>
      stay.(worker := w.(held := w.held - {th.lock}), pc := Release(out))
    case Release(out) =>
      stay.(worker := w.(pool := Flight.Release(w.pool, key)),
      pc := if !th.call.kind.Refresh? then Done(out) else if out.Raised? then CountError(out) else Discard(out))
    case CountError(out) =>
      stay.(worker := w.(m := w.m.(failed := w.m.failed + 1)), pc := Discard(out))
    case Discard(out) =>
      stay.(worker := w.(active := w.active - {key}), pc := Done(out))
    case Done(_) => stay
  }

  // ---------------------------------------------------------------- one system step

  function FirstPC(c: Call): PC {
    match c.kind
    case Put(v) => Encode(v)
    case Refresh => Acquire
    case _ => ReadL1
  }

  predicate Enabled(s: State, a: Action) {
    match a
    case Boot(w, _) => w !in s.workers
    case Start(c) => c.worker in s.workers && !c.kind.Refresh? && c.began == s.now
    case Advance(t, _) =>
      t in s.threads && s.threads[t].call.worker in s.workers &&
        Ready(s.threads[t], s.workers[s.threads[t].call.worker])
    case Tick(elapsed) => elapsed >= 0.0
    case Invalidate(w, _) => w in s.workers
    case LoseL2(_) => true
  }

  function Spawn(s: State, c: Call): State {
    s.(threads := s.threads[s.nextTid := Thread(c, FirstPC(c), 0)], nextTid := s.nextTid + 1)
  }

  function Land(s: State, t: Tid, e: Effect): State
    requires t in s.threads
  {
    var c := s.threads[t].call;
    var s' := s.(
      threads := s.threads[t := Thread(c, e.pc, e.lock)],
      workers := s.workers[c.worker := e.worker],
      l2 := e.l2,
      writes := s.writes + e.wrote,
      productions := s.productions + e.made,
      raised := if e.raised then s.raised + {t} else s.raised);
    if e.spawns then Spawn(s', c.(kind := Refresh)) else s'
  }

  function Apply(s: State, a: Action): State
    requires Enabled(s, a)
  {
    match a
    case Boot(w, max) => s.(workers := s.workers[w := NewWorker(max)])
    case Start(c) => Spawn(s, c)
    case Advance(t, ch) =>
      var th := s.threads[t];
      Land(s, t, Move(t, th, s.workers[th.call.worker], s.l2, s.now, ch))
    case Tick(elapsed) => s.(now := s.now + elapsed)
    case Invalidate(w, keys) =>
      s.(workers := s.workers[w := s.workers[w].(l1 := L1.Remove(s.workers[w].l1, keys))])
    case LoseL2(keys) => s.(l2 := s.l2 - keys)
  }

  // ---------------------------------------------------------------- runs

  predicate Legal(s: State, run: seq<Action>)
    decreases |run|
  {
    run == [] || (Enabled(s, run[0]) && Legal(Apply(s, run[0]), run[1..]))
  }

  function Final(s: State, run: seq<Action>): State
    requires Legal(s, run)
    decreases |run|
  {
    if run == [] then s else Final(Apply(s, run[0]), run[1..])
  }
}
