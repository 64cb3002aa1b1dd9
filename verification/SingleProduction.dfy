/** Stampede protection end to end: however many callers ask one worker for one absent key,
    however they interleave with each other and with all traffic for other keys, and whatever
    the remote store does, the producer runs exactly once and everybody gets its value - as
    long as the key, once cached, neither expires nor leaves the worker's L1. */
module SingleProduction {
  import opened Tiered
  import Lineage
  import Coalescing

  /** The experiment: calls numbered from `first` on, to `worker`, for `key`, from the instant
      `start`, all with lifetimes of at least `life`. */
  datatype Setting = Setting(first: Tid, worker: Wid, key: Key, start: real, life: real)

  predicate CallOk(g: Setting, c: Call) {
    c.worker == g.worker && c.key == g.key && c.kind.GetOrSet? && c.ttl >= g.life && c.l1ttl >= g.life
  }

  /** New calls for the key are of the experiment, and its producers succeed with a value that
      can be encoded. Calls for other keys may be of any kind, on any worker, with any outcome. */
  predicate Friendly(g: Setting, s: State, a: Action) {
    match a
    case Start(c) => c.key == g.key ==> CallOk(g, c)
    case Advance(t, ch) =>
      t in s.threads && s.threads[t].call.key == g.key ==> ch.product.Some? && !ch.product.value.Opaque?
    case _ => true
  }

  /** The action does not evict, expire or remove the key from the worker's L1. */
  predicate KeepsKey(g: Setting, s: State, a: Action)
    requires Enabled(s, a)
  {
    g.worker in s.workers && g.key in s.workers[g.worker].l1.entries ==>
      g.worker in Apply(s, a).workers && g.key in Apply(s, a).workers[g.worker].l1.entries
  }

  predicate AllFriendly(g: Setting, s: State, run: seq<Action>)
    requires Legal(s, run)
    decreases |run|
  {
    run == [] ||
    (Friendly(g, s, run[0]) && KeepsKey(g, s, run[0]) && AllFriendly(g, Apply(s, run[0]), run[1..]))
  }

  /** The key is in neither tier and no call for it is under way; others may be. */
  ghost predicate Quiet(g: Setting, s: State) {
    && Coalescing.Inv(s)
    && s.nextTid == g.first && s.now == g.start
    && (forall t :: t in s.threads && s.threads[t].call.key == g.key ==> s.threads[t].pc.Done?)
    && g.worker in s.workers && s.workers[g.worker].max >= 1
    && g.key !in s.workers[g.worker].l1.entries
    && g.key !in s.l2
  }

  /** The producer runs of the experiment. */
  function Runs(g: Setting, s: State): set<Production> {
    set p | p in s.productions && p.tid >= g.first && p.key == g.key
  }

  predicate Taking(g: Setting, s: State, t: Tid) {
    t in s.threads && t >= g.first && s.threads[t].call.key == g.key
  }

  // ---------------------------------------------------------------- the two phases

  predicate Early(pc: PC) {
    pc.ReadL1? || pc.ReadL2? || pc.PurgeL2? || pc.Acquire? || pc.Wait?
    || pc.RecheckL1? || pc.RecheckL2? || pc.RecheckPurge? || pc.Produce? || pc.Producing?
  }

  predicate PastRecheck(pc: PC) {
    pc.RecheckL2? || pc.RecheckPurge? || pc.Produce? || pc.Producing?
  }

  predicate Storing(pc: PC) {
    pc.Encode? || pc.PutL2? || pc.PutL1?
  }

  predicate Given(v: Value, out: Outcome) {
    (out.Served? && !out.stale && Same(v, out.value)) || out == Produced(v)
  }

  predicate Lasting(g: Setting, env: Envelope) {
    env.expires >= g.start + g.life
  }

  /** Where a thread can be once `leader` has produced `v`. */
  predicate Late(g: Setting, leader: Tid, v: Value, t: Tid, pc: PC) {
    match pc
    case ReadL1 => true
    case ReadL2 => true
    case PurgeL2 => true
    case Acquire => true
    case Wait => true
    case RecheckL1 => true
    case Backfill(env, _, stale) => !stale && Same(v, env.value) && Lasting(g, env)
    case Encode(x) => t == leader && x == v
    case PutL2(x, env) => t == leader && x == v && env.value == Wire(v) && Lasting(g, env)
    case PutL1(x, env) => t == leader && x == v && env.value == Wire(v) && Lasting(g, env)
    case Unlock(out) => Given(v, out)
    case Release(out) => Given(v, out)
    case Done(out) => Given(v, out)
    case _ => false
  }

  predicate L1Ok(g: Setting, v: Value, entries: map<Key, L1.Entry<Value>>) {
    g.key in entries ==>
      && Same(v, entries[g.key].value)
      && entries[g.key].expiresEpoch >= g.start + g.life
      && entries[g.key].expiresMono >= g.start + g.life
  }

  predicate L2Ok(g: Setting, v: Value, l2: map<Key, Envelope>) {
    g.key in l2 ==> l2[g.key].value == Wire(v) && Lasting(g, l2[g.key])
  }

  ghost predicate Common(g: Setting, s: State) {
    && Coalescing.Inv(s)
    && g.first <= s.nextTid && g.start <= s.now
    && g.worker in s.workers && s.workers[g.worker].max >= 1
    && (forall t :: t in s.threads && s.threads[t].call.key == g.key ==>
          if t < g.first then s.threads[t].pc.Done? else CallOk(g, s.threads[t].call))
  }

  ghost predicate Before(g: Setting, s: State) {
    && Common(g, s)
    && Runs(g, s) == {}
    && g.key !in s.workers[g.worker].l1.entries
    && g.key !in s.l2
    && (forall t :: Taking(g, s, t) ==> Early(s.threads[t].pc))
  }

  ghost predicate After(g: Setting, s: State, p: Production) {
    && Common(g, s)
    && Runs(g, s) == {p} && p.worker == g.worker && p.key == g.key
    && Taking(g, s, p.tid) && !p.value.Opaque?
    && L1Ok(g, p.value, s.workers[g.worker].l1.entries)
    && L2Ok(g, p.value, s.l2)
    && (!Storing(s.threads[p.tid].pc) ==> g.key in s.workers[g.worker].l1.entries)
    && (forall t :: Taking(g, s, t) ==> Late(g, p.tid, p.value, t, s.threads[t].pc))
  }

  // ---------------------------------------------------------------- one thread step

  lemma MoveEarly(g: Setting, t: Tid, th: Thread, w: Worker, l2: map<Key, Envelope>, now: real, ch: Choice)
    requires CallOk(g, th.call) && Ready(th, w) && Early(th.pc)
    requires L1.WellFormed(w.l1) && g.key !in w.l1.entries && g.key !in l2
    requires ch.product.Some? && !ch.product.value.Opaque?
    ensures var e := Move(t, th, w, l2, now, ch);
            && g.key !in e.worker.l1.entries && g.key !in e.l2 && !e.spawns && e.worker.max == w.max
            && if th.pc.Producing?
               then e.pc == Encode(ch.product.value) &&
                 e.made == {Production(t, g.worker, g.key, ch.product.value, now)}
               else Early(e.pc) && e.made == {}
  {
  }

  ghost predicate LateKept(g: Setting, leader: Tid, v: Value, t: Tid, th: Thread, w: Worker, e: Effect) {
    && Late(g, leader, v, t, e.pc)
    && L1Ok(g, v, e.worker.l1.entries) && L2Ok(g, v, e.l2)
    && e.made == {} && !e.spawns && e.worker.max == w.max
    && (g.key in w.l1.entries || th.pc.PutL1? ==> g.key in e.worker.l1.entries)
    && (Storing(th.pc) && !th.pc.PutL1? ==> Storing(e.pc))
    && (Storing(e.pc) ==> Storing(th.pc))
  }

  lemma MoveLateRead(g: Setting, leader: Tid, v: Value, t: Tid, th: Thread, w: Worker, l2: map<Key, Envelope>,
        now: real, ch: Choice)
    requires CallOk(g, th.call) && Ready(th, w) && Late(g, leader, v, t, th.pc) && !v.Opaque?
    requires L1.WellFormed(w.l1) && w.max >= 1 && L1Ok(g, v, w.l1.entries) && L2Ok(g, v, l2)
    requires g.start <= now < g.start + g.life
    requires th.pc.ReadL1? || (th.pc.RecheckL1? && g.key in w.l1.entries)
    ensures LateKept(g, leader, v, t, th, w, Move(t, th, w, l2, now, ch))
  {
    L1.ReadFacts(w.l1, g.key, th.call.allowStale, now, now);
    L1.ReadFacts(w.l1, g.key, false, now, now);
  }

  lemma MoveLateFill(g: Setting, leader: Tid, v: Value, t: Tid, th: Thread, w: Worker, l2: map<Key, Envelope>,
        now: real, ch: Choice)
    requires CallOk(g, th.call) && Ready(th, w) && Late(g, leader, v, t, th.pc) && !v.Opaque?
    requires L1.WellFormed(w.l1) && w.max >= 1 && L1Ok(g, v, w.l1.entries) && L2Ok(g, v, l2)
    requires g.start <= now < g.start + g.life
    requires th.pc.Backfill? || th.pc.PutL1?
    ensures LateKept(g, leader, v, t, th, w, Move(t, th, w, l2, now, ch))
  {
    hide Look, Purged, Seal, L1.Read, L1.Peek, L1.Write, L1.WellFormed, Flight.Acquire, Flight.Release;
    L1.WriteFacts(w.l1, w.max, g.key,
      EntryOf(if th.pc.PutL1? then th.pc.value else th.pc.env.value, th.pc.env, th.call.l1ttl, now));
  }

  lemma MoveLateRest(g: Setting, leader: Tid, v: Value, t: Tid, th: Thread, w: Worker, l2: map<Key, Envelope>,
        now: real, ch: Choice)
    requires CallOk(g, th.call) && Ready(th, w) && Late(g, leader, v, t, th.pc) && !v.Opaque?
    requires L1.WellFormed(w.l1) && w.max >= 1 && L1Ok(g, v, w.l1.entries) && L2Ok(g, v, l2)
    requires g.start <= now < g.start + g.life
    requires !(th.pc.ReadL1? || th.pc.RecheckL1? || th.pc.Backfill? || th.pc.PutL1?)
    ensures LateKept(g, leader, v, t, th, w, Move(t, th, w, l2, now, ch))
  {
    hide L1.Read, L1.Peek, L1.Write, L1.WellFormed, EntryOf, Flight.Acquire, Flight.Release;
  }

  lemma MoveLate(g: Setting, leader: Tid, v: Value, t: Tid, th: Thread, w: Worker, l2: map<Key, Envelope>, now: real,
        ch: Choice)
    requires CallOk(g, th.call) && Ready(th, w) && Late(g, leader, v, t, th.pc) && !v.Opaque?
    requires L1.WellFormed(w.l1) && w.max >= 1 && L1Ok(g, v, w.l1.entries) && L2Ok(g, v, l2)
    requires g.start <= now < g.start + g.life
    requires th.pc.RecheckL1? ==> g.key in w.l1.entries
    ensures LateKept(g, leader, v, t, th, w, Move(t, th, w, l2, now, ch))
  {
    hide Move, LateKept;
    if th.pc.ReadL1? || th.pc.RecheckL1? {
      MoveLateRead(g, leader, v, t, th, w, l2, now, ch);
    } else if th.pc.Backfill? || th.pc.PutL1? {
      MoveLateFill(g, leader, v, t, th, w, l2, now, ch);
    } else {
      MoveLateRest(g, leader, v, t, th, w, l2, now, ch);
    }
  }

  /** A step on behalf of another key does nothing to this one, unless it evicts it. */
  ghost predicate Aside(key: Key, th: Thread, w: Worker, l2: map<Key, Envelope>, e: Effect) {
    && (key in e.worker.l1.entries ==> key in w.l1.entries && e.worker.l1.entries[key] == w.l1.entries[key])
    && (key in e.l2 <==> key in l2)
    && (key in l2 ==> e.l2[key] == l2[key])
    && (forall p :: p in e.made ==> p.key == th.call.key)
    && e.worker.max == w.max
  }

  predicate ReadsL1(pc: PC) {
    pc.ReadL1? || pc.RecheckL1?
  }

  predicate FillsL1(pc: PC) {
    pc.Backfill? || pc.RecheckBackfill? || pc.PutL1?
  }

  lemma AsideRead(key: Key, t: Tid, th: Thread, w: Worker, l2: map<Key, Envelope>, now: real, ch: Choice)
    requires th.call.key != key && L1.WellFormed(w.l1) && ReadsL1(th.pc)
    ensures Aside(key, th, w, l2, Move(t, th, w, l2, now, ch))
  {
    hide Look, Purged, Seal, EntryOf, Window, L1.Read, L1.Write, L1.WellFormed, Flight.Acquire, Flight.Release;
    L1.ReadFacts(w.l1, th.call.key, th.call.allowStale, now, now);
    L1.ReadFacts(w.l1, th.call.key, false, now, now);
  }

  lemma AsideFill(key: Key, t: Tid, th: Thread, w: Worker, l2: map<Key, Envelope>, now: real, ch: Choice)
    requires th.call.key != key && L1.WellFormed(w.l1) && FillsL1(th.pc)
    ensures Aside(key, th, w, l2, Move(t, th, w, l2, now, ch))
  {
    hide Look, Purged, Seal, EntryOf, Window, L1.Read, L1.Write, L1.WellFormed, Flight.Acquire, Flight.Release;
    var v := if th.pc.PutL1? then th.pc.value else th.pc.env.value;
    L1.WriteFacts(w.l1, w.max, th.call.key, EntryOf(v, th.pc.env, th.call.l1ttl, now));
  }

  lemma AsideRest(key: Key, t: Tid, th: Thread, w: Worker, l2: map<Key, Envelope>, now: real, ch: Choice)
    requires th.call.key != key && !ReadsL1(th.pc) && !FillsL1(th.pc)
    ensures Aside(key, th, w, l2, Move(t, th, w, l2, now, ch))
  {
    hide Look, Seal, L1.Read, L1.Write, L1.Peek, Flight.Acquire, Flight.Release;
  }

  lemma MoveAside(key: Key, t: Tid, th: Thread, w: Worker, l2: map<Key, Envelope>, now: real, ch: Choice)
    requires th.call.key != key && L1.WellFormed(w.l1)
    ensures Aside(key, th, w, l2, Move(t, th, w, l2, now, ch))
  {
    hide Move, Aside, L1.WellFormed;
    if ReadsL1(th.pc) {
      AsideRead(key, t, th, w, l2, now, ch);
    } else if FillsL1(th.pc) {
      AsideFill(key, t, th, w, l2, now, ch);
    } else {
      AsideRest(key, t, th, w, l2, now, ch);
    }
  }

  // ---------------------------------------------------------------- one system step

  /** Two threads of one worker and key are never both past the lock. */
  lemma Exclusive(s: State, a: Tid, b: Tid)
    requires Coalescing.Inv(s)
    requires a in s.threads && b in s.threads
    requires s.threads[a].call.worker == s.threads[b].call.worker && s.threads[a].call.key == s.threads[b].call.key
    requires Coalescing.Critical(s.threads[a]) && Coalescing.Critical(s.threads[b])
    ensures a == b
  {
    hide Lineage.ThreadOk, Coalescing.RefsExact, Coalescing.RefreshExact, Coalescing.CountsExact;
    Coalescing.WorkersKnown(s);
    var i := s.threads[a].call.worker;
    assert Coalescing.WorkerOk(s.threads, i, s.workers[i]);
  }

  lemma NumberIsNew(s: State)
    requires Coalescing.Inv(s)
    ensures s.nextTid !in s.threads
  {
  }

  lemma L1WellFormed(s: State, i: Wid)
    requires Coalescing.Inv(s) && i in s.workers
    ensures L1.WellFormed(s.workers[i].l1)
  {
    assert Lineage.L1Backed(s.writes, s.workers[i].l1);
  }

  lemma CommonKept(g: Setting, s: State, a: Action)
    requires Common(g, s) && Enabled(s, a) && Friendly(g, s, a)
    requires a.Advance? ==>
               var th := s.threads[a.tid];
               var e := Move(a.tid, th, s.workers[th.call.worker], s.l2, s.now, a.choice);
               (th.call.key == g.key ==> !e.spawns) && e.worker.max == s.workers[th.call.worker].max
    ensures Common(g, Apply(s, a))
  {
    hide Move, Coalescing.Inv;
    Coalescing.StepKeeps(s, a);
  }

  /** A step for another key, in terms of the whole system. */
  lemma OtherStep(g: Setting, s: State, t: Tid, ch: Choice)
    requires Common(g, s) && Enabled(s, Advance(t, ch)) && s.threads[t].call.key != g.key
    ensures var s' := Apply(s, Advance(t, ch));
            && Common(g, s') && Runs(g, s') == Runs(g, s)
            && (forall u :: Taking(g, s', u) <==> Taking(g, s, u))
            && (forall u :: Taking(g, s, u) ==> s'.threads[u] == s.threads[u])
            && (g.key in s'.l2 <==> g.key in s.l2) && (g.key in s.l2 ==> s'.l2[g.key] == s.l2[g.key])
            && var entries, entries' := s.workers[g.worker].l1.entries, s'.workers[g.worker].l1.entries;
               g.key in entries' ==> g.key in entries && entries'[g.key] == entries[g.key]
  {
    hide Move, Coalescing.Inv;
    var th, s' := s.threads[t], Apply(s, Advance(t, ch));
    var w := s.workers[th.call.worker];
    L1WellFormed(s, th.call.worker);
    NumberIsNew(s);
    MoveAside(g.key, t, th, w, s.l2, s.now, ch);
    CommonKept(g, s, Advance(t, ch));
    var e := Move(t, th, w, s.l2, s.now, ch);
    assert s'.productions == s.productions + e.made;
    assert Runs(g, s') == Runs(g, s);
  }

  lemma OwnWorker(g: Setting, s: State, t: Tid, ch: Choice)
    requires Common(g, s) && Enabled(s, Advance(t, ch)) && s.threads[t].call.key == g.key
    ensures Taking(g, s, t) && s.threads[t].call.worker == g.worker
  {
    hide Coalescing.Inv;
  }

  lemma StepBefore(g: Setting, s: State, a: Action)
    requires Before(g, s) && Enabled(s, a) && Friendly(g, s, a)
    ensures Before(g, Apply(s, a)) || exists p :: After(g, Apply(s, a), p)
  {
    hide Move, Coalescing.Inv;
    if a.Advance? {
      if s.threads[a.tid].call.key != g.key {
        OtherStep(g, s, a.tid, a.choice);
      } else {
        OwnStepBefore(g, s, a.tid, a.choice);
      }
    } else {
      CommonKept(g, s, a);
      NumberIsNew(s);
    }
  }

  lemma OwnStepBefore(g: Setting, s: State, t: Tid, ch: Choice)
    requires Before(g, s) && Enabled(s, Advance(t, ch)) && Friendly(g, s, Advance(t, ch))
    requires s.threads[t].call.key == g.key
    ensures var s' := Apply(s, Advance(t, ch)); Before(g, s') || exists p :: After(g, s', p)
  {
    hide Move, Coalescing.Inv;
    OwnWorker(g, s, t, ch);
    L1WellFormed(s, g.worker);
    var s', th, w := Apply(s, Advance(t, ch)), s.threads[t], s.workers[g.worker];
    var e := Move(t, th, w, s.l2, s.now, ch);
    MoveEarly(g, t, th, w, s.l2, s.now, ch);
    CommonKept(g, s, Advance(t, ch));
    assert s'.productions == s.productions + e.made;
    if th.pc.Producing? {
      var p := Production(t, g.worker, g.key, ch.product.value, s.now);
      assert p in s'.productions;
      assert Runs(g, s') == {p};
      forall u | Taking(g, s', u)
        ensures Late(g, t, p.value, u, s'.threads[u].pc)
      {
        if u != t && PastRecheck(s.threads[u].pc) {
          Exclusive(s, t, u);
        }
      }
      assert After(g, s', p);
    } else {
      assert Runs(g, s') == Runs(g, s);
    }
  }

  lemma StepAfter(g: Setting, s: State, a: Action, p: Production)
    requires After(g, s, p) && Enabled(s, a) && Friendly(g, s, a) && KeepsKey(g, s, a)
    requires s.now < g.start + g.life
    ensures After(g, Apply(s, a), p)
  {
    hide Move, Coalescing.Inv;
    var s' := Apply(s, a);
    assert p in Runs(g, s);
    if a.Advance? {
      if s.threads[a.tid].call.key != g.key {
        OtherStep(g, s, a.tid, a.choice);
      } else {
        OwnStepAfter(g, s, a.tid, a.choice, p);
      }
    } else {
      CommonKept(g, s, a);
      NumberIsNew(s);
      assert Runs(g, s') == Runs(g, s);
    }
  }

  lemma OwnStepAfter(g: Setting, s: State, t: Tid, ch: Choice, p: Production)
    requires After(g, s, p) && Enabled(s, Advance(t, ch)) && Friendly(g, s, Advance(t, ch))
    requires s.threads[t].call.key == g.key && s.now < g.start + g.life
    ensures After(g, Apply(s, Advance(t, ch)), p)
  {
    hide Move, Coalescing.Inv, LateKept;
    OwnWorker(g, s, t, ch);
    L1WellFormed(s, g.worker);
    var s', th, w := Apply(s, Advance(t, ch)), s.threads[t], s.workers[g.worker];
    var e := Move(t, th, w, s.l2, s.now, ch);
    assert p in Runs(g, s);
    if th.pc.RecheckL1? && Storing(s.threads[p.tid].pc) {
      Exclusive(s, t, p.tid);
    }
    MoveLate(g, p.tid, p.value, t, th, w, s.l2, s.now, ch);
    LateMeans(g, p.tid, p.value, t, th, w, e);
    CommonKept(g, s, Advance(t, ch));
    assert Runs(g, s') == Runs(g, s);
  }

  lemma LateMeans(g: Setting, leader: Tid, v: Value, t: Tid, th: Thread, w: Worker, e: Effect)
    requires LateKept(g, leader, v, t, th, w, e)
    ensures Late(g, leader, v, t, e.pc) && L1Ok(g, v, e.worker.l1.entries) && L2Ok(g, v, e.l2)
    ensures e.made == {} && !e.spawns && e.worker.max == w.max
    ensures g.key in w.l1.entries || th.pc.PutL1? ==> g.key in e.worker.l1.entries
    ensures Storing(th.pc) && !th.pc.PutL1? ==> Storing(e.pc)
    ensures Storing(e.pc) ==> Storing(th.pc)
  {
  }

  // ---------------------------------------------------------------- every run

  lemma {:induction false} ClockRuns(s: State, run: seq<Action>)
    requires Legal(s, run)
    ensures s.now <= Final(s, run).now
    decreases |run|
  {
    if run != [] {
      ClockRuns(Apply(s, run[0]), run[1..]);
    }
  }

  lemma {:induction false} AfterLasts(g: Setting, s: State, run: seq<Action>, p: Production)
    requires After(g, s, p) && Legal(s, run) && AllFriendly(g, s, run)
    requires Final(s, run).now < g.start + g.life
    ensures After(g, Final(s, run), p)
    decreases |run|
  {
    hide After, Friendly, KeepsKey, Apply, Enabled;
    ClockRuns(s, run);
    if run != [] {
      StepAfter(g, s, run[0], p);
      AfterLasts(g, Apply(s, run[0]), run[1..], p);
    }
  }

  lemma {:induction false} BeforeThenAfter(g: Setting, s: State, run: seq<Action>)
    requires Before(g, s) && Legal(s, run) && AllFriendly(g, s, run)
    requires Final(s, run).now < g.start + g.life
    ensures Before(g, Final(s, run)) || exists p :: After(g, Final(s, run), p)
    decreases |run|
  {
    hide After, Before, Friendly, KeepsKey, Apply, Enabled;
    if run != [] {
      StepBefore(g, s, run[0]);
      var s' := Apply(s, run[0]);
      if Before(g, s') {
        BeforeThenAfter(g, s', run[1..]);
      } else {
        var p :| After(g, s', p);
        AfterLasts(g, s', run[1..], p);
      }
    }
  }

  /** What the callers see: at most one producer run, and every finished call has its value. */
  ghost predicate AllServed(g: Setting, f: State) {
    && |Runs(g, f)| <= 1
    && (forall t :: Taking(g, f, t) && f.threads[t].pc.Done? ==>
          exists p :: Runs(g, f) == {p} && Given(p.value, f.threads[t].pc.out))
  }

  /** From any state in which nobody is busy with the key and neither tier has it, over any run
      shorter than the shortest lifetime in which the key, once in the worker's L1, stays there:
      the producer has run at most once, every finished call returned its value (or the JSON
      image of it, when it came through the remote store), and once any call has finished the
      producer has run exactly once. */
  lemma ProducerRunsOnce(g: Setting, s: State, run: seq<Action>)
    requires Quiet(g, s) && Legal(s, run) && AllFriendly(g, s, run)
    requires Final(s, run).now < g.start + g.life
    ensures AllServed(g, Final(s, run))
  {
    hide Coalescing.Inv, Final, AllFriendly, Legal;
    Fresh(g, s);
    BeforeThenAfter(g, s, run);
    var f := Final(s, run);
    if Before(g, f) {
    } else {
      var p :| After(g, f, p);
      assert Runs(g, f) == {p};
    }
  }

  lemma Fresh(g: Setting, s: State)
    requires Quiet(g, s)
    ensures Before(g, s)
  {
    Coalescing.WorkersKnown(s);
    forall p | p in s.productions
      ensures p.tid < g.first
    {
      assert p.tid in s.threads;
    }
    assert Runs(g, s) == {};
  }
}
