/** Where every cached value comes from, how old it may be when served, and what a failing
    producer leaves behind - for every reachable state of the tiered cache. */
module Lineage {
  import opened Tiered

  datatype History = History(now: real, writes: set<Write>, productions: set<Production>, raised: set<Tid>)

  function Past(s: State): History {
    History(s.now, s.writes, s.productions, s.raised)
  }

  // ---------------------------------------------------------------- what is promised

  /** The value and the three timestamps are those of one write of this very key. */
  ghost predicate Backed(ws: set<Write>, key: Key, v: Value, created: real, expires: real, staleUntil: real) {
    exists w :: w in ws && w.key == key && Same(w.value, v)
                && created == w.created && expires == w.created + w.ttl && staleUntil == expires + w.window
  }

  ghost predicate EnvBacked(ws: set<Write>, key: Key, env: Envelope) {
    Backed(ws, key, env.value, env.created, env.expires, env.staleUntil)
  }

  ghost predicate EntryBacked(ws: set<Write>, key: Key, e: L1.Entry<Value>) {
    Backed(ws, key, e.value, e.createdEpoch, e.expiresEpoch, e.staleUntil)
  }

  /** At the clock reading `at`, made during the call, some write of the key was younger than its
      own ttl, or - for callers that accept stale values - than its ttl plus its stale window. */
  ghost predicate Admissible(ws: set<Write>, c: Call, v: Value, at: real, stale: bool) {
    && c.began <= at
    && (stale ==> c.allowStale)
    && exists w :: w in ws && w.key == c.key && Same(w.value, v)
                   && w.created <= at < w.created + w.ttl + (if stale then w.window else 0.0)
  }

  /** The producer of this very call returned `v`. */
  ghost predicate Ran(h: History, t: Tid, c: Call, v: Value) {
    exists p :: p in h.productions && p.tid == t && p.worker == c.worker && p.key == c.key && p.value == v &&
      p.at <= h.now
  }

  /** What each way of ending means, by kind of call. */
  ghost predicate OutcomeOk(h: History, t: Tid, c: Call, out: Outcome) {
    match out
    case Served(v, at, stale) => !c.kind.Refresh? && !c.kind.Put? && at <= h.now &&
      Admissible(h.writes, c, v, at, stale)
    case Produced(v) => c.kind.GetOrSet? && Ran(h, t, c, v)
    case Missed => c.kind.Get?
    case Stored(_) => c.kind.Put?
    case Refreshed => c.kind.Refresh?
    case Raised =>
      || (c.kind.GetOrSet? && t in h.raised)
      || (c.kind.Refresh? && (t in h.raised || exists v: Value :: v.Opaque? && Ran(h, t, c, v)))
  }

  ghost predicate WriteOk(h: History, threads: map<Tid, Thread>, w: Write) {
    && w.created <= h.now
    && !w.value.Opaque?
    && w.tid in threads
    && threads[w.tid].call.key == w.key
    && w.ttl == threads[w.tid].call.ttl
    && w.window == Window(threads[w.tid].call)
    && (threads[w.tid].call.kind == Put(w.value)
        || exists p ::
             p in h.productions && p.tid == w.tid && p.key == w.key && p.value == w.value && p.at <= w.created)
  }

  // ---------------------------------------------------------------- the invariant

  /** Nothing produced or written under this thread's name yet. */
  ghost predicate Blank(h: History, t: Tid) {
    && t !in h.raised
    && (forall w :: w in h.writes ==> w.tid != t)
    && (forall p :: p in h.productions ==> p.tid != t)
  }

  ghost predicate Source(h: History, t: Tid, c: Call, v: Value) {
    c.kind == Put(v) || ((c.kind.GetOrSet? || c.kind.Refresh?) && Ran(h, t, c, v))
  }

  ghost predicate Unwritten(h: History, t: Tid) {
    && t !in h.raised
    && forall w :: w in h.writes ==> w.tid != t
  }

  ghost predicate ThreadOk(h: History, t: Tid, th: Thread) {
    var c := th.call;
    c.began <= h.now &&
    match th.pc
    case ReadL1 => (c.kind.GetOrSet? || c.kind.Get?) && Blank(h, t)
    case ReadL2 => (c.kind.GetOrSet? || c.kind.Get?) && Blank(h, t)
    case PurgeL2 => (c.kind.GetOrSet? || c.kind.Get?) && Blank(h, t)
    case Backfill(env, at, stale) => (c.kind.GetOrSet? || c.kind.Get?) && at <= h.now && Blank(h, t) &&
      EnvBacked(h.writes, c.key, env) && Admissible(h.writes, c, env.value, at, stale)
    case Schedule(out) => c.kind.GetOrSet? && out.Served? && OutcomeOk(h, t, c, out) && Blank(h, t)
    case Submit(out) => c.kind.GetOrSet? && out.Served? && OutcomeOk(h, t, c, out) && Blank(h, t)
    case Acquire => (c.kind.GetOrSet? || c.kind.Refresh?) && Blank(h, t)
    case Wait => (c.kind.GetOrSet? || c.kind.Refresh?) && Blank(h, t)
    case RecheckL1 => c.kind.GetOrSet? && Blank(h, t)
    case RecheckL2 => c.kind.GetOrSet? && Blank(h, t)
    case RecheckPurge => c.kind.GetOrSet? && Blank(h, t)
    case RecheckBackfill(env, at) => c.kind.GetOrSet? && at <= h.now && Blank(h, t) &&
      EnvBacked(h.writes, c.key, env) && Admissible(h.writes, c, env.value, at, false)
    case Produce => (c.kind.GetOrSet? || c.kind.Refresh?) && Blank(h, t)
    case Producing => (c.kind.GetOrSet? || c.kind.Refresh?) && Blank(h, t)
    case Encode(v) => Source(h, t, c, v) && Unwritten(h, t)
    case PutL2(v, env) => Source(h, t, c, v) && t !in h.raised && EnvBacked(h.writes, c.key, env) &&
      EnvBacked(h.writes, c.key, env.(value := v))
    case PutL1(v, env) => Source(h, t, c, v) && t !in h.raised && EnvBacked(h.writes, c.key, env.(value := v))
    case Unlock(out) => (c.kind.GetOrSet? || c.kind.Refresh?) && OutcomeOk(h, t, c, out)
    case Release(out) => (c.kind.GetOrSet? || c.kind.Refresh?) && OutcomeOk(h, t, c, out)
    case CountError(out) => c.kind.Refresh? && OutcomeOk(h, t, c, out)
    case Discard(out) => c.kind.Refresh? && OutcomeOk(h, t, c, out)
    case Done(out) => OutcomeOk(h, t, c, out)
  }

  ghost predicate L1Backed(ws: set<Write>, l1: L1.Store<Value>) {
    L1.WellFormed(l1) && forall k :: k in l1.entries ==> EntryBacked(ws, k, l1.entries[k])
  }

  ghost predicate L2Backed(ws: set<Write>, l2: map<Key, Envelope>) {
    forall k :: k in l2 ==> EnvBacked(ws, k, l2[k])
  }

  /** A thread whose producer raised has produced nothing and written nothing. */
  ghost predicate RaisersClean(h: History) {
    forall t :: t in h.raised ==>
      && (forall w :: w in h.writes ==> w.tid != t)
      && (forall p :: p in h.productions ==> p.tid != t)
  }

  ghost predicate Inv(s: State) {
    var h := Past(s);
    && (forall t :: t in s.threads ==>
          t < s.nextTid && s.threads[t].call.worker in s.workers && ThreadOk(h, t, s.threads[t]))
    && (forall w :: w in s.workers ==> L1Backed(s.writes, s.workers[w].l1))
    && L2Backed(s.writes, s.l2)
    && (forall w :: w in s.writes ==> WriteOk(h, s.threads, w))
    && (forall p :: p in s.productions ==> p.tid in s.threads && p.at <= s.now)
    && (forall t :: t in s.raised ==> t in s.threads)
    && RaisersClean(h)
  }

  // ---------------------------------------------------------------- history only grows

  predicate Grows(h: History, h': History) {
    h.now <= h'.now && h.writes <= h'.writes && h.productions <= h'.productions && h.raised <= h'.raised
  }

  /** Nothing new in the history bears the name of `t`. */
  ghost predicate NotBy(h: History, h': History, t: Tid) {
    && (forall w :: w in h'.writes && w !in h.writes ==> w.tid != t)
    && (forall p :: p in h'.productions && p !in h.productions ==> p.tid != t)
    && (t in h'.raised ==> t in h.raised)
  }

  lemma BackedGrows(ws: set<Write>, ws': set<Write>, key: Key, v: Value, created: real, expires: real, staleUntil: real)
    requires ws <= ws' && Backed(ws, key, v, created, expires, staleUntil)
    ensures Backed(ws', key, v, created, expires, staleUntil)
  {
  }

  lemma AdmissibleGrows(ws: set<Write>, ws': set<Write>, c: Call, v: Value, at: real, stale: bool)
    requires ws <= ws' && Admissible(ws, c, v, at, stale)
    ensures Admissible(ws', c, v, at, stale)
  {
  }

  lemma RanGrows(h: History, h': History, t: Tid, c: Call, v: Value)
    requires Grows(h, h') && Ran(h, t, c, v)
    ensures Ran(h', t, c, v)
  {
  }

  lemma OutcomeGrows(h: History, h': History, t: Tid, c: Call, out: Outcome)
    requires Grows(h, h') && OutcomeOk(h, t, c, out)
    ensures OutcomeOk(h', t, c, out)
  {
    match out {
      case Served(v, at, stale) => AdmissibleGrows(h.writes, h'.writes, c, v, at, stale);
      case Produced(v) => RanGrows(h, h', t, c, v);
      case Raised =>
        if t !in h'.raised {
          var v: Value :| v.Opaque? && Ran(h, t, c, v);
          RanGrows(h, h', t, c, v);
        }
      case _ =>
    }
  }

  lemma ThreadGrows(h: History, h': History, t: Tid, th: Thread)
    requires Grows(h, h') && NotBy(h, h', t) && ThreadOk(h, t, th)
    ensures ThreadOk(h', t, th)
  {
    var c := th.call;
    match th.pc {
      case Backfill(env, at, stale) => AdmissibleGrows(h.writes, h'.writes, c, env.value, at, stale);
      case RecheckBackfill(env, at) => AdmissibleGrows(h.writes, h'.writes, c, env.value, at, false);
      case Schedule(out) => OutcomeGrows(h, h', t, c, out);
      case Submit(out) => OutcomeGrows(h, h', t, c, out);
      case Encode(v) => SourceGrows(h, h', t, c, v);
      case PutL2(v, env) => SourceGrows(h, h', t, c, v);
      case PutL1(v, env) => SourceGrows(h, h', t, c, v);
      case Unlock(out) => OutcomeGrows(h, h', t, c, out);
      case Release(out) => OutcomeGrows(h, h', t, c, out);
      case CountError(out) => OutcomeGrows(h, h', t, c, out);
      case Discard(out) => OutcomeGrows(h, h', t, c, out);
      case Done(out) => OutcomeGrows(h, h', t, c, out);
      case _ =>
    }
  }

  lemma SourceGrows(h: History, h': History, t: Tid, c: Call, v: Value)
    requires Grows(h, h') && Source(h, t, c, v)
    ensures Source(h', t, c, v)
  {
    if c.kind != Put(v) {
      RanGrows(h, h', t, c, v);
    }
  }

  // ---------------------------------------------------------------- one thread step

  function After(h: History, t: Tid, e: Effect): History {
    History(h.now, h.writes + e.wrote, h.productions + e.made, if e.raised then h.raised + {t} else h.raised)
  }

  ghost predicate Dated(h: History) {
    forall w :: w in h.writes ==> w.created <= h.now
  }

  lemma ReadL1Backed(h: History, c: Call, l1: L1.Store<Value>, allowStale: bool)
    requires c.began <= h.now && L1Backed(h.writes, l1) && Dated(h)
    requires allowStale ==> c.allowStale
    ensures L1Backed(h.writes, L1.Read(l1, c.key, allowStale, h.now, h.now))
    ensures match L1.Peek(l1.entries, c.key, allowStale, h.now, h.now)
            case Miss => true
            case Fresh(e) => Admissible(h.writes, c, e.value, h.now, false)
            case Stale(e) => allowStale && Admissible(h.writes, c, e.value, h.now, true)
  {
    L1.ReadFacts(l1, c.key, allowStale, h.now, h.now);
    if c.key in l1.entries {
      assert EntryBacked(h.writes, c.key, l1.entries[c.key]);
    }
  }

  lemma LookBacked(h: History, c: Call, l2: map<Key, Envelope>, reply: Reply, allowStale: bool)
    requires c.began <= h.now && L2Backed(h.writes, l2) && Dated(h)
    requires allowStale ==> c.allowStale
    ensures match Look(l2, c.key, reply, allowStale, h.now)
            case Hit(env, stale) => EnvBacked(h.writes, c.key, env) &&
              Admissible(h.writes, c, env.value, h.now, stale) && (stale ==> allowStale)
            case _ => true
  {
    if c.key in l2 {
      assert EnvBacked(h.writes, c.key, l2[c.key]);
    }
  }

  lemma FillBacked(ws: set<Write>, w: Worker, key: Key, v: Value, env: Envelope, l1ttl: real, now: real)
    requires L1Backed(ws, w.l1) && EnvBacked(ws, key, env.(value := v))
    ensures L1Backed(ws, Fill(w, key, v, env, l1ttl, now).l1)
  {
    L1.WriteFacts(w.l1, w.max, key, EntryOf(v, env, l1ttl, now));
  }

  lemma SealBacked(ws: set<Write>, t: Tid, c: Call, v: Value, now: real)
    ensures var env := Seal(v, c, now);
            var ws' := ws + {Write(c.key, v, now, c.ttl, Window(c), t)};
            EnvBacked(ws', c.key, env) && EnvBacked(ws', c.key, env.(value := v))
  {
    var ws' := ws + {Write(c.key, v, now, c.ttl, Window(c), t)};
    assert Write(c.key, v, now, c.ttl, Window(c), t) in ws';
  }

  lemma ReadL1Sound(h: History, t: Tid, th: Thread, w: Worker, l2: map<Key, Envelope>, ch: Choice)
    requires ThreadOk(h, t, th) && L1Backed(h.writes, w.l1) && L2Backed(h.writes, l2) && Dated(h)
    requires Ready(th, w)
    requires th.pc.ReadL1?
    ensures var e := Move(t, th, w, l2, h.now, ch);
            ThreadOk(After(h, t, e), t, Thread(th.call, e.pc, e.lock))
  {
    assert After(h, t, Move(t, th, w, l2, h.now, ch)) == h;
    ReadL1Backed(h, th.call, w.l1, th.call.allowStale);
  }

  lemma ReadL2Sound(h: History, t: Tid, th: Thread, w: Worker, l2: map<Key, Envelope>, ch: Choice)
    requires ThreadOk(h, t, th) && L1Backed(h.writes, w.l1) && L2Backed(h.writes, l2) && Dated(h)
    requires Ready(th, w)
    requires th.pc.ReadL2?
    ensures var e := Move(t, th, w, l2, h.now, ch);
            ThreadOk(After(h, t, e), t, Thread(th.call, e.pc, e.lock))
  {
    assert After(h, t, Move(t, th, w, l2, h.now, ch)) == h;
    LookBacked(h, th.call, l2, ch.reply, th.call.allowStale);
  }

  lemma RecheckSound(h: History, t: Tid, th: Thread, w: Worker, l2: map<Key, Envelope>, ch: Choice)
    requires ThreadOk(h, t, th) && L1Backed(h.writes, w.l1) && L2Backed(h.writes, l2) && Dated(h)
    requires Ready(th, w)
    requires th.pc.RecheckL1? || th.pc.RecheckL2?
    ensures var e := Move(t, th, w, l2, h.now, ch);
            ThreadOk(After(h, t, e), t, Thread(th.call, e.pc, e.lock))
  {
    assert After(h, t, Move(t, th, w, l2, h.now, ch)) == h;
    if th.pc.RecheckL1? {
      ReadL1Backed(h, th.call, w.l1, false);
    } else {
      LookBacked(h, th.call, l2, ch.reply, false);
    }
  }

  lemma ProducingSound(h: History, t: Tid, th: Thread, w: Worker, l2: map<Key, Envelope>, ch: Choice)
    requires ThreadOk(h, t, th) && L1Backed(h.writes, w.l1) && L2Backed(h.writes, l2) && Dated(h)
    requires Ready(th, w)
    requires th.pc.Producing?
    ensures var e := Move(t, th, w, l2, h.now, ch);
            ThreadOk(After(h, t, e), t, Thread(th.call, e.pc, e.lock))
  {
    var h' := After(h, t, Move(t, th, w, l2, h.now, ch));
    if ch.product.Some? {
      assert Production(t, th.call.worker, th.call.key, ch.product.value, h.now) in h'.productions;
      assert Ran(h', t, th.call, ch.product.value);
    }
  }

  lemma EncodeSound(h: History, t: Tid, th: Thread, w: Worker, l2: map<Key, Envelope>, ch: Choice)
    requires ThreadOk(h, t, th) && L1Backed(h.writes, w.l1) && L2Backed(h.writes, l2) && Dated(h)
    requires Ready(th, w)
    requires th.pc.Encode?
    ensures var e := Move(t, th, w, l2, h.now, ch);
            ThreadOk(After(h, t, e), t, Thread(th.call, e.pc, e.lock))
  {
    SealBacked(h.writes, t, th.call, th.pc.value, h.now);
    SourceGrows(h, After(h, t, Move(t, th, w, l2, h.now, ch)), t, th.call, th.pc.value);
  }

  predicate Touching(pc: PC) {
    pc.ReadL1? || pc.ReadL2? || pc.RecheckL1? || pc.RecheckL2? || pc.Producing? || pc.Encode?
  }

  lemma PlainSound(h: History, t: Tid, th: Thread, w: Worker, l2: map<Key, Envelope>, ch: Choice)
    requires ThreadOk(h, t, th) && L1Backed(h.writes, w.l1) && L2Backed(h.writes, l2) && Dated(h)
    requires Ready(th, w)
    requires Waiting(th.pc)
    ensures var e := Move(t, th, w, l2, h.now, ch);
            ThreadOk(After(h, t, e), t, Thread(th.call, e.pc, e.lock))
  {
    assert After(h, t, Move(t, th, w, l2, h.now, ch)) == h;
  }

  lemma StoringSound(h: History, t: Tid, th: Thread, w: Worker, l2: map<Key, Envelope>, ch: Choice)
    requires ThreadOk(h, t, th) && L1Backed(h.writes, w.l1) && L2Backed(h.writes, l2) && Dated(h)
    requires Ready(th, w)
    requires Storing(th.pc)
    ensures var e := Move(t, th, w, l2, h.now, ch);
            ThreadOk(After(h, t, e), t, Thread(th.call, e.pc, e.lock))
  {
    hide L1Backed, L2Backed, Dated;
    assert After(h, t, Move(t, th, w, l2, h.now, ch)) == h;
  }

  lemma TailSound(h: History, t: Tid, th: Thread, w: Worker, l2: map<Key, Envelope>, ch: Choice)
    requires ThreadOk(h, t, th) && L1Backed(h.writes, w.l1) && L2Backed(h.writes, l2) && Dated(h)
    requires Ready(th, w)
    requires th.pc.Unlock? || th.pc.Release? || th.pc.CountError? || th.pc.Discard? || th.pc.Done?
    ensures var e := Move(t, th, w, l2, h.now, ch);
            ThreadOk(After(h, t, e), t, Thread(th.call, e.pc, e.lock))
  {
    assert After(h, t, Move(t, th, w, l2, h.now, ch)) == h;
  }

  predicate Waiting(pc: PC) {
    pc.PurgeL2? || pc.Backfill? || pc.Schedule? || pc.Submit? || pc.Acquire? || pc.Wait?
  }

  predicate Storing(pc: PC) {
    pc.RecheckPurge? || pc.RecheckBackfill? || pc.Produce? || pc.PutL2? || pc.PutL1?
  }

  lemma TouchingSound(h: History, t: Tid, th: Thread, w: Worker, l2: map<Key, Envelope>, ch: Choice)
    requires ThreadOk(h, t, th) && L1Backed(h.writes, w.l1) && L2Backed(h.writes, l2) && Dated(h)
    requires Ready(th, w) && Touching(th.pc)
    ensures var e := Move(t, th, w, l2, h.now, ch);
            ThreadOk(After(h, t, e), t, Thread(th.call, e.pc, e.lock))
  {
    hide Move, ThreadOk, L1Backed, L2Backed, Dated, After, Ready;
    if th.pc.ReadL1? {
      ReadL1Sound(h, t, th, w, l2, ch);
    } else if th.pc.ReadL2? {
      ReadL2Sound(h, t, th, w, l2, ch);
    } else if th.pc.Producing? {
      ProducingSound(h, t, th, w, l2, ch);
    } else if th.pc.Encode? {
      EncodeSound(h, t, th, w, l2, ch);
    } else {
      RecheckSound(h, t, th, w, l2, ch);
    }
  }

  /** The step keeps its own thread within the promises. */
  lemma MoveSound(h: History, t: Tid, th: Thread, w: Worker, l2: map<Key, Envelope>, ch: Choice)
    requires ThreadOk(h, t, th) && L1Backed(h.writes, w.l1) && L2Backed(h.writes, l2) && Dated(h)
    requires Ready(th, w)
    ensures var e := Move(t, th, w, l2, h.now, ch);
            ThreadOk(After(h, t, e), t, Thread(th.call, e.pc, e.lock))
  {
    hide Move, ThreadOk, L1Backed, L2Backed, Dated, After;
    if Touching(th.pc) {
      TouchingSound(h, t, th, w, l2, ch);
    } else if Waiting(th.pc) {
      PlainSound(h, t, th, w, l2, ch);
    } else if Storing(th.pc) {
      StoringSound(h, t, th, w, l2, ch);
    } else {
      TailSound(h, t, th, w, l2, ch);
    }
  }

  lemma MoveKeepsTiers(h: History, t: Tid, th: Thread, w: Worker, l2: map<Key, Envelope>, ch: Choice)
    requires ThreadOk(h, t, th) && L1Backed(h.writes, w.l1) && L2Backed(h.writes, l2) && Dated(h)
    requires Ready(th, w)
    ensures var e := Move(t, th, w, l2, h.now, ch);
            L1Backed(h.writes, e.worker.l1) && L2Backed(h.writes, e.l2)
  {
    hide EntryBacked, Backed, OutcomeOk, Admissible, Source, Blank, Unwritten, Ready, Look, L1.Read, L1.WellFormed;
    var c := th.call;
    match th.pc {
      case ReadL1 => ReadL1Backed(h, c, w.l1, c.allowStale);
      case RecheckL1 => ReadL1Backed(h, c, w.l1, false);
      case Backfill(env, at, stale) => FillBacked(h.writes, w, c.key, env.value, env, c.l1ttl, h.now);
      case RecheckBackfill(env, at) => FillBacked(h.writes, w, c.key, env.value, env, c.l1ttl, h.now);
      case PutL1(v, env) => FillBacked(h.writes, w, c.key, v, env, c.l1ttl, h.now);
      case _ =>
    }
  }

  /** Whatever the step adds to the history is new, is due to this thread, and is in order. */
  lemma MoveHistory(h: History, threads: map<Tid, Thread>, t: Tid, w: Worker, l2: map<Key, Envelope>, ch: Choice)
    requires t in threads && ThreadOk(h, t, threads[t]) && Ready(threads[t], w)
    requires forall w :: w in h.writes ==> WriteOk(h, threads, w)
    requires RaisersClean(h)
    ensures var e := Move(t, threads[t], w, l2, h.now, ch);
            var h' := After(h, t, e);
            && Grows(h, h')
            && (forall u :: u != t ==> NotBy(h, h', u))
            && (forall w :: w in h'.writes ==> WriteOk(h', threads, w))
            && (forall p :: p in e.made ==> p.tid == t && p.at == h.now)
            && RaisersClean(h')
  {
    var th := threads[t];
    var c := th.call;
    var e := Move(t, th, w, l2, h.now, ch);
    var h' := After(h, t, e);
    forall w | w in h'.writes
      ensures WriteOk(h', threads, w)
    {
      if w in h.writes {
        WriteGrows(h, h', threads, threads, w);
      } else {
        assert th.pc.Encode?;
      }
    }
  }

  lemma WriteGrows(h: History, h': History, threads: map<Tid, Thread>, threads': map<Tid, Thread>, w: Write)
    requires Grows(h, h') && WriteOk(h, threads, w)
    requires w.tid in threads' && threads'[w.tid].call == threads[w.tid].call
    ensures WriteOk(h', threads', w)
  {
  }

  // ---------------------------------------------------------------- one system step

  lemma L1Grows(ws: set<Write>, ws': set<Write>, l1: L1.Store<Value>)
    requires ws <= ws' && L1Backed(ws, l1)
    ensures L1Backed(ws', l1)
  {
    forall k | k in l1.entries
      ensures EntryBacked(ws', k, l1.entries[k])
    {
      var e := l1.entries[k];
      BackedGrows(ws, ws', k, e.value, e.createdEpoch, e.expiresEpoch, e.staleUntil);
    }
  }

  lemma L2Grows(ws: set<Write>, ws': set<Write>, l2: map<Key, Envelope>)
    requires ws <= ws' && L2Backed(ws, l2)
    ensures L2Backed(ws', l2)
  {
    forall k | k in l2
      ensures EnvBacked(ws', k, l2[k])
    {
      var e := l2[k];
      BackedGrows(ws, ws', k, e.value, e.created, e.expires, e.staleUntil);
    }
  }

  ghost predicate NamesKnown(h: History, threads: map<Tid, Thread>) {
    && (forall w :: w in h.writes ==> w.tid in threads)
    && (forall p :: p in h.productions ==> p.tid in threads)
    && (forall t :: t in h.raised ==> t in threads)
  }

  lemma NewcomerOk(h: History, threads: map<Tid, Thread>, t: Tid, c: Call)
    requires NamesKnown(h, threads) && t !in threads && c.began <= h.now
    ensures ThreadOk(h, t, Thread(c, FirstPC(c), 0))
  {
  }

  lemma SpawnSound(s: State, c: Call)
    requires Inv(s) && c.worker in s.workers && c.began <= s.now
    ensures Inv(Spawn(s, c))
  {
    hide L1Backed, L2Backed, RaisersClean, ThreadOk;
    var h, s' := Past(s), Spawn(s, c);
    assert NamesKnown(h, s.threads) by {
      forall x | x in s.writes
        ensures x.tid in s.threads
      {
        assert WriteOk(h, s.threads, x);
      }
    }
    assert s.nextTid !in s.threads;
    NewcomerOk(h, s.threads, s.nextTid, c);
    forall x | x in s'.writes
      ensures WriteOk(h, s'.threads, x)
    {
      WriteGrows(h, h, s.threads, s'.threads, x);
    }
  }

  /** The state after thread `t` has moved, before anything it spawns is added. */
  function Landed(s: State, t: Tid, e: Effect): State
    requires t in s.threads
  {
    Land(s, t, e.(spawns := false))
  }

  lemma LandedSound(s: State, t: Tid, ch: Choice)
    requires Inv(s) && Enabled(s, Advance(t, ch))
    ensures var th := s.threads[t];
            Inv(Landed(s, t, Move(t, th, s.workers[th.call.worker], s.l2, s.now, ch)))
  {
    hide ThreadOk, Move, WriteOk, L1Backed, L2Backed, RaisersClean;
    var h, th := Past(s), s.threads[t];
    var w := s.workers[th.call.worker];
    assert Dated(h) by {
      forall x | x in h.writes
        ensures x.created <= h.now
      {
        WriteDated(h, s.threads, x);
      }
    }
    var e := Move(t, th, w, s.l2, s.now, ch);
    var h' := After(h, t, e);
    MoveSound(h, t, th, w, s.l2, ch);
    MoveHistory(h, s.threads, t, w, s.l2, ch);
    MoveKeepsTiers(h, t, th, w, s.l2, ch);
    var s' := Landed(s, t, e);
    assert Past(s') == h';
    forall u | u in s'.threads
      ensures u < s'.nextTid && s'.threads[u].call.worker in s'.workers && ThreadOk(h', u, s'.threads[u])
    {
      if u != t {
        ThreadGrows(h, h', u, s.threads[u]);
      }
    }
    forall i | i in s'.workers
      ensures L1Backed(s'.writes, s'.workers[i].l1)
    {
      L1Grows(s.writes, s'.writes, s'.workers[i].l1);
    }
    L2Grows(s.writes, s'.writes, e.l2);
    forall x | x in s'.writes
      ensures WriteOk(h', s'.threads, x)
    {
      WriteDated(h', s.threads, x);
      WriteGrows(h', h', s.threads, s'.threads, x);
    }
  }

  lemma WriteDated(h: History, threads: map<Tid, Thread>, w: Write)
    requires WriteOk(h, threads, w)
    ensures w.created <= h.now && w.tid in threads
  {
  }

  lemma TickSound(s: State, elapsed: real)
    requires Inv(s) && elapsed >= 0.0
    ensures Inv(s.(now := s.now + elapsed))
  {
    hide ThreadOk, WriteOk, L1Backed, L2Backed;
    var h, s' := Past(s), s.(now := s.now + elapsed);
    var h' := Past(s');
    forall u | u in s'.threads
      ensures ThreadOk(h', u, s'.threads[u])
    {
      ThreadGrows(h, h', u, s.threads[u]);
    }
    forall x | x in s'.writes
      ensures WriteOk(h', s'.threads, x)
    {
      WriteDated(h, s.threads, x);
      WriteGrows(h, h', s.threads, s'.threads, x);
    }
  }

  lemma HasBegun(h: History, t: Tid, th: Thread)
    requires ThreadOk(h, t, th)
    ensures th.call.began <= h.now
  {
  }

  lemma StepSound(s: State, a: Action)
    requires Inv(s) && Enabled(s, a)
    ensures Inv(Apply(s, a))
  {
    hide ThreadOk, WriteOk, Move, RaisersClean;
    match a {
      case Boot(w, max) =>
      case Start(c) => SpawnSound(s, c);
      case Advance(t, ch) =>
        var th := s.threads[t];
        var e := Move(t, th, s.workers[th.call.worker], s.l2, s.now, ch);
        LandedSound(s, t, ch);
        if e.spawns {
          HasBegun(Past(s), t, th);
          SpawnSound(Landed(s, t, e), th.call.(kind := Refresh));
        }
      case Tick(elapsed) => TickSound(s, elapsed);
      case Invalidate(w, keys) => L1.RemoveFacts(s.workers[w].l1, keys);
      case LoseL2(keys) =>
    }
  }

  // ---------------------------------------------------------------- every run

  lemma {:induction false} RunSound(s: State, run: seq<Action>)
    requires Inv(s) && Legal(s, run)
    ensures Inv(Final(s, run))
    decreases |run|
  {
    if run != [] {
      StepSound(s, run[0]);
      RunSound(Apply(s, run[0]), run[1..]);
    }
  }

  lemma Reachable(t0: real, run: seq<Action>)
    requires Legal(Init(t0), run)
    ensures Inv(Final(Init(t0), run))
  {
    RunSound(Init(t0), run);
  }

  /** A write is the sealed result of one producer run of the key, or of one direct set. */
  ghost predicate Genuine(s: State, w: Write) {
    && w.tid in s.threads && s.threads[w.tid].call.key == w.key
    && (s.threads[w.tid].call.kind == Put(w.value)
        || exists p ::
             p in s.productions && p.tid == w.tid && p.key == w.key && p.value == w.value
             && p.at <= w.created <= s.now)
  }

  /** In every reachable state, every entry of every tier carries the value and the original
      timestamps of one genuine write of its key: no backfill ever moves a timestamp. */
  lemma EntriesAreWrites(t0: real, run: seq<Action>)
    requires Legal(Init(t0), run)
    ensures var s := Final(Init(t0), run);
            && (forall i, k :: i in s.workers && k in s.workers[i].l1.entries ==>
                EntryBacked(s.writes, k, s.workers[i].l1.entries[k]))
            && (forall k :: k in s.l2 ==> EnvBacked(s.writes, k, s.l2[k]))
            && (forall w :: w in s.writes ==> Genuine(s, w))
  {
    Reachable(t0, run);
    var s := Final(Init(t0), run);
    forall w | w in s.writes
      ensures Genuine(s, w)
    {
      assert WriteOk(Past(s), s.threads, w);
    }
    forall i, k | i in s.workers && k in s.workers[i].l1.entries
      ensures EntryBacked(s.writes, k, s.workers[i].l1.entries[k])
    {
      assert L1Backed(s.writes, s.workers[i].l1);
    }
  }

  /** However the remote store fails, a finished `get_or_set` has either run its own producer
      and returned its value, or returned a write of the key that was still admissible when it
      looked, or raised because its own producer raised. */
  lemma GetOrSetRefines(t0: real, run: seq<Action>, t: Tid)
    requires Legal(Init(t0), run)
    requires var s := Final(Init(t0), run);
             t in s.threads && s.threads[t].call.kind.GetOrSet? && s.threads[t].pc.Done?
    ensures var s := Final(Init(t0), run);
            var c := s.threads[t].call;
            match s.threads[t].pc.out
            case Served(v, at, stale) => c.began <= at <= s.now && Admissible(s.writes, c, v, at, stale)
            case Produced(v) => exists p :: p in s.productions && p.tid == t && p.key == c.key && p.value == v
            case Raised => t in s.raised
            case _ => false
  {
    Reachable(t0, run);
    var s := Final(Init(t0), run);
    assert ThreadOk(Past(s), t, s.threads[t]);
  }

  /** A call whose producer raised has put nothing into either tier. */
  lemma RaisingAddsNothing(t0: real, run: seq<Action>, t: Tid)
    requires Legal(Init(t0), run)
    requires t in Final(Init(t0), run).raised
    ensures forall w :: w in Final(Init(t0), run).writes ==> w.tid != t
  {
    Reachable(t0, run);
  }
}
