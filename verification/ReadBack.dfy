/** What a look at a tier finds is what the call gives, and the producer is only run when there is
    nothing to be found: writes can be read back by any worker until they expire. */
module ReadBack {
  import opened Basics
  import opened Tiered
  import opened WriteThrough

  // ---------------------------------------------------------------- what can be found

  /** The worker's L1 holds an entry of the key that is good for the reader now: before both of its
      deadlines, or, if it will do stale, past one of them but before the end of its stale window. */
  predicate LocalGood(x: State, c: Call, stale: bool) {
    c.worker in x.workers && c.key in x.workers[c.worker].l1.entries &&
    var e := x.workers[c.worker].l1.entries[c.key];
    var current := x.now < e.expiresEpoch && x.now < e.expiresMono;
    if stale then !current && x.now < e.staleUntil else current
  }

  /** L2 holds an envelope of the key that is good for the reader now. */
  predicate RemoteGood(x: State, key: Key, stale: bool) {
    key in x.l2 &&
    if stale then x.l2[key].expires <= x.now < x.l2[key].staleUntil else x.now < x.l2[key].expires
  }

  /** The next step of thread `t` is a look that finds a value in L1, or, the answer being intact, in
      L2; `env` is then the envelope found. Only the first looks may find a stale one, and only for
      calls that accept it. */
  ghost predicate Finds(x: State, t: Tid, ch: Choice, v: Value, env: Option<Envelope>, stale: bool) {
    t in x.threads &&
    var (c, pc) := (x.threads[t].call, x.threads[t].pc);
    && (c.kind.Get? || c.kind.GetOrSet?) && (stale ==> c.allowStale && (pc.ReadL1? || pc.ReadL2?))
    && if pc.ReadL1? || pc.RecheckL1? then
         env == None && LocalGood(x, c, stale) && v == x.workers[c.worker].l1.entries[c.key].value
       else
         && (pc.ReadL2? || pc.RecheckL2?) && ch.reply == Intact && RemoteGood(x, c.key, stale)
         && env == Some(x.l2[c.key]) && v == x.l2[c.key].value
  }

  // ---------------------------------------------------------------- and what comes of it

  ghost predicate Backfilled(s: State, run: seq<Action>, i: nat, t: Tid, c: Call, v: Value, env: Option<Envelope>) {
    env.Some? ==> exists j: nat :: i < j && FilledAt(s, run, j, t, c, v, env.value)
  }

  /** In step `j` the thread saw that a refresh of its key is under way, or started one like itself. */
  predicate RefreshAt(s: State, run: seq<Action>, j: nat, t: Tid, c: Call) {
    && StepOf(s, run, j, t)
    && var (x, y) := (At(s, run, j), At(s, run, j + 1));
       || (c.worker in x.workers && c.key in x.workers[c.worker].active)
       || (y.nextTid == x.nextTid + 1 && x.nextTid in y.threads && y.threads[x.nextTid].call == c.(kind := Refresh))
  }

  ghost predicate RefreshSeen(s: State, run: seq<Action>, i: nat, t: Tid, c: Call) {
    exists j: nat :: i < j && RefreshAt(s, run, j, t, c)
  }

  /** On its way to giving `out`, found in step `i`. */
  ghost predicate OnItsWay(s: State, run: seq<Action>, i: nat, t: Tid, th: Thread, env: Option<Envelope>,
        out: Outcome)
  {
    && out.Served? && (th.call.kind.Get? || th.call.kind.GetOrSet?)
    && match th.pc
       case Backfill(e, at, stale) => env == Some(e) && out == Served(e.value, at, stale)
       case RecheckBackfill(e, at) => env == Some(e) && out == Served(e.value, at, false)
       case Schedule(o) => o == out && Backfilled(s, run, i, t, th.call, out.value, env)
       case Submit(o) => o == out && Backfilled(s, run, i, t, th.call, out.value, env)
       case Unlock(o) => o == out && !out.stale && Backfilled(s, run, i, t, th.call, out.value, env)
       case Release(o) => o == out && !out.stale && Backfilled(s, run, i, t, th.call, out.value, env)
       case Done(o) =>
         && o == out && Backfilled(s, run, i, t, th.call, out.value, env)
         && (out.stale && th.call.kind.GetOrSet? ==> RefreshSeen(s, run, i, t, th.call))
       case _ => false
  }

  predicate Unproduced(x: State, t: Tid) {
    forall p :: p in x.productions ==> p.tid != t
  }

  lemma OnItsWayStays(s: State, run: seq<Action>, a: Action, i: nat, t: Tid, th: Thread, env: Option<Envelope>,
        out: Outcome)
    requires OnItsWay(s, run, i, t, th, env, out)
    ensures OnItsWay(s, run + [a], i, t, th, env, out)
  {
    if env.Some? && Backfilled(s, run, i, t, th.call, out.value, env) {
      var j: nat :| i < j && FilledAt(s, run, j, t, th.call, out.value, env.value);
      StepStays(s, run, a, j, t);
      assert FilledAt(s, run + [a], j, t, th.call, out.value, env.value);
    }
    if RefreshSeen(s, run, i, t, th.call) {
      var j: nat :| i < j && RefreshAt(s, run, j, t, th.call);
      StepStays(s, run, a, j, t);
      assert RefreshAt(s, run + [a], j, t, th.call);
    }
  }

  /** The first look: what is found settles where the thread goes. */
  lemma LookStep(x: State, t: Tid, ch: Choice, v: Value, env: Option<Envelope>, stale: bool)
    requires Enabled(x, Advance(t, ch)) && Finds(x, t, ch, v, env, stale)
    ensures var (th, y) := (x.threads[t], Apply(x, Advance(t, ch)));
            && t in y.threads && y.productions == x.productions && y.threads[t].call == th.call
            && y.threads[t].pc ==
               match th.pc
               case ReadL1 =>
                 var out := Served(v, x.now, stale);
                 if stale && th.call.kind.GetOrSet? then Schedule(out) else Done(out)
               case RecheckL1 => Unlock(Served(v, x.now, false))
               case ReadL2 => Backfill(env.value, x.now, stale)
               case _ => RecheckBackfill(env.value, x.now)
  {
    hide L1.Read, EntryOf, Flight.Acquire, Flight.Release;
  }

  lemma BackfillMove(t: Tid, th: Thread, w: Worker, l2: map<Key, Envelope>, now: real, ch: Choice)
    requires (th.pc.Backfill? || th.pc.RecheckBackfill?) && L1.WellFormed(w.l1)
    ensures var (e, c, env) := (Move(t, th, w, l2, now, ch), th.call, th.pc.env);
            && e.worker.max == w.max && e.made == {} && !e.spawns
            && e.pc == (if th.pc.RecheckBackfill? then Unlock(Served(env.value, th.pc.at, false))
                        else if th.pc.stale && c.kind.GetOrSet? then Schedule(Served(env.value, th.pc.at, true))
                        else Done(Served(env.value, th.pc.at, th.pc.stale)))
            && (w.max >= 1 ==>
                  && c.key in e.worker.l1.entries
                  && e.worker.l1.entries[c.key] ==
                     L1.Entry(env.value, now, now + c.l1ttl, env.created, env.expires, env.staleUntil))
  {
    var env := th.pc.env;
    L1.WriteFacts(w.l1, w.max, th.call.key,
      L1.Entry(env.value, now, now + th.call.l1ttl, env.created, env.expires, env.staleUntil));
    hide L1.Write, L1.WellFormed;
  }

  lemma BackfillStep(x: State, t: Tid, ch: Choice)
    requires Lineage.Inv(x) && Enabled(x, Advance(t, ch))
    requires x.threads[t].pc.Backfill? || x.threads[t].pc.RecheckBackfill?
    ensures var (th, y) := (x.threads[t], Apply(x, Advance(t, ch)));
            var (c, env) := (th.call, th.pc.env);
            && t in y.threads && y.threads[t].call == c && y.productions == x.productions && c.worker in y.workers
            && y.threads[t].pc == (if th.pc.RecheckBackfill? then Unlock(Served(env.value, th.pc.at, false))
                        else if th.pc.stale && c.kind.GetOrSet? then Schedule(Served(env.value, th.pc.at, true))
                        else Done(Served(env.value, th.pc.at, th.pc.stale)))
            && (y.workers[c.worker].max >= 1 ==>
                  && c.key in y.workers[c.worker].l1.entries
                  && y.workers[c.worker].l1.entries[c.key] ==
                     L1.Entry(env.value, x.now, x.now + c.l1ttl, env.created, env.expires, env.staleUntil))
  {
    hide Move, Lineage.Inv, L1.WellFormed;
    var th := x.threads[t];
    WellFormedL1(x, th.call.worker);
    BackfillMove(t, th, x.workers[th.call.worker], x.l2, x.now, ch);
  }

  lemma RefreshStep(x: State, t: Tid, ch: Choice)
    requires Lineage.Inv(x) && Enabled(x, Advance(t, ch)) && (x.threads[t].pc.Schedule? || x.threads[t].pc.Submit?)
    ensures var (th, y) := (x.threads[t], Apply(x, Advance(t, ch)));
            var (c, out) := (th.call, th.pc.out);
            && t in y.threads && y.threads[t].call == c && y.productions == x.productions
            && (if th.pc.Submit? then
                  && y.threads[t].pc == Done(out) && y.nextTid == x.nextTid + 1
                  && x.nextTid in y.threads && y.threads[x.nextTid].call == c.(kind := Refresh)
                else if c.key in x.workers[c.worker].active then y.threads[t].pc == Done(out)
                else y.threads[t].pc == Submit(out))
  {
    assert t < x.nextTid;
    hide Lineage.Inv;
  }

  lemma LeaveStep(x: State, t: Tid, ch: Choice)
    requires Enabled(x, Advance(t, ch)) && (x.threads[t].pc.Unlock? || x.threads[t].pc.Release?)
    requires !x.threads[t].call.kind.Refresh?
    ensures var (th, y) := (x.threads[t], Apply(x, Advance(t, ch)));
            && t in y.threads && y.threads[t].call == th.call && y.productions == x.productions
            && y.threads[t].pc == if th.pc.Unlock? then Release(th.pc.out) else Done(th.pc.out)
  {
    hide Flight.Release;
  }

  lemma OnwardStep(s: State, run: seq<Action>, i: nat, t: Tid, ch: Choice, env: Option<Envelope>, out: Outcome)
    requires Legal(s, run) && i < |run| && Lineage.Inv(Final(s, run)) && Enabled(Final(s, run), Advance(t, ch))
    requires Legal(s, run + [Advance(t, ch)])
    requires Final(s, run + [Advance(t, ch)]) == Apply(Final(s, run), Advance(t, ch))
    requires t in Final(s, run).threads && t in Apply(Final(s, run), Advance(t, ch)).threads
    requires Final(s, run).threads[t].call.worker in Final(s, run).workers
    requires OnItsWay(s, run, i, t, Final(s, run).threads[t], env, out) && !Final(s, run).threads[t].pc.Done?
    ensures var (x, y) := (Final(s, run), Apply(Final(s, run), Advance(t, ch)));
            && OnItsWay(s, run + [Advance(t, ch)], i, t, y.threads[t], env, out)
            && y.threads[t].call == x.threads[t].call && y.productions == x.productions
  {
    hide Legal, Final, Apply, Enabled, Lineage.Inv;
    var x, a := Final(s, run), Advance(t, ch);
    var y, longer := Apply(x, a), run + [a];
    var th := x.threads[t];
    LastStep(s, run, t, ch);
    OnItsWayStays(s, run, a, i, t, th, env, out);
    if th.pc.Backfill? || th.pc.RecheckBackfill? {
      BackfillStep(x, t, ch);
      assert FilledAt(s, longer, |run|, t, th.call, th.pc.env.value, th.pc.env);
    } else if th.pc.Schedule? || th.pc.Submit? {
      RefreshStep(x, t, ch);
      if y.threads[t].pc.Done? {
        assert RefreshAt(s, longer, |run|, t, th.call);
      }
    } else {
      LeaveStep(x, t, ch);
    }
  }

  // ---------------------------------------------------------------- every run

  lemma {:induction false} FoundIsOnItsWay(t0: real, run: seq<Action>, i: nat, t: Tid, v: Value, env: Option<Envelope>,
        stale: bool)
    requires Legal(Init(t0), run) && StepOf(Init(t0), run, i, t)
    requires Finds(At(Init(t0), run, i), t, run[i].choice, v, env, stale)
    requires Unproduced(At(Init(t0), run, i), t)
    ensures var (x, f) := (At(Init(t0), run, i), Final(Init(t0), run));
            && t in f.threads && f.threads[t].call == x.threads[t].call && Unproduced(f, t)
            && OnItsWay(Init(t0), run, i, t, f.threads[t], env, Served(v, x.now, stale))
    decreases |run|
  {
    var s := Init(t0);
    hide Legal, Final, Init, Enabled, Apply, Finds, OnItsWay, Lineage.Inv;
    var shorter, a := run[..|run| - 1], run[|run| - 1];
    assert run == shorter + [a];
    Snoc(s, shorter, a);
    Lineage.Reachable(t0, shorter);
    var x := Final(s, shorter);
    if i == |shorter| {
      assert run[..i] == shorter;
      NotDone(x, t, a.choice);
      LookStep(x, t, a.choice, v, env, stale);
      Starts(s, run, i, x, t, a.choice, Apply(x, a).threads[t], v, env, stale);
    } else {
      assert shorter[..i] == run[..i] && shorter[..i + 1] == run[..i + 1];
      FoundIsOnItsWay(t0, shorter, i, t, v, env, stale);
      var out := Served(v, At(s, run, i).now, stale);
      if a.Advance? && a.tid == t {
        ThreadStays(x, t, a.choice);
        NotDone(x, t, a.choice);
        OnwardStep(s, shorter, i, t, a.choice, env, out);
      } else {
        Others(x, a, t);
        OthersStay(x, a, t);
        OnItsWayStays(s, shorter, a, i, t, x.threads[t], env, out);
      }
    }
  }

  lemma NotDone(x: State, t: Tid, ch: Choice)
    requires Enabled(x, Advance(t, ch))
    ensures t in x.threads && !x.threads[t].pc.Done? && x.threads[t].call.worker in x.workers
  {
  }

  /** Nobody else ends a thread, or produces under its name. */
  lemma Others(x: State, a: Action, t: Tid)
    requires Enabled(x, a) && t in x.threads && !(a.Advance? && a.tid == t)
    ensures t in Apply(x, a).threads && (Unproduced(x, t) ==> Unproduced(Apply(x, a), t))
  {
  }

  lemma Starts(s: State, run: seq<Action>, i: nat, x: State, t: Tid, ch: Choice, th': Thread, v: Value,
        env: Option<Envelope>, stale: bool)
    requires Finds(x, t, ch, v, env, stale) && th'.call == x.threads[t].call
    requires th'.pc ==
               match x.threads[t].pc
               case ReadL1 =>
                 var out := Served(v, x.now, stale);
                 if stale && th'.call.kind.GetOrSet? then Schedule(out) else Done(out)
               case RecheckL1 => Unlock(Served(v, x.now, false))
               case ReadL2 => Backfill(env.value, x.now, stale)
               case _ => RecheckBackfill(env.value, x.now)
    ensures OnItsWay(s, run, i, t, th', env, Served(v, x.now, stale))
  {
  }

  lemma LookersAreClean(x: State, t: Tid)
    requires Lineage.Inv(x) && t in x.threads
    requires var pc := x.threads[t].pc; pc.ReadL1? || pc.ReadL2? || pc.RecheckL1? || pc.RecheckL2?
    ensures Unproduced(x, t)
  {
    assert Lineage.ThreadOk(Lineage.Past(x), t, x.threads[t]);
  }

  lemma Arrived(s: State, run: seq<Action>, i: nat, t: Tid, th: Thread, env: Option<Envelope>, out: Outcome)
    requires OnItsWay(s, run, i, t, th, env, out) && th.pc.Done?
    ensures th.pc.out == out && Backfilled(s, run, i, t, th.call, out.value, env)
    ensures out.stale && th.call.kind.GetOrSet? ==> RefreshSeen(s, run, i, t, th.call)
  {
  }

  /** Over every run: a call that finds a value in a tier gives that value and never runs its
      producer; found in L2, the value is put into the worker's L1 with the times it had there; and a
      `get_or_set` that found a stale one saw to a refresh of the key before it ended. */
  lemma FoundIsServed(t0: real, run: seq<Action>, i: nat, t: Tid, v: Value, env: Option<Envelope>, stale: bool)
    requires Legal(Init(t0), run) && StepOf(Init(t0), run, i, t)
    requires Finds(At(Init(t0), run, i), t, run[i].choice, v, env, stale)
    ensures var (x, f) := (At(Init(t0), run, i), Final(Init(t0), run));
            && t in f.threads && f.threads[t].call == x.threads[t].call && Unproduced(f, t)
            && (f.threads[t].pc.Done? ==>
                  && f.threads[t].pc.out == Served(v, x.now, stale)
                  && Backfilled(Init(t0), run, i, t, x.threads[t].call, v, env)
                  && (stale && x.threads[t].call.kind.GetOrSet? ==>
                        RefreshSeen(Init(t0), run, i, t, x.threads[t].call)))
  {
    hide Legal, Final, Init, Lineage.Inv, OnItsWay, Backfilled, RefreshSeen, Unproduced;
    var x := At(Init(t0), run, i);
    Lineage.Reachable(t0, run[..i]);
    LookersAreClean(x, t);
    FoundIsOnItsWay(t0, run, i, t, v, env, stale);
    if Final(Init(t0), run).threads[t].pc.Done? {
      Arrived(Init(t0), run, i, t, Final(Init(t0), run).threads[t], env, Served(v, x.now, stale));
    }
  }

  // ---------------------------------------------------------------- how long a write stays

  /** The action takes the key from L2 or writes it anew: the store loses it, or a thread's write or
      purge of it is applied. */
  predicate Disturbs(x: State, a: Action, key: Key) {
    match a
    case LoseL2(keys) => key in keys
    case Advance(t, ch) =>
      t in x.threads && x.threads[t].call.key == key && ch.applied &&
      (x.threads[t].pc.PutL2? || x.threads[t].pc.PurgeL2? || x.threads[t].pc.RecheckPurge?)
    case _ => false
  }

  lemma RemoteStays(x: State, a: Action, key: Key)
    requires Enabled(x, a) && !Disturbs(x, a, key)
    ensures key in Apply(x, a).l2 <==> key in x.l2
    ensures key in x.l2 ==> Apply(x, a).l2[key] == x.l2[key]
  {
    hide L1.Read, L1.Write, L1.Peek, L1.Remove, Look, Seal, EntryOf, Flight.Acquire, Flight.Release, Fill;
  }

  ghost predicate Undisturbed(s: State, run: seq<Action>, i: nat, j: nat, key: Key) {
    forall k :: i <= k < j <= |run| ==> Legal(s, run[..k]) && !Disturbs(At(s, run, k), run[k], key)
  }

  lemma {:induction false} PrefixLegal(s: State, run: seq<Action>, i: nat)
    requires Legal(s, run) && i <= |run|
    ensures Legal(s, run[..i])
    decreases |run|
  {
    if i < |run| {
      assert run == run[..|run| - 1] + [run[|run| - 1]];
      Snoc(s, run[..|run| - 1], run[|run| - 1]);
      assert run[..|run| - 1][..i] == run[..i];
      PrefixLegal(s, run[..|run| - 1], i);
    } else {
      assert run[..i] == run;
    }
  }

  lemma {:induction false} RemoteLasts(s: State, run: seq<Action>, i: nat, j: nat, key: Key)
    requires Legal(s, run) && i <= j <= |run| && Legal(s, run[..i]) && Legal(s, run[..j])
    requires Undisturbed(s, run, i, j, key)
    ensures key in At(s, run, j).l2 <==> key in At(s, run, i).l2
    ensures key in At(s, run, i).l2 ==> At(s, run, j).l2[key] == At(s, run, i).l2[key]
    decreases j
  {
    hide Legal, Final, Enabled, Apply, Disturbs;
    if i < j {
      PrefixLegal(s, run, j - 1);
      assert run[..j] == run[..j - 1] + [run[j - 1]];
      Snoc(s, run[..j - 1], run[j - 1]);
      RemoteLasts(s, run, i, j - 1, key);
      RemoteStays(At(s, run, j - 1), run[j - 1], key);
    }
  }

  /** Write and read back, over every run: thread `t` seals a value in step `h` and sends it in step
      `i`, which the store applies; until step `j` the key is neither lost nor purged nor written
      anew; in step `j` thread `u` of any worker, calling for that key, looks at L2 and gets an
      intact answer before `created + ttl` - or, if both calls do stale, before the window after it has passed.
      Then `u` does not run its producer, ends with the JSON image of the value, and leaves it in its
      worker's L1 under the times of the write. */
  lemma WritesAreReadBack(t0: real, run: seq<Action>, h: nat, i: nat, t: Tid, c: Call, v: Value, env: Envelope,
        j: nat, u: Tid, stale: bool)
    requires Legal(Init(t0), run) && h < i < j
    requires SealedAt(Init(t0), run, h, t, c, v, env)
    requires SentAt(Init(t0), run, i, t, c.key, env) && run[i].choice.applied
    requires StepOf(Init(t0), run, j, u) && Undisturbed(Init(t0), run, i + 1, j, c.key)
    requires run[j].choice.reply == Intact
    requires var (x, created) := (At(Init(t0), run, j), At(Init(t0), run, h).now);
             && u in x.threads && x.threads[u].call.key == c.key
             && (x.threads[u].pc.ReadL2? || (x.threads[u].pc.RecheckL2? && !stale))
             && (if stale then
                   && c.allowStale && x.threads[u].call.allowStale
                   && created + c.ttl <= x.now < created + c.ttl + c.window
                 else x.now < created + c.ttl)
    ensures var (x, f) := (At(Init(t0), run, j), Final(Init(t0), run));
            var r := x.threads[u].call;
            && u in f.threads && Unproduced(f, u)
            && (f.threads[u].pc.Done? ==>
                  && f.threads[u].pc.out == Served(Json(v.content), x.now, stale)
                  && exists k: nat :: j < k && FilledAt(Init(t0), run, k, u, r, Json(v.content), env))
  {
    var s := Init(t0);
    hide Legal, Final, Init, Enabled, Apply;
    PrefixLegal(s, run, j);
    RemoteLasts(s, run, i + 1, j, c.key);
    var x := At(s, run, j);
    Reader(t0, run[..j], u);
    assert x.l2[c.key] == env;
    assert Finds(x, u, run[j].choice, Json(v.content), Some(env), stale);
    FoundIsServed(t0, run, j, u, Json(v.content), Some(env), stale);
  }

  /** Only reading calls look at L2. */
  lemma Reader(t0: real, run: seq<Action>, u: Tid)
    requires Legal(Init(t0), run) && u in Final(Init(t0), run).threads
    requires var th := Final(Init(t0), run).threads[u]; th.pc.ReadL2? || th.pc.RecheckL2?
    ensures var c := Final(Init(t0), run).threads[u].call; c.kind.Get? || c.kind.GetOrSet?
  {
    Lineage.Reachable(t0, run);
    var x := Final(Init(t0), run);
    assert Lineage.ThreadOk(Lineage.Past(x), u, x.threads[u]);
  }
  // ---------------------------------------------------------------- garbage

  /** Step `j` of thread `t` was a remote deletion: if the store applied it, the key is gone. */
  predicate PurgedAt(s: State, run: seq<Action>, j: nat, t: Tid, key: Key) {
    && StepOf(s, run, j, t)
    && At(s, run, j + 1).l2 == if run[j].choice.applied then At(s, run, j).l2 - {key} else At(s, run, j).l2
  }

  ghost predicate Purging(s: State, run: seq<Action>, i: nat, t: Tid, th: Thread) {
    th.pc.PurgeL2? || th.pc.RecheckPurge? || exists j: nat :: i < j && PurgedAt(s, run, j, t, th.call.key)
  }

  lemma GarbageStep(x: State, t: Tid, ch: Choice)
    requires Enabled(x, Advance(t, ch)) && ch.reply == Garbage
    requires x.threads[t].pc.ReadL2? || x.threads[t].pc.RecheckL2?
    ensures var y := Apply(x, Advance(t, ch));
            t in y.threads && (y.threads[t].pc.PurgeL2? || y.threads[t].pc.RecheckPurge?)
  {
    hide L1.Read, L1.Peek, EntryOf, Flight.Acquire, Flight.Release;
  }

  lemma PurgeStep(x: State, t: Tid, ch: Choice)
    requires Enabled(x, Advance(t, ch)) && (x.threads[t].pc.PurgeL2? || x.threads[t].pc.RecheckPurge?)
    ensures var key := x.threads[t].call.key;
            Apply(x, Advance(t, ch)).l2 == if ch.applied then x.l2 - {key} else x.l2
  {
    hide L1.Read, L1.Peek, EntryOf, Flight.Acquire, Flight.Release;
  }

  lemma SameCall(x: State, a: Action, t: Tid)
    requires Enabled(x, a) && t in x.threads && t < x.nextTid
    ensures t in Apply(x, a).threads && Apply(x, a).threads[t].call == x.threads[t].call
  {
    hide Move;
  }

  /** Over every run: a call that gets an answer from L2 that does not decode deletes the key there
      before it goes on. */
  lemma {:induction false} GarbageIsPurged(t0: real, run: seq<Action>, i: nat, t: Tid)
    requires Legal(Init(t0), run) && StepOf(Init(t0), run, i, t) && run[i].choice.reply == Garbage
    requires var x := At(Init(t0), run, i);
             t in x.threads && (x.threads[t].pc.ReadL2? || x.threads[t].pc.RecheckL2?)
    ensures t in Final(Init(t0), run).threads && Purging(Init(t0), run, i, t, Final(Init(t0), run).threads[t])
    decreases |run|
  {
    var s := Init(t0);
    hide Legal, Final, Init, Enabled, Apply, Lineage.Inv;
    var shorter, a := run[..|run| - 1], run[|run| - 1];
    assert run == shorter + [a];
    Snoc(s, shorter, a);
    Lineage.Reachable(t0, shorter);
    var x := Final(s, shorter);
    if i == |shorter| {
      assert run[..i] == shorter;
      GarbageStep(x, t, a.choice);
    } else {
      assert shorter[..i] == run[..i] && shorter[..i + 1] == run[..i + 1];
      GarbageIsPurged(t0, shorter, i, t);
      Numbered(x, t);
      SameCall(x, a, t);
      var key := x.threads[t].call.key;
      if j: nat :| i < j && PurgedAt(s, shorter, j, t, key) {
        StepStays(s, shorter, a, j, t);
        assert PurgedAt(s, run, j, t, key);
      } else if a.Advance? && a.tid == t {
        LastStep(s, shorter, t, a.choice);
        PurgeStep(x, t, a.choice);
        assert PurgedAt(s, run, |shorter|, t, key);
      } else {
        OthersStay(x, a, t);
      }
    }
  }

  lemma Numbered(x: State, t: Tid)
    requires Lineage.Inv(x) && t in x.threads
    ensures t < x.nextTid
  {
  }
}
