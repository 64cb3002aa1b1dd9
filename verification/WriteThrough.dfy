/** What is written is there to be read: which write reaches which tier, how long it stays, and what
    a look at a tier finds - for every interleaving of the tiered cache. */
module WriteThrough {
  import opened Tiered
  import Lineage

  // ---------------------------------------------------------------- runs, from the back

  lemma {:induction false} Snoc(s: State, run: seq<Action>, a: Action)
    ensures Legal(s, run + [a]) <==> Legal(s, run) && Enabled(Final(s, run), a)
    ensures Legal(s, run + [a]) ==> Final(s, run + [a]) == Apply(Final(s, run), a)
    decreases |run|
  {
    hide Enabled, Apply;
    if run == [] {
      assert [a][1..] == [];
      assert [] + [a] == [a];
    } else {
      assert (run + [a])[1..] == run[1..] + [a];
      if Enabled(s, run[0]) {
        Snoc(Apply(s, run[0]), run[1..], a);
      }
    }
  }

  /** The state after the first `i` actions of a run. */
  function At(s: State, run: seq<Action>, i: nat): State
    requires i <= |run| && Legal(s, run[..i])
  {
    Final(s, run[..i])
  }

  /** Action `i` of the run is a step of thread `t`. */
  predicate StepOf(s: State, run: seq<Action>, i: nat, t: Tid) {
    && i < |run| && Legal(s, run[..i]) && Legal(s, run[..i + 1])
    && run[i].Advance? && run[i].tid == t
  }

  lemma StepStays(s: State, run: seq<Action>, a: Action, i: nat, t: Tid)
    requires StepOf(s, run, i, t)
    ensures StepOf(s, run + [a], i, t) && (run + [a])[i] == run[i]
    ensures At(s, run + [a], i) == At(s, run, i) && At(s, run + [a], i + 1) == At(s, run, i + 1)
  {
    assert (run + [a])[..i] == run[..i] && (run + [a])[..i + 1] == run[..i + 1];
  }

  lemma LastStep(s: State, run: seq<Action>, t: Tid, ch: Choice)
    requires Legal(s, run) && Legal(s, run + [Advance(t, ch)])
    ensures StepOf(s, run + [Advance(t, ch)], |run|, t)
    ensures At(s, run + [Advance(t, ch)], |run|) == Final(s, run)
    ensures At(s, run + [Advance(t, ch)], |run| + 1) == Final(s, run + [Advance(t, ch)])
  {
    var longer := run + [Advance(t, ch)];
    assert longer[..|run|] == run && longer[..|run| + 1] == longer;
  }

  // ---------------------------------------------------------------- one write

  /** The envelope of a value sealed at `created`: its JSON image with the three times of the call. */
  predicate SealedAs(c: Call, v: Value, env: Envelope, created: real) {
    && !v.Opaque? && c.began <= created
    && env.value == Json(v.content) && env.created == created && env.expires == created + c.ttl
    && env.staleUntil == created + c.ttl + (if c.allowStale then c.window else 0.0)
  }

  /** Step `h` of thread `t` sealed the value, at that moment. */
  predicate SealedAt(s: State, run: seq<Action>, h: nat, t: Tid, c: Call, v: Value, env: Envelope) {
    StepOf(s, run, h, t) && SealedAs(c, v, env, At(s, run, h).now)
  }

  /** Step `i` of thread `t` was its remote write: if the store applied it, the envelope is there. */
  predicate SentAt(s: State, run: seq<Action>, i: nat, t: Tid, key: Key, env: Envelope) {
    && StepOf(s, run, i, t)
    && At(s, run, i + 1).l2 ==
       if run[i].choice.applied then At(s, run, i).l2[key := env] else At(s, run, i).l2
  }

  /** Step `j` of thread `t` put the value into its worker's L1, under the times of the envelope. */
  predicate FilledAt(s: State, run: seq<Action>, j: nat, t: Tid, c: Call, v: Value, env: Envelope) {
    && StepOf(s, run, j, t) && c.worker in At(s, run, j + 1).workers
    && var (now, w) := (At(s, run, j).now, At(s, run, j + 1).workers[c.worker]);
       w.max >= 1 ==>
         && c.key in w.l1.entries
         && w.l1.entries[c.key] == L1.Entry(v, now, now + c.l1ttl, env.created, env.expires, env.staleUntil)
  }

  ghost predicate Sent(s: State, run: seq<Action>, t: Tid, c: Call, v: Value, env: Envelope) {
    exists h: nat, i: nat :: h < i && SealedAt(s, run, h, t, c, v, env) && SentAt(s, run, i, t, c.key, env)
  }

  /** The value was sealed, sent to the remote store, and then put into L1. */
  ghost predicate WrittenAt(s: State, run: seq<Action>, h: nat, i: nat, j: nat, t: Tid, c: Call, v: Value,
        env: Envelope)
  {
    && h < i < j
    && SealedAt(s, run, h, t, c, v, env) && SentAt(s, run, i, t, c.key, env) && FilledAt(s, run, j, t, c, v, env)
  }

  ghost predicate Written(s: State, run: seq<Action>, t: Tid, c: Call, v: Value) {
    exists h: nat, i: nat, j: nat, env: Envelope :: WrittenAt(s, run, h, i, j, t, c, v, env)
  }

  /** The value a way of ending claims to have stored. */
  ghost predicate Claimed(h: Lineage.History, t: Tid, c: Call, out: Outcome, v: Value) {
    match out
    case Stored(_) => c.kind == Put(v)
    case Produced(value) => value == v && Lineage.Ran(h, t, c, v)
    case _ => Lineage.Ran(h, t, c, v)
  }

  predicate ClaimsToStore(out: Outcome) {
    out == Stored(true) || out == Refreshed || (out.Produced? && !out.value.Opaque?)
  }

  ghost predicate Kept(s: State, run: seq<Action>, h: Lineage.History, t: Tid, c: Call, out: Outcome) {
    ClaimsToStore(out) ==> exists v :: Claimed(h, t, c, out, v) && Written(s, run, t, c, v)
  }

  /** What a thread has done by the time it is where it is. */
  ghost predicate Trail(s: State, run: seq<Action>, h: Lineage.History, t: Tid, th: Thread) {
    match th.pc
    case PutL2(v, env) => exists h: nat :: SealedAt(s, run, h, t, th.call, v, env)
    case PutL1(v, env) => Sent(s, run, t, th.call, v, env)
    case Unlock(out) => Kept(s, run, h, t, th.call, out)
    case Release(out) => Kept(s, run, h, t, th.call, out)
    case CountError(out) => Kept(s, run, h, t, th.call, out)
    case Discard(out) => Kept(s, run, h, t, th.call, out)
    case Done(out) => Kept(s, run, h, t, th.call, out)
    case _ => true
  }

  lemma SentStays(s: State, run: seq<Action>, a: Action, t: Tid, c: Call, v: Value, env: Envelope)
    requires Sent(s, run, t, c, v, env)
    ensures Sent(s, run + [a], t, c, v, env)
  {
    var h: nat, i: nat :| h < i && SealedAt(s, run, h, t, c, v, env) && SentAt(s, run, i, t, c.key, env);
    StepStays(s, run, a, h, t);
    StepStays(s, run, a, i, t);
    assert SealedAt(s, run + [a], h, t, c, v, env) && SentAt(s, run + [a], i, t, c.key, env);
  }

  lemma WrittenStays(s: State, run: seq<Action>, a: Action, t: Tid, c: Call, v: Value)
    requires Written(s, run, t, c, v)
    ensures Written(s, run + [a], t, c, v)
  {
    var h: nat, i: nat, j: nat, env :| WrittenAt(s, run, h, i, j, t, c, v, env);
    StepStays(s, run, a, h, t);
    StepStays(s, run, a, i, t);
    StepStays(s, run, a, j, t);
    assert WrittenAt(s, run + [a], h, i, j, t, c, v, env);
  }

  lemma KeptStays(s: State, run: seq<Action>, a: Action, h: Lineage.History, h': Lineage.History, t: Tid, c: Call,
        out: Outcome)
    requires Kept(s, run, h, t, c, out) && Lineage.Grows(h, h')
    ensures Kept(s, run + [a], h', t, c, out)
  {
    hide Written;
    if ClaimsToStore(out) {
      var v :| Claimed(h, t, c, out, v) && Written(s, run, t, c, v);
      WrittenStays(s, run, a, t, c, v);
      if !out.Stored? {
        Lineage.RanGrows(h, h', t, c, v);
      }
      assert Claimed(h', t, c, out, v);
    }
  }

  lemma TrailStays(s: State, run: seq<Action>, a: Action, h: Lineage.History, h': Lineage.History, t: Tid, th: Thread)
    requires Trail(s, run, h, t, th) && Lineage.Grows(h, h')
    ensures Trail(s, run + [a], h', t, th)
  {
    hide Kept, Sent, SealedAs;
    if th.pc.PutL2? {
      var i: nat :| SealedAt(s, run, i, t, th.call, th.pc.value, th.pc.env);
      StepStays(s, run, a, i, t);
      assert SealedAt(s, run + [a], i, t, th.call, th.pc.value, th.pc.env);
    } else if th.pc.PutL1? {
      SentStays(s, run, a, t, th.call, th.pc.value, th.pc.env);
    } else if th.pc.Unlock? || th.pc.Release? || th.pc.CountError? || th.pc.Discard? || th.pc.Done? {
      KeptStays(s, run, a, h, h', t, th.call, th.pc.out);
    }
  }

  // ---------------------------------------------------------------- one step of the writer

  lemma SealStep(x: State, t: Tid, ch: Choice)
    requires Lineage.Inv(x) && Enabled(x, Advance(t, ch)) && x.threads[t].pc.Encode?
    ensures var (th, th') := (x.threads[t], Apply(x, Advance(t, ch)).threads[t]);
            && th'.call == th.call
            && (!th.pc.value.Opaque? ==>
                  th'.pc.PutL2? && th'.pc.value == th.pc.value && SealedAs(th.call, th.pc.value, th'.pc.env, x.now))
            && (th.pc.value.Opaque? ==>
                  (th'.pc.Unlock? || th'.pc.Done?) && !ClaimsToStore(th'.pc.out))
  {
    Lineage.HasBegun(Lineage.Past(x), t, x.threads[t]);
  }

  lemma SendStep(x: State, t: Tid, ch: Choice)
    requires Enabled(x, Advance(t, ch)) && x.threads[t].pc.PutL2?
    ensures var (th, y) := (x.threads[t], Apply(x, Advance(t, ch)));
            && y.threads[t] == th.(pc := PutL1(th.pc.value, th.pc.env))
            && y.l2 == if ch.applied then x.l2[th.call.key := th.pc.env] else x.l2
  {
  }

  /** How a call that has filled L1 goes on. */
  function Filled(kind: Kind, v: Value): PC {
    match kind
    case Put(_) => Done(Stored(true))
    case Refresh => Unlock(Refreshed)
    case _ => Unlock(Produced(v))
  }

  lemma FillMove(t: Tid, th: Thread, w: Worker, l2: map<Key, Envelope>, now: real, ch: Choice)
    requires th.pc.PutL1? && L1.WellFormed(w.l1)
    ensures var (e, c, env) := (Move(t, th, w, l2, now, ch), th.call, th.pc.env);
            && e.pc == Filled(c.kind, th.pc.value) && e.l2 == l2 && e.worker.max == w.max
            && (w.max >= 1 ==>
                  && c.key in e.worker.l1.entries
                  && e.worker.l1.entries[c.key] ==
                     L1.Entry(th.pc.value, now, now + c.l1ttl, env.created, env.expires, env.staleUntil))
  {
    var entry := L1.Entry(th.pc.value, now, now + th.call.l1ttl, th.pc.env.created, th.pc.env.expires,
      th.pc.env.staleUntil);
    L1.WriteFacts(w.l1, w.max, th.call.key, entry);
    hide L1.Write, L1.WellFormed;
  }

  lemma FillClaims(h: Lineage.History, t: Tid, th: Thread)
    requires Lineage.ThreadOk(h, t, th) && th.pc.PutL1?
    ensures var out := Filled(th.call.kind, th.pc.value).out; Claimed(h, t, th.call, out, th.pc.value)
  {
  }

  lemma FillStep(x: State, t: Tid, ch: Choice)
    requires Lineage.Inv(x) && Enabled(x, Advance(t, ch)) && x.threads[t].pc.PutL1?
    ensures var (th, y) := (x.threads[t], Apply(x, Advance(t, ch)));
            var (c, v, env) := (th.call, th.pc.value, th.pc.env);
            && y.threads[t].call == c && y.threads[t].pc == Filled(c.kind, v)
            && Claimed(Lineage.Past(x), t, c, Filled(c.kind, v).out, v)
            && c.worker in y.workers
            && (y.workers[c.worker].max >= 1 ==>
                  && c.key in y.workers[c.worker].l1.entries
                  && y.workers[c.worker].l1.entries[c.key] ==
                     L1.Entry(v, x.now, x.now + c.l1ttl, env.created, env.expires, env.staleUntil))
  {
    hide Move, Lineage.ThreadOk, Lineage.WriteOk, Claimed, L1.WellFormed, Filled;
    var th := x.threads[t];
    var w := x.workers[th.call.worker];
    WellFormedL1(x, th.call.worker);
    FillMove(t, th, w, x.l2, x.now, ch);
    FillClaims(Lineage.Past(x), t, th);
  }

  lemma WellFormedL1(x: State, i: Wid)
    requires Lineage.Inv(x) && i in x.workers
    ensures L1.WellFormed(x.workers[i].l1)
  {
    assert Lineage.L1Backed(x.writes, x.workers[i].l1);
  }

  predicate Ending(pc: PC) {
    pc.Unlock? || pc.Release? || pc.CountError? || pc.Discard? || pc.Done?
  }

  predicate NoNewClaim(from: PC, to: PC) {
    && !to.PutL2? && !to.PutL1?
    && (Ending(to) ==> !ClaimsToStore(to.out) || (Ending(from) && from.out == to.out))
  }

  predicate Looking(pc: PC) {
    pc.ReadL1? || pc.ReadL2? || pc.PurgeL2? || pc.Backfill? || pc.Schedule? || pc.Submit?
  }

  lemma LookingMove(t: Tid, th: Thread, w: Worker, l2: map<Key, Envelope>, now: real, ch: Choice)
    requires Looking(th.pc) && (th.pc.Schedule? || th.pc.Submit? ==> th.pc.out.Served?)
    ensures NoNewClaim(th.pc, Move(t, th, w, l2, now, ch).pc)
  {
    hide L1.Read, L1.Write, L1.WellFormed, L1.Peek, Look, Purged, Seal, EntryOf, Flight.Acquire, Flight.Release, Fill;
  }

  lemma FlightMove(t: Tid, th: Thread, w: Worker, l2: map<Key, Envelope>, now: real, ch: Choice)
    requires !Looking(th.pc) && !Ending(th.pc) && !th.pc.Encode? && !th.pc.PutL2? && !th.pc.PutL1?
    ensures NoNewClaim(th.pc, Move(t, th, w, l2, now, ch).pc)
  {
    hide L1.Read, L1.Write, L1.WellFormed, L1.Peek, Look, Purged, Seal, EntryOf, Flight.Acquire, Flight.Release, Fill;
  }

  lemma EndingMove(t: Tid, th: Thread, w: Worker, l2: map<Key, Envelope>, now: real, ch: Choice)
    requires Ending(th.pc)
    ensures NoNewClaim(th.pc, Move(t, th, w, l2, now, ch).pc)
  {
    hide L1.Read, L1.Write, L1.WellFormed, L1.Peek, Look, Purged, Seal, EntryOf, Flight.Acquire, Flight.Release, Fill;
  }

  /** Where a thread that is not writing gets to claims no new store. */
  lemma OtherMove(t: Tid, th: Thread, w: Worker, l2: map<Key, Envelope>, now: real, ch: Choice)
    requires !th.pc.Encode? && !th.pc.PutL2? && !th.pc.PutL1?
    requires th.pc.Schedule? || th.pc.Submit? ==> th.pc.out.Served?
    ensures NoNewClaim(th.pc, Move(t, th, w, l2, now, ch).pc)
  {
    hide Move, NoNewClaim, Looking, Ending;
    if Looking(th.pc) {
      LookingMove(t, th, w, l2, now, ch);
    } else if Ending(th.pc) {
      EndingMove(t, th, w, l2, now, ch);
    } else {
      FlightMove(t, th, w, l2, now, ch);
    }
  }

  lemma SchedulesServed(h: Lineage.History, t: Tid, th: Thread)
    requires Lineage.ThreadOk(h, t, th)
    ensures th.pc.Schedule? || th.pc.Submit? ==> th.pc.out.Served?
  {
  }

  lemma OtherStep(x: State, t: Tid, ch: Choice)
    requires Lineage.Inv(x) && Enabled(x, Advance(t, ch))
    requires !x.threads[t].pc.Encode? && !x.threads[t].pc.PutL2? && !x.threads[t].pc.PutL1?
    ensures var (th, th') := (x.threads[t], Apply(x, Advance(t, ch)).threads[t]);
            th'.call == th.call && NoNewClaim(th.pc, th'.pc)
  {
    hide Move, NoNewClaim, Lineage.ThreadOk, Lineage.WriteOk;
    var th := x.threads[t];
    SchedulesServed(Lineage.Past(x), t, th);
    OtherMove(t, th, x.workers[th.call.worker], x.l2, x.now, ch);
  }

  // ---------------------------------------------------------------- every run

  lemma ThreadStays(x: State, t: Tid, ch: Choice)
    requires Enabled(x, Advance(t, ch))
    ensures t in x.threads && t in Apply(x, Advance(t, ch)).threads
  {
    hide Move;
  }

  lemma StepTrail(s: State, run: seq<Action>, t: Tid, ch: Choice)
    requires Legal(s, run) && Lineage.Inv(Final(s, run)) && Enabled(Final(s, run), Advance(t, ch))
    requires Legal(s, run + [Advance(t, ch)])
    requires Final(s, run + [Advance(t, ch)]) == Apply(Final(s, run), Advance(t, ch))
    requires t in Final(s, run).threads && t in Apply(Final(s, run), Advance(t, ch)).threads
    requires Trail(s, run, Lineage.Past(Final(s, run)), t, Final(s, run).threads[t])
    requires Lineage.Grows(Lineage.Past(Final(s, run)), Lineage.Past(Apply(Final(s, run), Advance(t, ch))))
    ensures var (x, y) := (Final(s, run), Apply(Final(s, run), Advance(t, ch)));
            Trail(s, run + [Advance(t, ch)], Lineage.Past(y), t, y.threads[t])
  {
    hide Legal, Final, Apply, Enabled, Lineage.Inv, Kept, Sent, SealedAs, Written;
    var x, a := Final(s, run), Advance(t, ch);
    var y, longer := Apply(x, a), run + [a];
    var th, h, h' := x.threads[t], Lineage.Past(x), Lineage.Past(y);
    LastStep(s, run, t, ch);
    if th.pc.Encode? {
      SealStep(x, t, ch);
      if th.pc.value.Opaque? {
        NothingClaimed(s, longer, h', t, th.call, y.threads[t].pc.out);
      } else {
        assert SealedAt(s, longer, |run|, t, th.call, th.pc.value, y.threads[t].pc.env);
      }
    } else if th.pc.PutL2? {
      SendStep(x, t, ch);
      SentNow(s, run, a, t, th.call, th.pc.value, th.pc.env);
    } else if th.pc.PutL1? {
      FillStep(x, t, ch);
      SentStays(s, run, a, t, th.call, th.pc.value, th.pc.env);
      FilledNow(s, longer, |run|, t, th.call, th.pc.value, th.pc.env, h, h');
    } else {
      OtherStep(x, t, ch);
      if Ending(y.threads[t].pc) {
        if ClaimsToStore(y.threads[t].pc.out) {
          KeptStays(s, run, a, h, h', t, th.call, th.pc.out);
        } else {
          NothingClaimed(s, longer, h', t, th.call, y.threads[t].pc.out);
        }
      }
    }
  }

  lemma NothingClaimed(s: State, run: seq<Action>, h: Lineage.History, t: Tid, c: Call, out: Outcome)
    requires !ClaimsToStore(out)
    ensures Kept(s, run, h, t, c, out)
  {
  }

  lemma SentNow(s: State, run: seq<Action>, a: Action, t: Tid, c: Call, v: Value, env: Envelope)
    requires SentAt(s, run + [a], |run|, t, c.key, env) && exists h: nat :: SealedAt(s, run, h, t, c, v, env)
    ensures Sent(s, run + [a], t, c, v, env)
  {
    var h: nat :| SealedAt(s, run, h, t, c, v, env);
    StepStays(s, run, a, h, t);
    assert SealedAt(s, run + [a], h, t, c, v, env);
  }

  lemma FilledNow(s: State, run: seq<Action>, j: nat, t: Tid, c: Call, v: Value, env: Envelope, h: Lineage.History,
        h': Lineage.History)
    requires FilledAt(s, run, j, t, c, v, env) && Sent(s, run[..j], t, c, v, env) && j < |run|
    requires Claimed(h, t, c, Filled(c.kind, v).out, v) && Lineage.Grows(h, h')
    ensures Kept(s, run, h', t, c, Filled(c.kind, v).out)
  {
    var g: nat, i: nat :| g < i && SealedAt(s, run[..j], g, t, c, v, env) && SentAt(s, run[..j], i, t, c.key, env);
    assert run[..j][..i] == run[..i] && run[..j][..i + 1] == run[..i + 1];
    assert run[..j][..g] == run[..g] && run[..j][..g + 1] == run[..g + 1];
    assert WrittenAt(s, run, g, i, j, t, c, v, env);
    assert Written(s, run, t, c, v);
    if !c.kind.Put? {
      Lineage.RanGrows(h, h', t, c, v);
    }
  }

  lemma PastGrows(x: State, a: Action)
    requires Enabled(x, a)
    ensures Lineage.Grows(Lineage.Past(x), Lineage.Past(Apply(x, a)))
  {
    hide Move;
  }

  /** An action that is no step of thread `t` leaves it alone; a new thread has done nothing yet. */
  lemma OthersStay(x: State, a: Action, t: Tid)
    requires Lineage.Inv(x) && Enabled(x, a) && t in Apply(x, a).threads && !(a.Advance? && a.tid == t)
    ensures if t in x.threads then Apply(x, a).threads[t] == x.threads[t]
            else Apply(x, a).threads[t].pc == FirstPC(Apply(x, a).threads[t].call)
  {
    hide Move, Lineage.ThreadOk, Lineage.WriteOk;
  }

  lemma {:induction false} RunTrail(t0: real, run: seq<Action>, t: Tid)
    requires Legal(Init(t0), run) && t in Final(Init(t0), run).threads
    ensures Trail(Init(t0), run, Lineage.Past(Final(Init(t0), run)), t, Final(Init(t0), run).threads[t])
  {
    var s := Init(t0);
    hide Legal, Final, Init, Trail, Enabled, Apply, Lineage.Inv;
    if run != [] {
      var shorter, a := run[..|run| - 1], run[|run| - 1];
      assert run == shorter + [a];
      Snoc(s, shorter, a);
      Lineage.Reachable(t0, shorter);
      var x := Final(s, shorter);
      PastGrows(x, a);
      if a.Advance? && a.tid == t {
        ThreadStays(x, t, a.choice);
        RunTrail(t0, shorter, t);
        StepTrail(s, shorter, t, a.choice);
      } else {
        OthersStay(x, a, t);
        if t in x.threads {
          RunTrail(t0, shorter, t);
          TrailStays(s, shorter, a, Lineage.Past(x), Lineage.Past(Apply(x, a)), t, x.threads[t]);
        } else {
          NewTrail(s, run, Lineage.Past(Apply(x, a)), t, Apply(x, a).threads[t]);
        }
      }
    } else {
      Nobody(t0);
    }
  }

  lemma NewTrail(s: State, run: seq<Action>, h: Lineage.History, t: Tid, th: Thread)
    requires th.pc == FirstPC(th.call)
    ensures Trail(s, run, h, t, th)
  {
  }

  lemma Nobody(t0: real)
    ensures Final(Init(t0), []).threads == map[]
  {
  }

  /** Over every run: a call that ends having stored its value - a successful `set`, a `get_or_set`
      that returns what its producer gave, a completed refresh - sealed it once, with the three
      times that follow from the moment of sealing, then made one remote write of that envelope,
      which is in L2 right after if the store applied it, and then put value and times into its
      worker's L1, where they are right after if there is room for an entry at all. */
  lemma StoredWasWritten(t0: real, run: seq<Action>, t: Tid) returns (v: Value)
    requires Legal(Init(t0), run) && t in Final(Init(t0), run).threads
    requires var th := Final(Init(t0), run).threads[t]; th.pc.Done? && ClaimsToStore(th.pc.out)
    ensures var f := Final(Init(t0), run);
            var (c, out) := (f.threads[t].call, f.threads[t].pc.out);
            && Claimed(Lineage.Past(f), t, c, out, v)
            && exists h: nat, i: nat, j: nat, env: Envelope :: WrittenAt(Init(t0), run, h, i, j, t, c, v, env)
  {
    RunTrail(t0, run, t);
    hide Legal, Final, Init;
    var f := Final(Init(t0), run);
    var (c, out) := (f.threads[t].call, f.threads[t].pc.out);
    v :| Claimed(Lineage.Past(f), t, c, out, v) && Written(Init(t0), run, t, c, v);
  }
}
