/** The L1 inside the step system: whatever threads interleave, the store of a worker is that of one
    sequential run of L1 operations, so all that holds of such runs holds of it. */
module LocalTier {
  import opened Basics
  import opened Tiered
  import opened WriteThrough

  type Op = L1.Op<Value>

  /** The L1 operation of worker `i` that an action amounts to, if any: a look, a fill with the times
      of the envelope, or an invalidation. */
  function OpOf(x: State, a: Action, i: Wid): Option<Op> {
    if i !in x.workers then None
    else
      match a
      case Invalidate(w, keys) => if w == i then Some(Op.DeleteMatching(keys)) else None
      case Advance(t, _) =>
        if t !in x.threads || x.threads[t].call.worker != i then None
        else
          var c := x.threads[t].call;
          (match x.threads[t].pc
           case ReadL1 => Some(Op.Get(c.key, c.allowStale, x.now, x.now))
           case RecheckL1 => Some(Op.Get(c.key, false, x.now, x.now))
           case Backfill(env, _, _) => Some(FillOp(c, env.value, env, x.now))
           case RecheckBackfill(env, _) => Some(FillOp(c, env.value, env, x.now))
           case PutL1(v, env) => Some(FillOp(c, v, env, x.now))
           case _ => None)
      case _ => None
  }

  function FillOp(c: Call, v: Value, env: Envelope, now: real): Op {
    Op.Set(c.key, L1.Entry(v, now, now + c.l1ttl, env.created, env.expires, env.staleUntil))
  }

  /** The operations of a run on the L1 of worker `i`, in order. */
  function OpsOf(s: State, run: seq<Action>, i: Wid): seq<Op>
    requires Legal(s, run)
    decreases |run|
  {
    if run == [] then []
    else
      var shorter := run[..|run| - 1];
      PrefixesLegal(s, run);
      var earlier := OpsOf(s, shorter, i);
      match OpOf(Final(s, shorter), run[|run| - 1], i)
      case Some(op) => earlier + [op]
      case None => earlier
  }

  lemma PrefixesLegal(s: State, run: seq<Action>)
    requires Legal(s, run) && run != []
    ensures Legal(s, run[..|run| - 1]) && Enabled(Final(s, run[..|run| - 1]), run[|run| - 1])
    ensures Final(s, run) == Apply(Final(s, run[..|run| - 1]), run[|run| - 1])
  {
    assert run == run[..|run| - 1] + [run[|run| - 1]];
    Snoc(s, run[..|run| - 1], run[|run| - 1]);
  }

  function Applied(store: L1.Store<Value>, max: int, op: Option<Op>): L1.Store<Value> {
    match op
    case None => store
    case Some(Get(k, allowStale, nowMono, nowEpoch)) => L1.Read(store, k, allowStale, nowMono, nowEpoch)
    case Some(Set(k, e)) => L1.Write(store, max, k, e)
    case Some(Delete(k)) => L1.Remove(store, {k})
    case Some(DeleteMatching(doomed)) => L1.Remove(store, doomed)
    case Some(Clear) => L1.Store([], map[])
  }

  lemma OwnMove(x: State, t: Tid, ch: Choice)
    requires Enabled(x, Advance(t, ch))
    ensures var w := x.workers[x.threads[t].call.worker];
            var e := Move(t, x.threads[t], w, x.l2, x.now, ch);
            && e.worker.max == w.max
            && e.worker.l1 == Applied(w.l1, w.max, OpOf(x, Advance(t, ch), x.threads[t].call.worker))
  {
    hide L1.Read, L1.Write, L1.Peek, Look, Purged, Seal, Flight.Acquire, Flight.Release;
  }

  lemma StepApplies(x: State, a: Action, i: Wid)
    requires Enabled(x, a) && i in x.workers
    ensures i in Apply(x, a).workers && Apply(x, a).workers[i].max == x.workers[i].max
    ensures Apply(x, a).workers[i].l1 == Applied(x.workers[i].l1, x.workers[i].max, OpOf(x, a, i))
  {
    hide Move, L1.Read, L1.Write, L1.Remove;
    if a.Advance? {
      OwnMove(x, a.tid, a.choice);
    }
  }

  lemma NewWorkersAreEmpty(x: State, a: Action, i: Wid)
    requires Enabled(x, a) && i !in x.workers && i in Apply(x, a).workers
    ensures Apply(x, a).workers[i].l1 == L1.Store([], map[])
  {
    hide Move;
  }

  lemma RunApplies(max: int, ops: seq<Op>, op: Op)
    requires L1.WellFormed(L1.Run(max, ops).store)
    ensures L1.Run(max, ops + [op]).store == Applied(L1.Run(max, ops).store, max, Some(op))
  {
    assert (ops + [op])[..|ops|] == ops;
    var s := L1.Run(max, ops).store;
    if op.Delete? && op.key !in s.entries {
      NotThere(s, op.key);
    }
  }

  lemma NotThere(s: L1.Store<Value>, k: Key)
    requires L1.WellFormed(s) && k !in s.entries
    ensures L1.Remove(s, {k}) == s
  {
    Without(s.order, k);
    assert s.entries - {k} == s.entries;
  }

  lemma {:induction false} Without(order: seq<Key>, k: Key)
    requires k !in order
    ensures L1.Keep(order, {k}) == order
  {
    if order != [] {
      Without(order[1..], k);
    }
  }

  lemma {:induction false} OpsComeAfterBoot(t0: real, run: seq<Action>, i: Wid)
    requires Legal(Init(t0), run)
    ensures i !in Final(Init(t0), run).workers ==> OpsOf(Init(t0), run, i) == []
    decreases |run|
  {
    hide Apply, Init;
    if run != [] {
      PrefixesLegal(Init(t0), run);
      OpsComeAfterBoot(t0, run[..|run| - 1], i);
      if i in Final(Init(t0), run[..|run| - 1]).workers {
        WorkersStay(Final(Init(t0), run[..|run| - 1]), run[|run| - 1], i);
      }
    }
  }

  lemma WorkersStay(x: State, a: Action, i: Wid)
    requires Enabled(x, a) && i in x.workers
    ensures i in Apply(x, a).workers
  {
    hide Move;
  }

  /** In every interleaving, the L1 of each worker is what one sequential run of its operations
      leaves: the order is the order of use, the entries are the last writes, and the size is bounded. */
  lemma {:induction false} LocalIsSequential(t0: real, run: seq<Action>, i: Wid)
    requires Legal(Init(t0), run) && i in Final(Init(t0), run).workers
    ensures var (w, ops) := (Final(Init(t0), run).workers[i], OpsOf(Init(t0), run, i));
            w.l1 == L1.Run(w.max, ops).store && L1.RunInvariant(w.max, ops)
    decreases |run|
  {
    hide Apply, Enabled, Init, L1.Run, L1.RunInvariant, OpOf, Applied;
    if run == [] {
      NoWorkers(t0);
    } else {
      var shorter, a := run[..|run| - 1], run[|run| - 1];
      PrefixesLegal(Init(t0), run);
      var x := Final(Init(t0), shorter);
      if i in x.workers {
        LocalIsSequential(t0, shorter, i);
        StepApplies(x, a, i);
        if OpOf(x, a, i).Some? {
          Settled(x.workers[i].max, OpsOf(Init(t0), shorter, i));
          RunApplies(x.workers[i].max, OpsOf(Init(t0), shorter, i), OpOf(x, a, i).value);
        } else {
          NothingApplied(x.workers[i].l1, x.workers[i].max);
        }
      } else {
        OpsComeAfterBoot(t0, shorter, i);
        NotYet(x, a, i);
        NewWorkersAreEmpty(x, a, i);
        EmptyRun(Apply(x, a).workers[i].max);
      }
      L1.RunKeeps(Final(Init(t0), run).workers[i].max, OpsOf(Init(t0), run, i));
    }
  }

  lemma NoWorkers(t0: real)
    ensures Final(Init(t0), []).workers == map[]
  {
  }

  lemma NotYet(x: State, a: Action, i: Wid)
    requires i !in x.workers
    ensures OpOf(x, a, i) == None
  {
  }

  lemma NothingApplied(store: L1.Store<Value>, max: int)
    ensures Applied(store, max, None) == store
  {
  }

  lemma EmptyRun(max: int)
    ensures L1.Run<Value>(max, []).store == L1.Store([], map[])
  {
  }

  lemma Settled(max: int, ops: seq<Op>)
    requires L1.RunInvariant(max, ops)
    ensures L1.WellFormed(L1.Run(max, ops).store)
  {
  }
}
