/** Short-lived memoisation under threads: each call looks up, computes and stores in three
    separate steps, and any number of calls interleave. */
module Memo {
  import opened Basics

  type CallId = nat

  datatype Entry<V> = Entry(at: real, value: V)

  /** Unhashable arguments fail the first look-up; a size limit too small fails the store. */
  datatype Cause = ByFunction | Unhashable | SizeLimit

  /** Where a call stands; `now` is its own reading of the clock. */
  datatype Phase<K, V> =
    | Started(key: K)
    | Timed(key: K, now: real)
    | Missed(key: K, now: real)
    | Running(key: K, now: real, begun: real)
    | Computed(key: K, now: real, value: V)
    | Returned(key: K, now: real, value: V)
    | Raised(key: K, cause: Cause)

  /** A finished run of the memoised function: its arguments, when it began, what it gave. */
  datatype Made<K, V> = Made(key: K, begun: real, value: V)

  /** `made` is history only: no step looks at it. */
  datatype System<K, V> = System(
    store: map<K, Entry<V>>,
    calls: map<CallId, Phase<K, V>>,
    clock: real,
    made: map<CallId, Made<K, V>>)

  /** `hashable`: whether arguments can be dictionary keys. */
  datatype Config<!K> = Config(ttl: real, maxsize: int, hashable: K -> bool)

  datatype Action<K, V> =
    | Tick(elapsed: real)
    | Begin(id: CallId, key: K)
    | ReadClock(id: CallId)
    | LookUp(id: CallId)
    | CallFunction(id: CallId)
    | Finish(id: CallId, outcome: Option<V>)
    | Store(id: CallId, victim: Option<K>)
    | Clear

  // ---------------------------------------------------------------- the two critical sections

  function Hit<K, V>(store: map<K, Entry<V>>, key: K, now: real, ttl: real): Option<V> {
    if key in store && now - store[key].at < ttl then Some(store[key].value) else None
  }

  /** `min(store, key=...)`: an entry no other is older than; which of several is up to the dictionary. */
  predicate IsOldest<K(!new), V>(store: map<K, Entry<V>>, victim: K) {
    victim in store && forall k :: k in store ==> store[victim].at <= store[k].at
  }

  /** None: `min` of an empty dictionary raises. */
  function Stored<K, V>(store: map<K, Entry<V>>, maxsize: int, key: K, e: Entry<V>, victim: Option<K>): Option<map<K,
        Entry<V>>> {
    if |store| < maxsize then Some(store[key := e])
    else if victim.None? then None
    else Some((store - {victim.value})[key := e])
  }

  ghost predicate VictimOk<K(!new), V>(store: map<K, Entry<V>>, maxsize: int, victim: Option<K>) {
    |store| >= maxsize ==>
      match victim
      case None => store == map[]
      case Some(k) => IsOldest(store, k)
  }

  // ---------------------------------------------------------------- steps

  ghost predicate Legal<K(!new), V(!new)>(cfg: Config<K>, s: System<K, V>, a: Action<K, V>) {
    match a
    case Tick(elapsed) => elapsed >= 0.0
    case Begin(id, _) => id !in s.calls && id !in s.made
    case ReadClock(id) => id in s.calls && s.calls[id].Started?
    case LookUp(id) => id in s.calls && s.calls[id].Timed?
    case CallFunction(id) => id in s.calls && s.calls[id].Missed?
    case Finish(id, _) => id in s.calls && s.calls[id].Running? && id !in s.made
    case Store(id, victim) => id in s.calls && s.calls[id].Computed? && VictimOk(s.store, cfg.maxsize, victim)
    case Clear => true
  }

  ghost function Step<K(!new), V(!new)>(cfg: Config<K>, s: System<K, V>, a: Action<K, V>): System<K, V>
    requires Legal(cfg, s, a)
  {
    match a
    case Tick(elapsed) => s.(clock := s.clock + elapsed)
    case Begin(id, key) => s.(calls := s.calls[id := Started(key)])
    case ReadClock(id) => s.(calls := s.calls[id := Timed(s.calls[id].key, s.clock)])
    case LookUp(id) =>
      var (key, now) := (s.calls[id].key, s.calls[id].now);
      var hit := Hit(s.store, key, now, cfg.ttl);
      s.(calls := s.calls[id :=
        if !cfg.hashable(key) then Raised(key, Unhashable)
        else if hit.Some? then Returned(key, now, hit.value)
        else Missed(key, now)])
    case CallFunction(id) => s.(calls := s.calls[id := Running(s.calls[id].key, s.calls[id].now, s.clock)])
    case Finish(id, outcome) =>
      var (key, now, begun) := (s.calls[id].key, s.calls[id].now, s.calls[id].begun);
      if outcome.None? then s.(calls := s.calls[id := Raised(key, ByFunction)])
      else s.(calls := s.calls[id := Computed(key, now, outcome.value)],
        made := s.made[id := Made(key, begun, outcome.value)])
    case Store(id, victim) =>
      var (key, now, value) := (s.calls[id].key, s.calls[id].now, s.calls[id].value);
      var after := Stored(s.store, cfg.maxsize, key, Entry(now, value), victim);
      if after.Some? then s.(store := after.value, calls := s.calls[id := Returned(key, now, value)])
      else s.(calls := s.calls[id := Raised(key, SizeLimit)])
    case Clear => s.(store := map[])
  }

  ghost predicate LegalRun<K(!new), V(!new)>(cfg: Config<K>, start: System<K, V>, actions: seq<Action<K, V>>)
    decreases |actions|, 0
  {
    actions == [] ||
    (LegalRun(cfg, start, actions[..|actions| - 1]) &&
      Legal(cfg, After(cfg, start, actions[..|actions| - 1]), actions[|actions| - 1]))
  }

  ghost function After<K(!new), V(!new)>(cfg: Config<K>, start: System<K, V>, actions: seq<Action<K, V>>): System<K, V>
    requires LegalRun(cfg, start, actions)
    decreases |actions|, 1
  {
    if actions == [] then start else Step(cfg, After(cfg, start, actions[..|actions| - 1]), actions[|actions| - 1])
  }

  predicate Initial<K, V>(s: System<K, V>) {
    s.store == map[] && s.calls == map[] && s.made == map[]
  }

  // ---------------------------------------------------------------- invariant

  /** Some finished run of the function on `key`, begun at `since` or later, gave `value`. */
  ghost predicate Came<K(!new), V(!new)>(made: map<CallId, Made<K, V>>, key: K, value: V, since: real) {
    exists c :: c in made && made[c].key == key && made[c].value == value && made[c].begun >= since
  }

  /** ... begun less than `ttl` before `now`, or not before `now` at all. */
  ghost predicate Recent<K(!new), V(!new)>(made: map<CallId, Made<K, V>>, key: K, value: V, now: real, ttl: real) {
    exists c :: c in made && made[c].key == key && made[c].value == value &&
      (now - made[c].begun < ttl || made[c].begun >= now)
  }

  ghost predicate PhaseOk<K(!new), V(!new)>(cfg: Config<K>, s: System<K, V>, p: Phase<K, V>) {
    match p
    case Started(_) => true
    case Timed(_, now) => now <= s.clock
    case Missed(key, now) => now <= s.clock && cfg.hashable(key)
    case Running(key, now, begun) => now <= begun <= s.clock && cfg.hashable(key)
    case Computed(key, now, value) => Came(s.made, key, value, now) && cfg.hashable(key)
    case Returned(key, now, value) => cfg.hashable(key) && Recent(s.made, key, value, now, cfg.ttl)
    case Raised(key, cause) =>
      (cause.Unhashable? <==> !cfg.hashable(key)) && (cause.SizeLimit? ==> cfg.maxsize <= 0)
  }

  ghost predicate Invariant<K(!new), V(!new)>(cfg: Config<K>, s: System<K, V>) {
    && |s.store| <= Max(cfg.maxsize, 0)
    && (forall k :: k in s.store ==> cfg.hashable(k) && Came(s.made, k, s.store[k].value, s.store[k].at))
    && (forall id :: id in s.calls ==> PhaseOk(cfg, s, s.calls[id]))
  }

  lemma CameGrows<K(!new), V(!new)>(made: map<CallId, Made<K, V>>, id: CallId, m: Made<K, V>)
    requires id !in made
    ensures forall key, value, since :: Came(made, key, value, since) ==> Came(made[id := m], key, value, since)
    ensures forall key, value, now, ttl :: Recent(made, key, value, now, ttl) ==>
            Recent(made[id := m], key, value, now, ttl)
    ensures Came(made[id := m], m.key, m.value, m.begun)
  {
    var more := made[id := m];
    assert forall c :: c in made ==> c in more && more[c] == made[c];
    assert id in more && more[id] == m;
  }

  lemma AddOne<K, V>(store: map<K, Entry<V>>, key: K, e: Entry<V>)
    ensures |store[key := e]| <= |store| + 1
  {
    assert store[key := e].Keys == store.Keys + {key};
  }

  lemma DropOne<K, V>(store: map<K, Entry<V>>, key: K)
    requires key in store
    ensures |store - {key}| == |store| - 1
  {
    assert (store - {key}).Keys == store.Keys - {key};
  }

  lemma StoreFits<K(!new), V>(store: map<K, Entry<V>>, maxsize: int, key: K, e: Entry<V>, victim: Option<K>)
    requires |store| <= Max(maxsize, 0) && VictimOk(store, maxsize, victim)
    ensures var after := Stored(store, maxsize, key, e, victim);
            && (after.None? <==> maxsize <= 0)
            && (after.Some? ==> |after.value| <= maxsize && key in after.value && after.value[key] == e)
            && (after.Some? ==> forall k :: k in after.value ==> k == key || (k in store && after.value[k] == store[k]))
  {
    if |store| < maxsize {
      AddOne(store, key, e);
    } else if victim.Some? {
      DropOne(store, victim.value);
      AddOne(store - {victim.value}, key, e);
      assert |store| > 0;
    } else {
      assert |store| == 0;
    }
  }

  /** A call moving on, with nothing else changed. */
  lemma MoveKeeps<K(!new), V(!new)>(cfg: Config<K>, s: System<K, V>, id: CallId, p: Phase<K, V>)
    requires Invariant(cfg, s) && PhaseOk(cfg, s, p)
    ensures Invariant(cfg, s.(calls := s.calls[id := p]))
  {
    var t := s.(calls := s.calls[id := p]);
    forall i | i in t.calls
      ensures PhaseOk(cfg, t, t.calls[i])
    {
      hide Came, Recent;
      assert PhaseOk(cfg, s, if i == id then p else s.calls[i]);
    }
    hide Came, Recent, PhaseOk;
  }

  lemma LookUpKeeps<K(!new), V(!new)>(cfg: Config<K>, s: System<K, V>, id: CallId)
    requires Invariant(cfg, s) && Legal(cfg, s, LookUp(id))
    ensures Invariant(cfg, Step(cfg, s, LookUp(id)))
  {
    var key, now := s.calls[id].key, s.calls[id].now;
    var hit := Hit(s.store, key, now, cfg.ttl);
    assert PhaseOk(cfg, s, s.calls[id]);
    if hit.Some? {
      var e := s.store[key];
      var c :| c in s.made && s.made[c].key == key && s.made[c].value == e.value && s.made[c].begun >= e.at;
      assert Recent(s.made, key, e.value, now, cfg.ttl);
    }
    MoveKeeps(cfg, s, id,
      if !cfg.hashable(key) then Raised(key, Unhashable)
      else if hit.Some? then Returned(key, now, hit.value)
      else Missed(key, now));
  }

  lemma FinishKeeps<K(!new), V(!new)>(cfg: Config<K>, s: System<K, V>, id: CallId, outcome: Option<V>)
    requires Invariant(cfg, s) && Legal(cfg, s, Finish(id, outcome))
    ensures Invariant(cfg, Step(cfg, s, Finish(id, outcome)))
  {
    var key, now, begun := s.calls[id].key, s.calls[id].now, s.calls[id].begun;
    assert PhaseOk(cfg, s, s.calls[id]);
    if outcome.None? {
      MoveKeeps(cfg, s, id, Raised(key, ByFunction));
    } else {
      CameGrows(s.made, id, Made(key, begun, outcome.value));
      var more := s.(made := s.made[id := Made(key, begun, outcome.value)]);
      assert Came(more.made, key, outcome.value, now);
      assert Invariant(cfg, more) by {
        hide Came, Recent;
        forall i | i in more.calls
          ensures PhaseOk(cfg, more, more.calls[i])
        {
          assert PhaseOk(cfg, s, s.calls[i]);
        }
      }
      MoveKeeps(cfg, more, id, Computed(key, now, outcome.value));
    }
  }

  lemma StoreKeeps<K(!new), V(!new)>(cfg: Config<K>, s: System<K, V>, id: CallId, victim: Option<K>)
    requires Invariant(cfg, s) && Legal(cfg, s, Store(id, victim))
    ensures Invariant(cfg, Step(cfg, s, Store(id, victim)))
  {
    var key, now, value := s.calls[id].key, s.calls[id].now, s.calls[id].value;
    var after := Stored(s.store, cfg.maxsize, key, Entry(now, value), victim);
    assert PhaseOk(cfg, s, s.calls[id]);
    StoreFits(s.store, cfg.maxsize, key, Entry(now, value), victim);
    if after.None? {
      MoveKeeps(cfg, s, id, Raised(key, SizeLimit));
    } else {
      assert Came(s.made, key, value, now);
      var c :| c in s.made && s.made[c].key == key && s.made[c].value == value && s.made[c].begun >= now;
      assert Recent(s.made, key, value, now, cfg.ttl);
      var t := s.(store := after.value);
      assert Invariant(cfg, t) by {
        hide Came, Recent, Stored;
        forall i | i in t.calls
          ensures PhaseOk(cfg, t, t.calls[i])
        {
          assert PhaseOk(cfg, s, s.calls[i]);
        }
      }
      MoveKeeps(cfg, t, id, Returned(key, now, value));
    }
  }

  lemma ClockKeeps<K(!new), V(!new)>(cfg: Config<K>, s: System<K, V>, t: System<K, V>)
    requires Invariant(cfg, s) && s.clock <= t.clock && t.calls == s.calls && t.made == s.made
    requires t.store == s.store || t.store == map[]
    ensures Invariant(cfg, t)
  {
    hide Came, Recent;
    forall i | i in t.calls
      ensures PhaseOk(cfg, t, t.calls[i])
    {
      assert PhaseOk(cfg, s, s.calls[i]);
    }
  }

  lemma StepKeeps<K(!new), V(!new)>(cfg: Config<K>, s: System<K, V>, a: Action<K, V>)
    requires Invariant(cfg, s) && Legal(cfg, s, a)
    ensures Invariant(cfg, Step(cfg, s, a))
  {
    match a {
      case Tick(_) => ClockKeeps(cfg, s, Step(cfg, s, a));
      case Clear => ClockKeeps(cfg, s, Step(cfg, s, a));
      case Begin(id, key) => MoveKeeps(cfg, s, id, Started(key));
      case ReadClock(id) => MoveKeeps(cfg, s, id, Timed(s.calls[id].key, s.clock));
      case LookUp(id) => LookUpKeeps(cfg, s, id);
      case CallFunction(id) =>
        assert PhaseOk(cfg, s, s.calls[id]);
        MoveKeeps(cfg, s, id, Running(s.calls[id].key, s.calls[id].now, s.clock));
      case Finish(id, outcome) => FinishKeeps(cfg, s, id, outcome);
      case Store(id, victim) => StoreKeeps(cfg, s, id, victim);
    }
  }

  /** In every interleaving: the store never outgrows `maxsize`; a value returned for some
      arguments came from a run of the function on those arguments begun less than `ttl` before
      the caller's own clock reading (or after it); and nothing is raised but the function's own
      exceptions, a TypeError exactly for unhashable arguments, and the store's if `maxsize` is
      zero or less. */
  lemma {:induction false} RunKeeps<K(!new), V(!new)>(cfg: Config<K>, start: System<K, V>, actions: seq<Action<K, V>>)
    requires Initial(start) && LegalRun(cfg, start, actions)
    ensures Invariant(cfg, After(cfg, start, actions))
    decreases |actions|
  {
    if actions != [] {
      var prefix := actions[..|actions| - 1];
      RunKeeps(cfg, start, prefix);
      StepKeeps(cfg, After(cfg, start, prefix), actions[|actions| - 1]);
      hide Invariant, Step, Legal;
    }
  }

  /** The same for one returned value: the run of the function it came from. */
  lemma ReturnedIsRecent<K(!new),
        V(!new)>(cfg: Config<K>, start: System<K, V>, actions: seq<Action<K, V>>, id: CallId) returns (c: CallId)
    requires Initial(start) && LegalRun(cfg, start, actions)
    requires id in After(cfg, start, actions).calls && After(cfg, start, actions).calls[id].Returned?
    ensures var end := After(cfg, start, actions);
            && c in end.made && end.made[c].key == end.calls[id].key && end.made[c].value == end.calls[id].value
            && (end.calls[id].now - end.made[c].begun < cfg.ttl || end.made[c].begun >= end.calls[id].now)
            && (cfg.ttl > 0.0 ==> end.calls[id].now - end.made[c].begun < cfg.ttl)
  {
    RunKeeps(cfg, start, actions);
    var end := After(cfg, start, actions);
    assert PhaseOk(cfg, end, end.calls[id]);
    c :| c in end.made && end.made[c].key == end.calls[id].key && end.made[c].value == end.calls[id].value
         && (end.calls[id].now - end.made[c].begun < cfg.ttl || end.made[c].begun >= end.calls[id].now);
  }

  /** A call that gets as far as storing its value raises exactly when the size limit is zero
      or negative - whatever happened before. */
  lemma SizeLimitRaisesIff<K(!new),
        V(!new)>(cfg: Config<K>, start: System<K, V>, actions: seq<Action<K, V>>, id: CallId, victim: Option<K>)
    requires Initial(start) && LegalRun(cfg, start, actions) &&
             Legal(cfg, After(cfg, start, actions), Store(id, victim))
    ensures Step(cfg, After(cfg, start, actions), Store(id, victim)).calls[id].Raised? <==> cfg.maxsize <= 0
  {
    RunKeeps(cfg, start, actions);
    var s := After(cfg, start, actions);
    StoreFits(s.store, cfg.maxsize, s.calls[id].key, Entry(s.calls[id].now, s.calls[id].value), victim);
  }

  // ---------------------------------------------------------------- what is stored is found again

  /** A look-up of hashable arguments ends the call exactly when an entry younger than `ttl` is there,
      with the value of that entry; otherwise the function is going to be run. */
  lemma LookUpIff<K(!new), V(!new)>(cfg: Config<K>, s: System<K, V>, id: CallId)
    requires Legal(cfg, s, LookUp(id)) && cfg.hashable(s.calls[id].key)
    ensures var (key, now) := (s.calls[id].key, s.calls[id].now);
            var found := key in s.store && now - s.store[key].at < cfg.ttl;
            Step(cfg, s, LookUp(id)) ==
            s.(calls := s.calls[id := if found then Returned(key, now, s.store[key].value) else Missed(key, now)])
  {
  }

  /** The other arguments for which a call that read the clock at `since` or later stored a value. */
  ghost function Rivals<K(!new), V(!new)>(cfg: Config<K>, start: System<K, V>, actions: seq<Action<K, V>>, key: K,
        since: real): set<K>
    requires LegalRun(cfg, start, actions)
    decreases |actions|
  {
    if actions == [] then {}
    else
      var prefix, a := actions[..|actions| - 1], actions[|actions| - 1];
      var s, earlier := After(cfg, start, prefix), Rivals(cfg, start, prefix, key, since);
      if a.Store? && s.calls[a.id].key != key && s.calls[a.id].now >= since then earlier + {s.calls[a.id].key}
      else earlier
  }

  /** The action stores nothing for these arguments and does not clear the store. */
  ghost predicate Spares<K(!new), V(!new)>(s: System<K, V>, a: Action<K, V>, key: K) {
    !a.Clear? && (a.Store? && a.id in s.calls && s.calls[a.id].Computed? ==> s.calls[a.id].key != key)
  }

  ghost predicate AllSpare<K(!new), V(!new)>(cfg: Config<K>, start: System<K, V>, actions: seq<Action<K, V>>, i: nat,
        key: K)
    requires LegalRun(cfg, start, actions)
    decreases |actions|
  {
    |actions| > i ==>
      && AllSpare(cfg, start, actions[..|actions| - 1], i, key)
      && Spares(After(cfg, start, actions[..|actions| - 1]), actions[|actions| - 1], key)
  }

  ghost predicate RivalsKnown<K(!new), V(!new)>(store: map<K, Entry<V>>, rivals: set<K>, key: K, since: real) {
    forall k :: k in store && k != key && store[k].at >= since ==> k in rivals
  }

  lemma StepKnows<K(!new), V(!new)>(cfg: Config<K>, s: System<K, V>, a: Action<K, V>, rivals: set<K>, more: set<K>,
        key: K, since: real)
    requires Legal(cfg, s, a) && RivalsKnown(s.store, rivals, key, since) && rivals <= more
    requires a.Store? && s.calls[a.id].key != key && s.calls[a.id].now >= since ==> s.calls[a.id].key in more
    ensures RivalsKnown(Step(cfg, s, a).store, more, key, since)
  {
  }

  lemma {:induction false} StoreKnowsRivals<K(!new), V(!new)>(cfg: Config<K>, start: System<K, V>,
        actions: seq<Action<K, V>>, key: K, since: real)
    requires Initial(start) && LegalRun(cfg, start, actions)
    ensures RivalsKnown(After(cfg, start, actions).store, Rivals(cfg, start, actions, key, since), key, since)
    decreases |actions|
  {
    hide Step, Legal, RivalsKnown;
    if actions != [] {
      var prefix := actions[..|actions| - 1];
      StoreKnowsRivals(cfg, start, prefix, key, since);
      StepKnows(cfg, After(cfg, start, prefix), actions[|actions| - 1], Rivals(cfg, start, prefix, key, since),
        Rivals(cfg, start, actions, key, since), key, since);
    } else {
      NothingKnown(start, key, since);
    }
  }

  lemma NothingKnown<K(!new), V(!new)>(start: System<K, V>, key: K, since: real)
    requires Initial(start)
    ensures RivalsKnown(start.store, {}, key, since)
  {
  }

  /** Too few rivals to push the entry out. */
  lemma StepSpares<K(!new), V(!new)>(cfg: Config<K>, s: System<K, V>, a: Action<K, V>, rivals: set<K>, key: K,
        e: Entry<V>)
    requires Legal(cfg, s, a) && Spares(s, a, key) && key in s.store && s.store[key] == e
    requires RivalsKnown(s.store, rivals, key, e.at) && |rivals| + 1 < cfg.maxsize
    ensures key in Step(cfg, s, a).store && Step(cfg, s, a).store[key] == e
  {
    if a.Store? && |s.store| >= cfg.maxsize && a.victim == Some(key) {
      assert IsOldest(s.store, key);
      assert s.store.Keys <= rivals + {key};
      Fewer(s.store.Keys, rivals + {key});
      assert false;
    }
  }

  lemma Fewer<T>(a: set<T>, b: set<T>)
    requires a <= b
    ensures |a| <= |b|
  {
    assert b == a + (b - a);
  }

  lemma {:induction false} EntryStays<K(!new), V(!new)>(cfg: Config<K>, start: System<K, V>, actions: seq<Action<K, V>>,
        i: nat, key: K, e: Entry<V>)
    requires Initial(start) && LegalRun(cfg, start, actions) && i <= |actions| && LegalRun(cfg, start, actions[..i])
    requires key in After(cfg, start, actions[..i]).store && After(cfg, start, actions[..i]).store[key] == e
    requires AllSpare(cfg, start, actions, i, key) && |Rivals(cfg, start, actions, key, e.at)| + 1 < cfg.maxsize
    ensures key in After(cfg, start, actions).store && After(cfg, start, actions).store[key] == e
    decreases |actions|
  {
    hide Step, Legal, RivalsKnown, Spares, Initial;
    if i == |actions| {
      assert actions[..i] == actions;
    } else {
      var prefix := actions[..|actions| - 1];
      assert prefix[..i] == actions[..i];
      Fewer(Rivals(cfg, start, prefix, key, e.at), Rivals(cfg, start, actions, key, e.at));
      EntryStays(cfg, start, prefix, i, key, e);
      StoreKnowsRivals(cfg, start, prefix, key, e.at);
      StepSpares(cfg, After(cfg, start, prefix), actions[|actions| - 1], Rivals(cfg, start, prefix, key, e.at), key, e);
    }
  }

  /** In every interleaving: what call `c` stores in action `i` is given to every later call for the
      same arguments that read the clock less than `ttl` after `c` did, without running the function -
      unless the store was cleared, somebody stored for these arguments again, or calls no older than
      `c` stored values for `maxsize` - 1 or more other arguments. */
  lemma StoredIsFound<K(!new), V(!new)>(cfg: Config<K>, start: System<K, V>, actions: seq<Action<K, V>>, i: nat,
        c: CallId, id: CallId)
    requires Initial(start) && LegalRun(cfg, start, actions) && i < |actions|
    requires LegalRun(cfg, start, actions[..i]) && actions[i].Store? && actions[i].id == c
    requires Legal(cfg, After(cfg, start, actions[..i]), actions[i])
    requires Legal(cfg, After(cfg, start, actions), LookUp(id))
    requires var (s, end) := (After(cfg, start, actions[..i]), After(cfg, start, actions));
             && s.calls[c].key == end.calls[id].key && AllSpare(cfg, start, actions, i + 1, s.calls[c].key)
             && |Rivals(cfg, start, actions, s.calls[c].key, s.calls[c].now)| + 1 < cfg.maxsize
             && end.calls[id].now - s.calls[c].now < cfg.ttl
    ensures var (s, end) := (After(cfg, start, actions[..i]), After(cfg, start, actions));
            Step(cfg, end, LookUp(id)).calls[id] == Returned(end.calls[id].key, end.calls[id].now, s.calls[c].value)
  {
    var s := After(cfg, start, actions[..i]);
    var (key, e) := (s.calls[c].key, Entry(s.calls[c].now, s.calls[c].value));
    assert actions[..i + 1][..i] == actions[..i];
    RunKeeps(cfg, start, actions[..i]);
    StoreFits(s.store, cfg.maxsize, key, e, actions[i].victim);
    EntryStays(cfg, start, actions, i + 1, key, e);
    RunKeeps(cfg, start, actions);
    LookUpIff(cfg, After(cfg, start, actions), id);
  }

  // ---------------------------------------------------------------- the code

  /** The closure's dictionary and the sections that run under its lock. */
  class TtlCache<K(==, !new), V> {
    var store: map<K, Entry<V>>
    const ttl: real
    const maxsize: int

    constructor (ttl: real, maxsize: int)
      ensures store == map[] && this.ttl == ttl && this.maxsize == maxsize
    {
      this.ttl, this.maxsize, store := ttl, maxsize, map[];
    }

    method LookUp(key: K, now: real) returns (hit: Option<V>)
      ensures hit == Hit(store, key, now, ttl)
      ensures hit == if key in store && now - store[key].at < ttl then Some(store[key].value) else None
    {
      if key in store {
        var entry := store[key];
        if now - entry.at < ttl {
          return Some(entry.value);
        }
      }
      return None;
    }

    /** The dictionary's keys in its own order, of which the first minimum is taken. */
    method Oldest() returns (victim: K)
      requires store != map[]
      ensures IsOldest(store, victim)
    {
      victim :| victim in store.Keys;
      var todo := store.Keys - {victim};
      while todo != {}
        invariant todo <= store.Keys && victim in store
        invariant forall k :: k in store && k !in todo ==> store[victim].at <= store[k].at
        decreases todo
      {
        var k :| k in todo;
        todo := todo - {k};
        if store[k].at < store[victim].at {
          victim := k;
        }
      }
    }

    method Put(key: K, now: real, value: V) returns (ok: bool, ghost victim: Option<K>)
      modifies this`store
      ensures VictimOk(old(store), maxsize, victim)
      ensures var after := Stored(old(store), maxsize, key, Entry(now, value), victim);
              && ok == after.Some?
              && store == if ok then after.value else old(store)
    {
      victim := None;
      if |store| >= maxsize {
        if store == map[] {
          return false, None;
        }
        var oldest := Oldest();
        victim := Some(oldest);
        store := store - {oldest};
      }
      store := store[key := Entry(now, value)];
      ok := true;
    }

    method CacheClear()
      modifies this`store
      ensures store == map[]
    {
      store := map[];
    }
  }
}
