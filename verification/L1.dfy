/** The process-local tier: a bounded LRU map whose entries carry a monotonic and an
    epoch deadline. The pure functions say what each operation does to the store and
    its counters; the class performs them in place; the lemmas speak about whole runs. */
module L1 {
  import opened Basics

  type Key = string

  datatype Entry<V> = Entry(
    value: V,
    createdMono: real,
    expiresMono: real,
    createdEpoch: real,
    expiresEpoch: real,
    staleUntil: real)

  /** An ordered dictionary: `order` lists the keys, least recently used first. */
  datatype Store<V> = Store(order: seq<Key>, entries: map<Key, Entry<V>>)

  datatype Lookup<V> = Miss | Fresh(entry: Entry<V>) | Stale(entry: Entry<V>)

  // ---------------------------------------------------------------- operations

  function Keep(order: seq<Key>, doomed: set<Key>): seq<Key> {
    if order == [] then []
    else if order[0] in doomed then Keep(order[1..], doomed)
    else [order[0]] + Keep(order[1..], doomed)
  }

  function Touch(order: seq<Key>, k: Key): seq<Key> {
    Keep(order, {k}) + [k]
  }

  function Peek<V>(entries: map<Key, Entry<V>>, k: Key, allowStale: bool, nowMono: real, nowEpoch: real): Lookup<V> {
    if k !in entries then Miss
    else if nowEpoch < entries[k].expiresEpoch && nowMono < entries[k].expiresMono then Fresh(entries[k])
    else if allowStale && nowEpoch < entries[k].staleUntil then Stale(entries[k])
    else Miss
  }

  function Read<V>(s: Store<V>, k: Key, allowStale: bool, nowMono: real, nowEpoch: real): Store<V> {
    if k !in s.entries then s
    else if Peek(s.entries, k, allowStale, nowMono, nowEpoch).Miss? then Remove(s, {k})
    else Store(Touch(s.order, k), s.entries)
  }

  function Remove<V>(s: Store<V>, doomed: set<Key>): Store<V> {
    Store(Keep(s.order, doomed), s.entries - doomed)
  }

  function Write<V>(s: Store<V>, max: int, k: Key, e: Entry<V>): Store<V> {
    var o := Touch(s.order, k);
    if |o| > max then Store(o[1..], s.entries[k := e] - {o[0]}) else Store(o, s.entries[k := e])
  }

  predicate Distinct(order: seq<Key>) {
    order == [] || (order[0] !in order[1..] && Distinct(order[1..]))
  }

  ghost predicate WellFormed<V>(s: Store<V>) {
    && Distinct(s.order)
    && (forall k :: k in s.order <==> k in s.entries)
  }

  // ---------------------------------------------------------------- counted runs

  /** The store with its counters. The last three are not kept by the program:
      they record how many new keys came in and how many left by deletion. */
  datatype Cache<V> = Cache(
    store: Store<V>,
    hits: nat, misses: nat, evictions: nat, expirations: nat,
    inserted: nat, deleted: nat, cleared: nat)

  datatype Op<V> =
    | Get(key: Key, allowStale: bool, nowMono: real, nowEpoch: real)
    | Set(key: Key, entry: Entry<V>)
    | Delete(key: Key)
    | DeleteMatching(doomed: set<Key>)
    | Clear

  function Empty<V>(): Cache<V> {
    Cache(Store([], map[]), 0, 0, 0, 0, 0, 0, 0)
  }

  function GetStep<V>(c: Cache<V>, k: Key, allowStale: bool, nowMono: real, nowEpoch: real): Cache<V> {
    var s := Read(c.store, k, allowStale, nowMono, nowEpoch);
    if k !in c.store.entries then c.(misses := c.misses + 1)
    else if Peek(c.store.entries, k, allowStale, nowMono, nowEpoch).Miss?
    then c.(store := s, expirations := c.expirations + 1, misses := c.misses + 1)
    else c.(store := s, hits := c.hits + 1)
  }

  function SetStep<V>(max: int, c: Cache<V>, k: Key, e: Entry<V>): Cache<V> {
    c.(store := Write(c.store, max, k, e),
    inserted := c.inserted + (if k in c.store.entries then 0 else 1),
    evictions := c.evictions + (if |Touch(c.store.order, k)| > max then 1 else 0))
  }

  function RemoveStep<V>(c: Cache<V>, doomed: set<Key>): Cache<V> {
    c.(store := Remove(c.store, doomed), deleted := c.deleted + |doomed * c.store.entries.Keys|)
  }

  function ClearStep<V>(c: Cache<V>): Cache<V> {
    c.(store := Store([], map[]), cleared := c.cleared + |c.store.entries|)
  }

  function Step<V>(max: int, c: Cache<V>, op: Op<V>): Cache<V> {
    match op
    case Get(k, allowStale, nowMono, nowEpoch) => GetStep(c, k, allowStale, nowMono, nowEpoch)
    case Set(k, e) => SetStep(max, c, k, e)
    case Delete(k) => if k in c.store.entries then RemoveStep(c, {k}) else c
    case DeleteMatching(doomed) => RemoveStep(c, doomed)
    case Clear => ClearStep(c)
  }

  function Run<V>(max: int, ops: seq<Op<V>>): Cache<V> {
    if ops == [] then Empty() else Step(max, Run(max, ops[..|ops| - 1]), ops[|ops| - 1])
  }

  /** Does operation `op`, started in `c`, count as a use of `k`? A write does; a read
      does when it hits. */
  predicate Touches<V>(c: Cache<V>, op: Op<V>, k: Key) {
    match op
    case Get(key, allowStale, nowMono, nowEpoch) =>
      key == k && !Peek(c.store.entries, k, allowStale, nowMono, nowEpoch).Miss?
    case Set(key, _) => key == k
    case _ => false
  }

  /** The recency stamp of `k`: index of its last use in the run, or -1. */
  function LastTouch<V>(max: int, ops: seq<Op<V>>, k: Key): int {
    if ops == [] then -1
    else
      var prefix := ops[..|ops| - 1];
      if Touches(Run(max, prefix), ops[|ops| - 1], k) then |ops| - 1 else LastTouch(max, prefix, k)
  }

  /** The entry most recently written under `k` and not removed by name since. */
  function LastWrite<V>(ops: seq<Op<V>>, k: Key): Option<Entry<V>> {
    if ops == [] then None
    else
      var prefix := ops[..|ops| - 1];
      match ops[|ops| - 1]
      case Set(key, e) => if key == k then Some(e) else LastWrite(prefix, k)
      case Delete(key) => if key == k then None else LastWrite(prefix, k)
      case DeleteMatching(doomed) => if k in doomed then None else LastWrite(prefix, k)
      case Clear => None
      case Get(_, _, _, _) => LastWrite(prefix, k)
  }

  ghost predicate SortedBy(order: seq<Key>, stamp: Key -> int) {
    forall i, j :: 0 <= i < j < |order| ==> stamp(order[i]) < stamp(order[j])
  }

  // ---------------------------------------------------------------- facts about the order

  lemma {:induction false} KeepMembers(order: seq<Key>, doomed: set<Key>)
    ensures forall k :: k in Keep(order, doomed) <==> k in order && k !in doomed
  {
    if order != [] {
      KeepMembers(order[1..], doomed);
      assert order == [order[0]] + order[1..];
    }
  }

  lemma {:induction false} KeepSorted(order: seq<Key>, doomed: set<Key>, stamp: Key -> int)
    requires SortedBy(order, stamp)
    ensures SortedBy(Keep(order, doomed), stamp)
  {
    if order != [] {
      KeepSorted(order[1..], doomed, stamp);
      KeepMembers(order[1..], doomed);
      var rest := Keep(order[1..], doomed);
      forall j | 0 <= j < |rest|
        ensures stamp(order[0]) < stamp(rest[j])
      {
        assert rest[j] in order[1..];
        var i :| 0 <= i < |order[1..]| && order[1..][i] == rest[j];
        assert order[i + 1] == rest[j];
      }
    }
  }

  lemma {:induction false} KeepDistinct(order: seq<Key>, doomed: set<Key>)
    requires Distinct(order)
    ensures Distinct(Keep(order, doomed))
  {
    if order != [] {
      KeepDistinct(order[1..], doomed);
      KeepMembers(order[1..], doomed);
    }
  }

  lemma {:induction false} TouchDistinct(order: seq<Key>, k: Key)
    requires Distinct(order)
    ensures Distinct(Touch(order, k))
    ensures forall i :: i in Touch(order, k) <==> i == k || i in order
  {
    KeepDistinct(order, {k});
    KeepMembers(order, {k});
    AppendDistinct(Keep(order, {k}), k);
  }

  lemma {:induction false} AppendDistinct(order: seq<Key>, k: Key)
    requires Distinct(order) && k !in order
    ensures Distinct(order + [k])
  {
    if order != [] {
      AppendDistinct(order[1..], k);
      assert (order + [k])[1..] == order[1..] + [k];
    }
  }

  lemma {:induction false} DistinctCount(order: seq<Key>, keys: set<Key>)
    requires Distinct(order)
    requires forall k :: k in order <==> k in keys
    ensures |order| == |keys|
  {
    if order == [] {
      assert keys == {};
    } else {
      assert order == [order[0]] + order[1..];
      DistinctCount(order[1..], keys - {order[0]});
    }
  }

  lemma KeepTwice(order: seq<Key>, a: set<Key>, b: set<Key>)
    ensures Keep(Keep(order, a), b) == Keep(order, a + b)
  {
  }

  // ---------------------------------------------------------------- one step

  /** Reading never changes what is stored, except to drop the entry it found expired. */
  lemma ReadFacts<V>(s: Store<V>, k: Key, allowStale: bool, nowMono: real, nowEpoch: real)
    requires WellFormed(s)
    ensures var t := Read(s, k, allowStale, nowMono, nowEpoch);
            && WellFormed(t)
            && t.entries == if Peek(s.entries, k, allowStale, nowMono, nowEpoch).Miss? then s.entries - {k}
               else s.entries
  {
    TouchDistinct(s.order, k);
    KeepDistinct(s.order, {k});
    KeepMembers(s.order, {k});
  }

  lemma RemoveFacts<V>(s: Store<V>, doomed: set<Key>)
    requires WellFormed(s)
    ensures WellFormed(Remove(s, doomed))
  {
    KeepDistinct(s.order, doomed);
    KeepMembers(s.order, doomed);
  }

  /** A write stores the new entry and otherwise only loses entries; with room for at
      least one entry, the one just written is not the one evicted. */
  lemma WriteFacts<V>(s: Store<V>, max: int, k: Key, e: Entry<V>)
    requires WellFormed(s)
    ensures var t := Write(s, max, k, e);
            && WellFormed(t)
            && (forall i :: i in t.entries ==> t.entries[i] == s.entries[k := e][i] && i in s.entries.Keys + {k})
            && (max >= 1 ==> k in t.entries)
            && (max < 1 && s.entries == map[] ==> k !in t.entries)
  {
    TouchDistinct(s.order, k);
    LastIsTouched(s.order, k);
    var o := Touch(s.order, k);
    assert o == [o[0]] + o[1..];
    assert Distinct(o[1..]);
    if |o| > 1 {
      assert k == o[1..][|o| - 2];
    }
    if s.order != [] {
      assert s.order[0] in s.order;
    }
  }

  // ---------------------------------------------------------------- whole runs

  ghost predicate RunInvariant<V>(max: int, ops: seq<Op<V>>) {
    var c := Run(max, ops);
    && WellFormed(c.store)
    && SortedBy(c.store.order, k => LastTouch(max, ops, k))
    && (forall k :: k in c.store.entries ==>
          0 <= LastTouch(max, ops, k) < |ops| && LastWrite(ops, k) == Some(c.store.entries[k]))
    && |c.store.entries| <= Max(max, 0)
    && Balanced(c)
  }

  /** Stamps that agree off `k`, with `k` newest, order the touched list. */
  lemma TouchSorted(order: seq<Key>, k: Key, stamp: Key -> int, stamp': Key -> int, newest: int)
    requires SortedBy(order, stamp)
    requires forall i :: i in order && i != k ==> stamp'(i) == stamp(i) < newest
    requires stamp'(k) == newest
    ensures SortedBy(Touch(order, k), stamp')
  {
    KeepSorted(order, {k}, stamp);
    KeepMembers(order, {k});
    var kept := Keep(order, {k});
    forall i | 0 <= i < |kept|
      ensures stamp'(kept[i]) == stamp(kept[i]) < newest
    {
      assert kept[i] in kept;
    }
  }

  /** Order is use order, contents are last writes, the size is bounded and every new key
      is still present or was counted out exactly once - after any run. */
  lemma {:induction false} RunKeeps<V>(max: int, ops: seq<Op<V>>)
    ensures RunInvariant(max, ops)
  {
    if ops != [] {
      var prefix, op := ops[..|ops| - 1], ops[|ops| - 1];
      RunKeeps(max, prefix);
      StepOrder(max, ops);
      StepContents(max, ops);
      StepBalanced(max, Run(max, prefix), op);
      StepBounded(max, Run(max, prefix), op);
    }
  }

  ghost predicate Restamped<V>(c: Cache<V>, op: Op<V>, before: Key -> int, after: Key -> int, newest: int) {
    forall k :: after(k) == if Touches(c, op, k) then newest else before(k)
  }

  /** One operation keeps the list in use order. */
  lemma StepSorted<V>(max: int, c: Cache<V>, op: Op<V>, before: Key -> int, after: Key -> int, newest: int)
    requires WellFormed(c.store) && SortedBy(c.store.order, before)
    requires forall k :: k in c.store.order ==> before(k) < newest
    requires Restamped(c, op, before, after, newest)
    ensures SortedBy(Step(max, c, op).store.order, after)
  {
    var o := c.store.order;
    match op {
      case Get(k, allowStale, nowMono, nowEpoch) =>
        if k in c.store.entries {
          if Peek(c.store.entries, k, allowStale, nowMono, nowEpoch).Miss? {
            KeepSorted(o, {k}, before);
          } else {
            TouchSorted(o, k, before, after, newest);
          }
        }
      case Set(k, e) =>
        TouchSorted(o, k, before, after, newest);
      case Delete(k) =>
        KeepSorted(o, {k}, before);
      case DeleteMatching(doomed) =>
        KeepSorted(o, doomed, before);
      case Clear =>
    }
  }

  lemma StepWellFormed<V>(max: int, c: Cache<V>, op: Op<V>)
    requires WellFormed(c.store)
    ensures WellFormed(Step(max, c, op).store)
  {
    match op {
      case Get(k, allowStale, nowMono, nowEpoch) => ReadFacts(c.store, k, allowStale, nowMono, nowEpoch);
      case Set(k, e) => WriteFacts(c.store, max, k, e);
      case Delete(k) => RemoveFacts(c.store, {k});
      case DeleteMatching(doomed) => RemoveFacts(c.store, doomed);
      case Clear =>
    }
  }

  lemma StepOrder<V>(max: int, ops: seq<Op<V>>)
    requires ops != [] && RunInvariant(max, ops[..|ops| - 1])
    ensures WellFormed(Run(max, ops).store)
    ensures SortedBy(Run(max, ops).store.order, k => LastTouch(max, ops, k))
  {
    var prefix, op := ops[..|ops| - 1], ops[|ops| - 1];
    var c := Run(max, prefix);
    var before := k => LastTouch(max, prefix, k);
    var after := k => LastTouch(max, ops, k);
    StepWellFormed(max, c, op);
    assert Restamped(c, op, before, after, |prefix|);
    StepSorted(max, c, op, before, after, |prefix|);
  }

  lemma StepContents<V>(max: int, ops: seq<Op<V>>)
    requires ops != [] && RunInvariant(max, ops[..|ops| - 1])
    ensures var c := Run(max, ops);
            forall k :: k in c.store.entries ==>
              0 <= LastTouch(max, ops, k) < |ops| && LastWrite(ops, k) == Some(c.store.entries[k])
  {
    var prefix, op := ops[..|ops| - 1], ops[|ops| - 1];
    var c := Run(max, prefix);
    if op.Get? {
      ReadFacts(c.store, op.key, op.allowStale, op.nowMono, op.nowEpoch);
    } else if op.Set? {
      WriteFacts(c.store, max, op.key, op.entry);
    }
  }

  ghost predicate Balanced<V>(c: Cache<V>) {
    c.inserted == |c.store.entries| + c.evictions + c.expirations + c.deleted + c.cleared
  }

  lemma StepBalanced<V>(max: int, c: Cache<V>, op: Op<V>)
    requires WellFormed(c.store) && Balanced(c)
    ensures Balanced(Step(max, c, op))
  {
    match op {
      case Get(k, allowStale, nowMono, nowEpoch) => RemovedCount(c.store.entries, {k});
      case Set(k, e) => WriteCount(c.store, max, k, e);
      case Delete(k) => RemovedCount(c.store.entries, {k});
      case DeleteMatching(doomed) => RemovedCount(c.store.entries, doomed);
      case Clear =>
    }
  }

  lemma StepBounded<V>(max: int, c: Cache<V>, op: Op<V>)
    requires WellFormed(c.store) && |c.store.entries| <= Max(max, 0)
    ensures |Step(max, c, op).store.entries| <= Max(max, 0)
  {
    match op {
      case Get(k, allowStale, nowMono, nowEpoch) => RemovedCount(c.store.entries, {k});
      case Set(k, e) => WriteCount(c.store, max, k, e);
      case Delete(k) => RemovedCount(c.store.entries, {k});
      case DeleteMatching(doomed) => RemovedCount(c.store.entries, doomed);
      case Clear =>
    }
  }

  lemma RemovedCount<V>(entries: map<Key, V>, doomed: set<Key>)
    ensures |entries - doomed| == |entries| - |doomed * entries.Keys|
    ensures forall k :: doomed == {k} ==> |doomed * entries.Keys| == if k in entries then 1 else 0
  {
    forall k | doomed == {k}
      ensures |doomed * entries.Keys| == if k in entries then 1 else 0
    {
      assert doomed * entries.Keys == if k in entries then {k} else {};
    }
    var kept, hit := entries.Keys - doomed, doomed * entries.Keys;
    assert (entries - doomed).Keys == kept;
    assert kept !! hit && entries.Keys == kept + hit;
    assert |kept + hit| == |kept| + |hit|;
  }

  lemma WriteCount<V>(s: Store<V>, max: int, k: Key, e: Entry<V>)
    requires WellFormed(s)
    ensures |Touch(s.order, k)| == |s.entries| + (if k in s.entries then 0 else 1)
    ensures |Write(s, max, k, e).entries| ==
            |s.entries| + (if k in s.entries then 0 else 1) - (if |Touch(s.order, k)| > max then 1 else 0)
  {
    var o := Touch(s.order, k);
    TouchDistinct(s.order, k);
    LastIsTouched(s.order, k);
    DistinctCount(o, s.entries.Keys + {k});
    assert s.entries[k := e].Keys == s.entries.Keys + {k};
    assert o[0] in o;
    RemovedCount(s.entries[k := e], {o[0]});
    assert {o[0]} * s.entries[k := e].Keys == {o[0]};
  }

  /** Eviction: when a write pushes a key out, the key was the least recently used of all
      keys the store then held, and it is the key just written only if there is no room at all. */
  lemma EvictionVictim<V>(max: int, ops: seq<Op<V>>, k: Key, e: Entry<V>, victim: Key)
    requires victim in Run(max, ops).store.entries[k := e]
    requires victim !in Run(max, ops + [Set(k, e)]).store.entries
    ensures forall other :: other in Run(max, ops).store.entries[k := e] ==>
              LastTouch(max, ops + [Set(k, e)], victim) <= LastTouch(max, ops + [Set(k, e)], other)
    ensures victim == k <==> max < 1
  {
    var longer := ops + [Op.Set(k, e)];
    assert longer[..|longer| - 1] == ops;
    RunKeeps(max, ops);
    var s := Run(max, ops).store;
    var before := i => LastTouch(max, ops, i);
    var after := i => LastTouch(max, longer, i);
    TouchSorted(s.order, k, before, after, |ops|);
    VictimIsOldest(s, max, k, e, after, victim);
    WriteFacts(s, max, k, e);
  }

  lemma VictimIsOldest<V>(s: Store<V>, max: int, k: Key, e: Entry<V>, stamp: Key -> int, victim: Key)
    requires WellFormed(s) && SortedBy(Touch(s.order, k), stamp)
    requires |s.entries| <= Max(max, 0)
    requires victim in s.entries[k := e] && victim !in Write(s, max, k, e).entries
    ensures forall other :: other in s.entries[k := e] ==> stamp(victim) <= stamp(other)
    ensures max < 1 ==> victim == k
  {
    var o := Touch(s.order, k);
    KeepMembers(s.order, {k});
    assert |o| > max && victim == o[0];
    forall other | other in s.entries[k := e]
      ensures stamp(victim) <= stamp(other)
    {
      assert other in o;
      var i :| 0 <= i < |o| && o[i] == other;
    }
    if max < 1 {
      assert s.entries == map[];
      assert victim in map[k := e];
    }
  }

  // ---------------------------------------------------------------- what is written is read

  /** What a look at an entry says, by the two clocks. */
  predicate Says<V(==)>(r: Lookup<V>, e: Entry<V>, allowStale: bool, nowMono: real, nowEpoch: real) {
    var current := nowEpoch < e.expiresEpoch && nowMono < e.expiresMono;
    && (r == Fresh(e) <==> current)
    && (r == Stale(e) <==> !current && allowStale && nowEpoch < e.staleUntil)
    && (r == Miss <==> !current && !(allowStale && nowEpoch < e.staleUntil))
  }

  /** The keys used - written, or read and found - from operation `n` on. */
  function Used<V>(max: int, ops: seq<Op<V>>, n: nat): set<Key> {
    if |ops| <= n then {}
    else
      var prefix, op := ops[..|ops| - 1], ops[|ops| - 1];
      var earlier := Used(max, prefix, n);
      match op
      case Get(k, _, _, _) => if Touches(Run(max, prefix), op, k) then earlier + {k} else earlier
      case Set(k, _) => earlier + {k}
      case _ => earlier
  }

  lemma {:induction false} StampedIsUsed<V>(max: int, ops: seq<Op<V>>, n: nat, k: Key)
    requires LastTouch(max, ops, k) >= n
    ensures k in Used(max, ops, n)
  {
    if !Touches(Run(max, ops[..|ops| - 1]), ops[|ops| - 1], k) {
      StampedIsUsed(max, ops[..|ops| - 1], n, k);
    }
  }

  /** The operation leaves the key's entry alone: no deletion, no other write, no read that finds it
      expired. */
  predicate Leaves<V>(c: Cache<V>, op: Op<V>, k: Key) {
    match op
    case Get(key, allowStale, nowMono, nowEpoch) =>
      key == k && k in c.store.entries ==>
        var e := c.store.entries[k];
        (nowEpoch < e.expiresEpoch && nowMono < e.expiresMono) || (allowStale && nowEpoch < e.staleUntil)
    case Set(key, _) => key != k
    case Delete(key) => key != k
    case DeleteMatching(doomed) => k !in doomed
    case Clear => false
  }

  predicate LeavesFrom<V>(max: int, ops: seq<Op<V>>, n: nat, k: Key) {
    |ops| > n ==>
      LeavesFrom(max, ops[..|ops| - 1], n, k) && Leaves(Run(max, ops[..|ops| - 1]), ops[|ops| - 1], k)
  }

  lemma UsedGrows<V>(max: int, ops: seq<Op<V>>, n: nat)
    requires ops != []
    ensures Used(max, ops[..|ops| - 1], n) <= Used(max, ops, n)
  {
  }

  /** One operation that leaves the entry alone does not push it out, if at most `max` keys were used
      since it was. */
  lemma StepStaysIn<V>(max: int, ops: seq<Op<V>>, n: nat, k: Key)
    requires |ops| > n && RunInvariant(max, ops[..|ops| - 1])
    requires Leaves(Run(max, ops[..|ops| - 1]), ops[|ops| - 1], k) && |Used(max, ops, n)| <= max
    requires k in Run(max, ops[..|ops| - 1]).store.entries && LastTouch(max, ops[..|ops| - 1], k) >= n
    ensures k in Run(max, ops).store.entries
    ensures Run(max, ops).store.entries[k] == Run(max, ops[..|ops| - 1]).store.entries[k]
  {
    var prefix, op := ops[..|ops| - 1], ops[|ops| - 1];
    var s := Run(max, prefix).store;
    if op.Set? {
      var o := Touch(s.order, op.key);
      LastIsTouched(s.order, op.key);
      if |o| > max && o[0] == k {
        OthersAreUsed(max, ops, n, k);
        TouchDistinct(s.order, op.key);
        var keys := set i | i in o;
        DistinctCount(o, keys);
        FewerKeys(keys, Used(max, ops, n));
        assert false;
      }
    } else if op.Get? {
      ReadFacts(s, op.key, op.allowStale, op.nowMono, op.nowEpoch);
    }
  }

  lemma FewerKeys(a: set<Key>, b: set<Key>)
    requires a <= b
    ensures |a| <= |b|
  {
    assert b == a + (b - a);
  }

  /** If the key is the least recently used, all others were used since. */
  lemma OthersAreUsed<V>(max: int, ops: seq<Op<V>>, n: nat, k: Key)
    requires |ops| > n && RunInvariant(max, ops[..|ops| - 1]) && ops[|ops| - 1].Set? && ops[|ops| - 1].key != k
    requires k in Run(max, ops[..|ops| - 1]).store.entries && LastTouch(max, ops[..|ops| - 1], k) >= n
    requires Touch(Run(max, ops[..|ops| - 1]).store.order, ops[|ops| - 1].key)[0] == k
    ensures forall i :: i in Touch(Run(max, ops[..|ops| - 1]).store.order, ops[|ops| - 1].key) ==>
              i in Used(max, ops, n)
  {
    var prefix, key := ops[..|ops| - 1], ops[|ops| - 1].key;
    var order := Run(max, prefix).store.order;
    var stamp := i => LastTouch(max, prefix, i);
    var kept := Keep(order, {key});
    KeepSorted(order, {key}, stamp);
    KeepMembers(order, {key});
    UsedGrows(max, ops, n);
    assert kept != [] && kept[0] == k;
    forall i | i in kept
      ensures i in Used(max, ops, n)
    {
      var j :| 0 <= j < |kept| && kept[j] == i;
      assert j > 0 ==> stamp(kept[0]) < stamp(kept[j]);
      StampedIsUsed(max, prefix, n, i);
    }
  }

  lemma {:induction false} EntryStays<V>(max: int, ops: seq<Op<V>>, n: nat, k: Key, e: Entry<V>)
    requires n < |ops| && ops[n] == Set(k, e) && LeavesFrom(max, ops, n + 1, k)
    requires |Used(max, ops, n)| <= max
    ensures k in Run(max, ops).store.entries && Run(max, ops).store.entries[k] == e && LastTouch(max, ops, k) >= n
    decreases |ops|
  {
    var prefix := ops[..|ops| - 1];
    RunKeeps(max, prefix);
    if |prefix| == n {
      assert k in Used(max, ops, n);
      FewerKeys({k}, Used(max, ops, n));
      WriteFacts(Run(max, prefix).store, max, k, e);
    } else {
      UsedGrows(max, ops, n);
      FewerKeys(Used(max, prefix, n), Used(max, ops, n));
      EntryStays(max, prefix, n, k, e);
      StepStaysIn(max, ops, n, k);
    }
  }

  /** Over every run: an entry that was written and then left alone is read back, as long as no more
      than `max` keys were used since, its own included - least recently used goes first - and what
      the read says is decided by the entry's deadlines on the two clocks. */
  lemma WrittenIsRead<V>(max: int, ops: seq<Op<V>>, n: nat, k: Key, e: Entry<V>, allowStale: bool, nowMono: real,
        nowEpoch: real)
    requires n < |ops| && ops[n] == Set(k, e) && LeavesFrom(max, ops, n + 1, k)
    requires |Used(max, ops, n)| <= max
    ensures k in Run(max, ops).store.entries
    ensures Says(Peek(Run(max, ops).store.entries, k, allowStale, nowMono, nowEpoch), e, allowStale, nowMono, nowEpoch)
  {
    EntryStays(max, ops, n, k, e);
  }

  /** Reads that found something good, and reads that did not. */
  function Reads<V(==)>(max: int, ops: seq<Op<V>>): (n: (nat, nat)) {
    if ops == [] then (0, 0)
    else
      var (c, op, n) := (Run(max, ops[..|ops| - 1]), ops[|ops| - 1], Reads(max, ops[..|ops| - 1]));
      match op
      case Get(k, allowStale, nowMono, nowEpoch) =>
        if k in c.store.entries && !Says(Miss, c.store.entries[k], allowStale, nowMono, nowEpoch)
        then (n.0 + 1, n.1) else (n.0, n.1 + 1)
      case _ => n
  }

  /** The counters tell hits from misses, and an expiration is one of the misses. */
  lemma {:induction false} ReadsAreCounted<V>(max: int, ops: seq<Op<V>>)
    ensures var c := Run(max, ops);
            c.hits == Reads(max, ops).0 && c.misses == Reads(max, ops).1 && c.expirations <= c.misses
  {
    if ops != [] {
      ReadsAreCounted(max, ops[..|ops| - 1]);
    }
  }

  // ---------------------------------------------------------------- the object

  /** The cache object of app/api/core/cache.py, updated in place. Clock readings are
      parameters, and a compiled key pattern is the predicate it denotes. */
  class L1Cache<V> {
    const maxEntries: int
    const defaultTtl: real
    var store: Store<V>
    var hits: nat
    var misses: nat
    var evictions: nat
    var expirations: nat
    ghost var inserted: nat
    ghost var deleted: nat
    ghost var cleared: nat

    ghost function State(): Cache<V>
      reads this
    {
      Cache(store, hits, misses, evictions, expirations, inserted, deleted, cleared)
    }

    ghost predicate Valid()
      reads this
    {
      WellFormed(store)
    }

    constructor (maxEntries: int, defaultTtl: real)
      ensures Valid() && State() == Empty()
      ensures this.maxEntries == maxEntries && this.defaultTtl == defaultTtl
    {
      this.maxEntries, this.defaultTtl := maxEntries, defaultTtl;
      store := Store([], map[]);
      hits, misses, evictions, expirations := 0, 0, 0, 0;
      inserted, deleted, cleared := 0, 0, 0;
    }

    method GetDetailed(key: Key, allowStale: bool, nowMono: real, nowEpoch: real) returns (r: Lookup<V>)
      requires Valid()
      modifies this
      ensures Valid()
      ensures State() == GetStep(old(State()), key, allowStale, nowMono, nowEpoch)
      ensures r == Peek(old(store).entries, key, allowStale, nowMono, nowEpoch)
      ensures key in old(store).entries ==> Says(r, old(store).entries[key], allowStale, nowMono, nowEpoch)
      ensures key !in old(store).entries ==> r == Miss
    {
      ReadFacts(store, key, allowStale, nowMono, nowEpoch);
      if key !in store.entries {
        misses := misses + 1;
        return Miss;
      }
      var entry := store.entries[key];
      if nowEpoch < entry.expiresEpoch && nowMono < entry.expiresMono {
        store := store.(order := Touch(store.order, key));
        hits := hits + 1;
        return Fresh(entry);
      }
      if allowStale && nowEpoch < entry.staleUntil {
        store := store.(order := Touch(store.order, key));
        hits := hits + 1;
        return Stale(entry);
      }
      store := Remove(store, {key});
      expirations := expirations + 1;
      misses := misses + 1;
      return Miss;
    }

    /** The two-valued read: a hit only while fresh. */
    method Get(key: Key, nowMono: real, nowEpoch: real) returns (r: Option<V>)
      requires Valid()
      modifies this
      ensures Valid()
      ensures State() == GetStep(old(State()), key, false, nowMono, nowEpoch)
      ensures r.Some? <==>
                key in old(store).entries &&
                nowEpoch < old(store).entries[key].expiresEpoch && nowMono < old(store).entries[key].expiresMono
      ensures r.Some? ==> r.value == old(store).entries[key].value
    {
      var found := GetDetailed(key, false, nowMono, nowEpoch);
      r := if found.Fresh? then Some(found.entry.value) else None;
    }

    method Set(key: Key, value: V, ttl: Option<real>, createdEpoch: Option<real>, expiresEpoch: Option<real>,
               staleUntil: Option<real>, nowMono: real, nowEpoch: real)
      requires Valid()
      modifies this
      ensures Valid()
      ensures State() == SetStep(maxEntries, old(State()), key,
              Stamped(value, ttl.GetOr(defaultTtl), createdEpoch, expiresEpoch, staleUntil, nowMono, nowEpoch))
    {
      hide WellFormed;
      var duration := ttl.GetOr(defaultTtl);
      var c := createdEpoch.GetOr(nowEpoch);
      var e := expiresEpoch.GetOr(nowEpoch + duration);
      var s := staleUntil.GetOr(e);
      var entry := Entry(value, nowMono, nowMono + duration, c, e, s);
      assert |Touch(store.order, key)| > 0;
      if key !in store.entries {
        inserted := inserted + 1;
      }
      store := Store(Touch(store.order, key), store.entries[key := entry]);
      if |store.order| > maxEntries {
        store := Store(store.order[1..], store.entries - {store.order[0]});
        evictions := evictions + 1;
      }
      assert Valid() by {
        WriteFacts(old(store), maxEntries, key, entry);
      }
    }

    method Delete(key: Key) returns (found: bool)
      requires Valid()
      modifies this
      ensures Valid()
      ensures State() == if key in old(store).entries then RemoveStep(old(State()), {key}) else old(State())
      ensures found <==> key in old(store).entries
    {
      RemoveFacts(store, {key});
      RemovedCount(store.entries, {key});
      if key in store.entries {
        store := Remove(store, {key});
        deleted := deleted + 1;
        return true;
      }
      return false;
    }

    /** Collects the matching keys, then deletes them one after another. */
    method DeletePattern(compiled: Key -> bool) returns (count: nat)
      requires Valid()
      modifies this
      ensures Valid()
      ensures State() == old(State()).(store := Remove(old(store), Matching(old(store).entries, compiled)),
              deleted := old(deleted) + count)
      ensures count == |Matching(old(store).entries, compiled)|
    {
      hide WellFormed;
      ghost var before, done := store, {};
      var pending := Matching(store.entries, compiled);
      count := 0;
      RemoveNothing(before);
      while pending != {}
        invariant done + pending == Matching(before.entries, compiled) && done !! pending
        invariant store == Remove(before, done)
        invariant count == |done| && deleted == old(deleted) + count
        modifies this`store, this`deleted
        decreases pending
      {
        var k :| k in pending;
        RemoveTwice(before, done, {k});
        store := Remove(store, {k});
        pending, done := pending - {k}, done + {k};
        deleted, count := deleted + 1, count + 1;
      }
      assert Valid() by {
        RemoveFacts(before, done);
      }
    }

    method Clear()
      requires Valid()
      modifies this
      ensures Valid()
      ensures State() == ClearStep(old(State()))
    {
      cleared := cleared + |store.entries|;
      store := Store([], map[]);
    }

    method Size() returns (n: nat)
      requires Valid()
      ensures n == |store.entries|
    {
      DistinctCount(store.order, store.entries.Keys);
      n := |store.order|;
    }
  }

  function Matching<V>(entries: map<Key, V>, compiled: Key -> bool): set<Key> {
    set k | k in entries && compiled(k)
  }

  lemma LastIsTouched(order: seq<Key>, k: Key)
    ensures |Touch(order, k)| >= 1 && Touch(order, k)[|Touch(order, k)| - 1] == k
  {
  }

  lemma RemoveTwice<V>(s: Store<V>, a: set<Key>, b: set<Key>)
    ensures Remove(Remove(s, a), b) == Remove(s, a + b)
  {
    KeepTwice(s.order, a, b);
    assert s.entries - a - b == s.entries - (a + b);
  }

  lemma RemoveNothing<V>(s: Store<V>)
    ensures Remove(s, {}) == s
  {
    KeepNothing(s.order);
    assert s.entries - {} == s.entries;
  }

  lemma KeepNothing(order: seq<Key>)
    ensures Keep(order, {}) == order
  {
  }

  /** The entry a write builds, with the defaults the program uses for missing times. */
  function Stamped<V>(value: V, ttl: real, createdEpoch: Option<real>, expiresEpoch: Option<real>,
        staleUntil: Option<real>,
                      nowMono: real, nowEpoch: real): Entry<V> {
    Entry(value, nowMono, nowMono + ttl,
          createdEpoch.GetOr(nowEpoch),
          expiresEpoch.GetOr(nowEpoch + ttl),
          staleUntil.GetOr(expiresEpoch.GetOr(nowEpoch + ttl)))
  }

  /** The entry's times: monotonic ones from now on, the others as given, or else from now on too; a
      missing stale limit is the expiry. */
  predicate Dated<V(==)>(e: Entry<V>, value: V, duration: real, createdEpoch: Option<real>, expiresEpoch: Option<real>,
        staleUntil: Option<real>, nowMono: real, nowEpoch: real) {
    && e.value == value && e.createdMono == nowMono && e.expiresMono == nowMono + duration
    && (createdEpoch == Some(e.createdEpoch) || (createdEpoch == None && e.createdEpoch == nowEpoch))
    && (expiresEpoch == Some(e.expiresEpoch) || (expiresEpoch == None && e.expiresEpoch == nowEpoch + duration))
    && (staleUntil == Some(e.staleUntil) || (staleUntil == None && e.staleUntil == e.expiresEpoch))
  }

  lemma StampedIsDated<V>(value: V, ttl: real, createdEpoch: Option<real>, expiresEpoch: Option<real>,
        staleUntil: Option<real>, nowMono: real, nowEpoch: real)
    ensures Dated(Stamped(value, ttl, createdEpoch, expiresEpoch, staleUntil, nowMono, nowEpoch), value, ttl,
              createdEpoch, expiresEpoch, staleUntil, nowMono, nowEpoch)
  {
  }
}
