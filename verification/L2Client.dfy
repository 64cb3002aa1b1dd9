/** The client of the remote store: every operation asks the breaker, reaches out at most once,
    reports what came of it to the breaker, and never raises. Threads share the client, so an
    operation is two events: it begins, and later it ends. */
module L2Client {
  import opened Basics
  import opened Breaker

  datatype Config = Config(configured: bool, threshold: int, cooldown: real)

  datatype Client = Client(circuit: State, connected: bool)

  /** What an admitted operation comes to: no connection pool, an exception, or an answer. */
  datatype Outcome = NoPool | Fails | Answers(value: Option<string>)

  function Initial(cfg: Config, now: real): Client {
    Client(if cfg.configured then Start(now) else Start(now).(status := Disabled), false)
  }

  function Begin(cfg: Config, c: Client, now: real): Client {
    c.(circuit := Step(cfg.threshold, cfg.cooldown, c.circuit, Attempt(now)))
  }

  predicate Lets(cfg: Config, c: Client, now: real) {
    Admits(cfg.cooldown, c.circuit, now)
  }

  /** Once the pool is there, it stays. */
  function End(cfg: Config, c: Client, done: real, outcome: Outcome): Client {
    if !cfg.configured then c
    else
      match outcome
      case NoPool =>
        if c.connected then c else c.(circuit := Step(cfg.threshold, cfg.cooldown, c.circuit, Failure(done)))
      case Fails => Client(Step(cfg.threshold, cfg.cooldown, c.circuit, Failure(done)), true)
      case Answers(_) => Client(Step(cfg.threshold, cfg.cooldown, c.circuit, Success), true)
  }

  // ---------------------------------------------------------------- an outage

  type OpId = nat

  datatype Event = Begins(id: OpId, now: real) | Failed(id: OpId, done: real)

  /** The breaker during an outage, with what is in flight. `admitted` counts the operations let
      through, `probes` the times the circuit went half-open, `probing` who was let through since. */
  datatype Load = Load(circuit: State, flying: set<OpId>, admitted: nat, probes: nat, probing: set<OpId>)

  function Calm(t0: real): Load {
    Load(Start(t0), {}, 0, 0, {})
  }

  function Feel(cfg: Config, l: Load, e: Event): Load {
    match e
    case Begins(id, now) =>
      var next := Step(cfg.threshold, cfg.cooldown, l.circuit, Attempt(now));
      if !Admits(cfg.cooldown, l.circuit, now) then l.(circuit := next)
      else
        var wakes := l.circuit.status.Open?;
        Load(next, l.flying + {id}, l.admitted + 1, l.probes + (if wakes then 1 else 0),
             if wakes then {id} else if next.status.HalfOpen? then l.probing + {id} else {})
    case Failed(id, done) =>
      var next := Step(cfg.threshold, cfg.cooldown, l.circuit, Failure(done));
      Load(next, l.flying - {id}, l.admitted, l.probes, if next.status.HalfOpen? then l.probing else {})
  }

  function Felt(cfg: Config, t0: real, events: seq<Event>): Load {
    if events == [] then Calm(t0) else Feel(cfg, Felt(cfg, t0, events[..|events| - 1]), events[|events| - 1])
  }

  function TimeOf(e: Event): real {
    if e.Begins? then e.now else e.done
  }

  /** The event is one the threads can cause: a new operation, or the failure of one in flight,
      no earlier than `clock`, with never more than `w` operations in flight. */
  predicate Possible(cfg: Config, l: Load, e: Event, clock: real, w: nat) {
    && clock <= TimeOf(e)
    && (e.Begins? ==> e.id !in l.flying && |Feel(cfg, l, e).flying| <= w)
    && (e.Failed? ==> e.id in l.flying)
  }

  /** A time in which no operation succeeds, on a clock that starts at `t0`. */
  predicate Outage(cfg: Config, t0: real, events: seq<Event>, w: nat) {
    events == [] ||
    var prefix := events[..|events| - 1];
    && Outage(cfg, t0, prefix, w)
    && Possible(cfg, Felt(cfg, t0, prefix), events[|events| - 1], Clock(t0, prefix), w)
  }

  function Clock(t0: real, events: seq<Event>): real {
    if events == [] then t0 else TimeOf(events[|events| - 1])
  }

  /** How many operations `w` threads can get through after `probes` half-open phases. */
  function Allowance(cfg: Config, w: nat, probes: nat): int {
    Max(cfg.threshold, 1) - 1 + w + w * probes
  }

  /** The time that many half-open phases take at least. */
  function Due(cfg: Config, probes: nat): real {
    probes as real * cfg.cooldown
  }

  ghost predicate Bounded(cfg: Config, t0: real, l: Load, clock: real, w: nat) {
    && l.admitted == l.circuit.failures + |l.flying|
    && |l.flying| <= w && l.probing <= l.flying
    && Due(cfg, l.probes) <= (if l.probes == 0 then 0.0 else l.circuit.changedAt - t0)
    && l.circuit.changedAt <= clock
    && match l.circuit.status
       case Closed => l.circuit.failures < Max(cfg.threshold, 1) && l.probes == 0
       case Open => l.admitted <= Allowance(cfg, w, l.probes) && t0 <= l.circuit.changedAt
       case HalfOpen =>
         l.probes > 0 && l.admitted - |l.probing| <= Allowance(cfg, w, l.probes - 1) && t0 <= l.circuit.changedAt
       case Disabled => false
  }

  lemma SubsetSize(a: set<OpId>, b: set<OpId>)
    requires a <= b
    ensures |a| <= |b|
  {
    assert b == a + (b - a);
  }

  lemma AllowanceStep(cfg: Config, w: nat, probes: nat)
    ensures Allowance(cfg, w, probes + 1) == Allowance(cfg, w, probes) + w
  {
    assert w * (probes + 1) == w * probes + w;
  }

  lemma DueStep(cfg: Config, probes: nat)
    ensures Due(cfg, 0) == 0.0 && Due(cfg, probes + 1) == Due(cfg, probes) + cfg.cooldown
  {
    assert (probes + 1) as real == probes as real + 1.0;
  }

  lemma BeginsClosed(cfg: Config, t0: real, l: Load, e: Event, clock: real, w: nat)
    requires Bounded(cfg, t0, l, clock, w) && Possible(cfg, l, e, clock, w) && e.Begins?
    requires !l.circuit.status.Open?
    ensures Bounded(cfg, t0, Feel(cfg, l, e), TimeOf(e), w)
  {
    hide Allowance, Due;
    assert e.id !in l.probing;
  }

  lemma BeginsOpen(cfg: Config, t0: real, l: Load, e: Event, clock: real, w: nat)
    requires Bounded(cfg, t0, l, clock, w) && Possible(cfg, l, e, clock, w) && e.Begins?
    requires l.circuit.status.Open?
    ensures Bounded(cfg, t0, Feel(cfg, l, e), TimeOf(e), w)
  {
    hide Allowance, Due;
    DueStep(cfg, l.probes);
  }

  lemma FailureKeeps(cfg: Config, t0: real, l: Load, e: Event, clock: real, w: nat)
    requires Bounded(cfg, t0, l, clock, w) && Possible(cfg, l, e, clock, w) && e.Failed?
    requires t0 <= clock
    ensures Bounded(cfg, t0, Feel(cfg, l, e), TimeOf(e), w)
  {
    hide Due;
    assert |l.flying - {e.id}| == |l.flying| - 1;
    if l.circuit.status.HalfOpen? {
      SubsetSize(l.probing, l.flying);
      AllowanceStep(cfg, w, l.probes - 1);
    }
    assert Allowance(cfg, w, 0) == Max(cfg.threshold, 1) - 1 + w;
    hide Allowance;
  }

  /** What every event of an outage keeps: operations let through are failures or in flight; the
      circuit is closed while failures are below the threshold; each half-open phase waited for a
      cooldown after the one before; and whoever came through in it is still in flight. */
  lemma EventKeeps(cfg: Config, t0: real, l: Load, e: Event, clock: real, w: nat)
    requires Bounded(cfg, t0, l, clock, w) && Possible(cfg, l, e, clock, w) && t0 <= clock
    ensures Bounded(cfg, t0, Feel(cfg, l, e), TimeOf(e), w)
  {
    hide Bounded, Possible, Feel;
    if e.Failed? {
      FailureKeeps(cfg, t0, l, e, clock, w);
    } else if l.circuit.status.Open? {
      BeginsOpen(cfg, t0, l, e, clock, w);
    } else {
      BeginsClosed(cfg, t0, l, e, clock, w);
    }
  }

  lemma {:induction false} OutageKeeps(cfg: Config, t0: real, events: seq<Event>, w: nat)
    requires Outage(cfg, t0, events, w)
    ensures Bounded(cfg, t0, Felt(cfg, t0, events), Clock(t0, events), w) && t0 <= Clock(t0, events)
  {
    hide Feel;
    if events != [] {
      var prefix := events[..|events| - 1];
      OutageKeeps(cfg, t0, prefix, w);
      EventKeeps(cfg, t0, Felt(cfg, t0, prefix), events[|events| - 1], Clock(t0, prefix), w);
    } else {
      DueStep(cfg, 0);
    }
  }

  lemma BoundedMeans(cfg: Config, t0: real, l: Load, clock: real, w: nat)
    requires Bounded(cfg, t0, l, clock, w) && t0 <= clock
    ensures l.admitted <= Allowance(cfg, w, l.probes)
    ensures Due(cfg, l.probes) <= clock - t0
  {
    DueStep(cfg, 0);
    hide Due;
    SubsetSize(l.probing, l.flying);
    if l.circuit.status.HalfOpen? {
      AllowanceStep(cfg, w, l.probes - 1);
    }
    assert Allowance(cfg, w, 0) == Max(cfg.threshold, 1) - 1 + w;
  }

  /** What an outage of any length costs when at most `w` operations are in flight at a time:
      threshold - 1 + w operations get through, and w more for each half-open phase, of which
      there is at most one per cooldown that has passed. */
  lemma OutageIsCheap(cfg: Config, t0: real, events: seq<Event>, w: nat)
    requires Outage(cfg, t0, events, w)
    ensures var l := Felt(cfg, t0, events);
            && l.admitted <= Allowance(cfg, w, l.probes)
            && Due(cfg, l.probes) <= Clock(t0, events) - t0
  {
    hide *;
    OutageKeeps(cfg, t0, events, w);
    BoundedMeans(cfg, t0, Felt(cfg, t0, events), Clock(t0, events), w);
  }

  /** `n` operations one after the other, each failing at once, then `w` that are all in flight. */
  function Sequential(n: nat): seq<Event> {
    if n == 0 then [] else Sequential(n - 1) + [Begins(0, 0.0), Failed(0, 0.0)]
  }

  function Together(n: nat, w: nat): seq<Event> {
    if w == 0 then Sequential(n) else Together(n, w - 1) + [Begins(w - 1, 0.0)]
  }

  lemma OneMore(cfg: Config, t0: real, events: seq<Event>, e: Event, w: nat)
    requires Outage(cfg, t0, events, w) && Possible(cfg, Felt(cfg, t0, events), e, Clock(t0, events), w)
    ensures Outage(cfg, t0, events + [e], w) && Clock(t0, events + [e]) == TimeOf(e)
    ensures Felt(cfg, t0, events + [e]) == Feel(cfg, Felt(cfg, t0, events), e)
  {
    hide Feel, Possible;
    assert (events + [e])[..|events + [e]| - 1] == events;
  }

  lemma {:induction false} SequentialCost(cfg: Config, n: nat, w: nat)
    requires n < Max(cfg.threshold, 1) && w >= 1
    ensures Outage(cfg, 0.0, Sequential(n), w) && Clock(0.0, Sequential(n)) == 0.0
    ensures Felt(cfg, 0.0, Sequential(n)) == Load(Circuit(Closed, n, 0.0), {}, n, 0, {})
  {
    hide Outage, Felt, Feel, Possible, Clock;
    if n == 0 {
      NothingYet(cfg, w);
    } else {
      SequentialCost(cfg, n - 1, w);
      var before := Sequential(n - 1);
      FailOnce(cfg, n - 1, w);
      OneMore(cfg, 0.0, before, Begins(0, 0.0), w);
      OneMore(cfg, 0.0, before + [Begins(0, 0.0)], Failed(0, 0.0), w);
      assert Sequential(n) == before + [Begins(0, 0.0)] + [Failed(0, 0.0)];
    }
  }

  lemma NothingYet(cfg: Config, w: nat)
    ensures Outage(cfg, 0.0, [], w) && Clock(0.0, []) == 0.0 && Felt(cfg, 0.0, []) == Calm(0.0)
  {
  }

  lemma FailOnce(cfg: Config, n: nat, w: nat)
    requires n + 1 < Max(cfg.threshold, 1) && w >= 1
    ensures var l := Load(Circuit(Closed, n, 0.0), {}, n, 0, {});
            var m := Feel(cfg, l, Begins(0, 0.0));
            && Possible(cfg, l, Begins(0, 0.0), 0.0, w) && Possible(cfg, m, Failed(0, 0.0), 0.0, w)
            && Feel(cfg, m, Failed(0, 0.0)) == Load(Circuit(Closed, n + 1, 0.0), {}, n + 1, 0, {})
  {
  }

  predicate Piled(l: Load, n: nat, i: nat) {
    && l.circuit == Circuit(Closed, n, 0.0) && l.admitted == n + i && l.probes == 0 && |l.flying| == i
    && forall id :: id in l.flying ==> id < i
  }

  lemma PileOne(cfg: Config, l: Load, n: nat, i: nat, w: nat)
    requires Piled(l, n, i) && n < Max(cfg.threshold, 1) && i < w
    ensures Piled(Feel(cfg, l, Begins(i, 0.0)), n, i + 1)
    ensures Possible(cfg, l, Begins(i, 0.0), 0.0, w)
  {
    assert i !in l.flying;
  }

  lemma {:induction false} TogetherCost(cfg: Config, n: nat, i: nat, w: nat)
    requires n < Max(cfg.threshold, 1) && i <= w && w >= 1
    ensures Outage(cfg, 0.0, Together(n, i), w) && Clock(0.0, Together(n, i)) == 0.0
    ensures Piled(Felt(cfg, 0.0, Together(n, i)), n, i)
  {
    hide Outage, Felt, Clock, Feel, Possible, Piled, Sequential;
    if i == 0 {
      NothingPiled(cfg, n, w);
    } else {
      TogetherCost(cfg, n, i - 1, w);
      PileOne(cfg, Felt(cfg, 0.0, Together(n, i - 1)), n, i - 1, w);
      OneMore(cfg, 0.0, Together(n, i - 1), Begins(i - 1, 0.0), w);
    }
  }

  lemma NothingPiled(cfg: Config, n: nat, w: nat)
    requires n < Max(cfg.threshold, 1) && w >= 1
    ensures Outage(cfg, 0.0, Sequential(n), w) && Clock(0.0, Sequential(n)) == 0.0
    ensures Piled(Felt(cfg, 0.0, Sequential(n)), n, 0)
  {
    SequentialCost(cfg, n, w);
  }

  /** The first part of the bound is tight: for every threshold and every `w` there is an outage
      in which that many operations get through before any cooldown has passed. */
  lemma BoundIsTight(cfg: Config, w: nat) returns (events: seq<Event>)
    requires w >= 1
    ensures Outage(cfg, 0.0, events, w) && Clock(0.0, events) == 0.0
    ensures Felt(cfg, 0.0, events).admitted == Allowance(cfg, w, 0)
  {
    var n := Max(cfg.threshold, 1) - 1;
    events := Together(n, w);
    TogetherCost(cfg, n, w, w);
  }

  function Span(i: nat, j: nat): (s: set<OpId>)
    ensures forall k :: k in s <==> i <= k < j
  {
    if i >= j then {} else Span(i, j - 1) + {j - 1}
  }

  lemma SpanSize(i: nat, j: nat)
    requires i <= j
    ensures |Span(i, j)| == j - i
  {
    if i < j {
      SpanSize(i, j - 1);
      assert Span(i, j) == Span(i, j - 1) + {j - 1};
    } else {
      assert Span(i, j) == {};
    }
  }

  /** Everybody has failed, and the circuit is open since `since`. */
  predicate Resting(cfg: Config, l: Load, since: real, w: nat, n: nat) {
    && l.circuit.status.Open? && l.circuit.changedAt == since
    && l.flying == {} && l.admitted == Allowance(cfg, w, n) && l.probes == n
  }

  predicate Probing(cfg: Config, l: Load, t: real, w: nat, n: nat, i: nat) {
    && l.circuit.status.HalfOpen? && l.circuit.changedAt == t
    && l.flying == Span(0, i) && l.admitted == Allowance(cfg, w, n) + i && l.probes == n + 1
  }

  predicate Falling(cfg: Config, l: Load, t: real, w: nat, n: nat, i: nat) {
    && l.circuit.status.Open? && l.circuit.changedAt == t
    && l.flying == Span(i, w) && l.admitted == Allowance(cfg, w, n) && l.probes == n
  }

  lemma SpanStep(i: nat)
    ensures i !in Span(0, i) && Span(0, i) + {i} == Span(0, i + 1) && |Span(0, i + 1)| == i + 1
  {
    SpanSize(0, i + 1);
  }

  lemma ProbeFirst(cfg: Config, l: Load, t: real, w: nat, n: nat)
    requires w >= 1 && cfg.cooldown >= 0.0 && Resting(cfg, l, t - cfg.cooldown, w, n)
    ensures Possible(cfg, l, Begins(0, t), t - cfg.cooldown, w)
    ensures Probing(cfg, Feel(cfg, l, Begins(0, t)), t, w, n, 1)
  {
    SpanStep(0);
    assert Span(0, 0) == {};
    hide Allowance, Span;
  }

  lemma ProbeNext(cfg: Config, l: Load, t: real, w: nat, n: nat, i: nat)
    requires 0 < i < w && Probing(cfg, l, t, w, n, i)
    ensures Possible(cfg, l, Begins(i, t), t, w)
    ensures Probing(cfg, Feel(cfg, l, Begins(i, t)), t, w, n, i + 1)
  {
    SpanStep(i);
    hide Allowance, Span;
  }

  lemma FallOne(cfg: Config, l: Load, t: real, w: nat, n: nat)
    requires w >= 1 && (Probing(cfg, l, t, w, n, w) || (Piled(l, Max(cfg.threshold, 1) - 1, w) && t == 0.0 && n == 0))
    requires l.flying == Span(0, w)
    ensures Possible(cfg, l, Failed(0, t), t, w)
    ensures Falling(cfg, Feel(cfg, l, Failed(0, t)), t, w, if l.circuit.status.HalfOpen? then n + 1 else 0, 1)
  {
    AllowanceStep(cfg, w, n);
    assert Allowance(cfg, w, 0) == Max(cfg.threshold, 1) - 1 + w;
    hide Allowance;
    assert Span(0, w) - {0} == Span(1, w);
  }

  lemma FallMore(cfg: Config, l: Load, t: real, w: nat, n: nat, i: nat)
    requires 1 <= i < w && Falling(cfg, l, t, w, n, i)
    ensures Possible(cfg, l, Failed(i, t), t, w)
    ensures Falling(cfg, Feel(cfg, l, Failed(i, t)), t, w, n, i + 1)
  {
    hide Allowance;
    assert Span(i, w) - {i} == Span(i + 1, w);
  }

  lemma {:induction false} Fall(cfg: Config, events: seq<Event>, t: real, w: nat, n: nat, i: nat)
    returns (more: seq<Event>)
    requires 1 <= i <= w && Outage(cfg, 0.0, events, w) && Clock(0.0, events) == t
    requires Falling(cfg, Felt(cfg, 0.0, events), t, w, n, i)
    ensures Outage(cfg, 0.0, more, w) && Clock(0.0, more) == t
    ensures Resting(cfg, Felt(cfg, 0.0, more), t, w, n)
    decreases w - i
  {
    hide Outage, Felt, Clock, Feel, Possible, Allowance;
    if i == w {
      assert Span(w, w) == {};
      more := events;
    } else {
      FallMore(cfg, Felt(cfg, 0.0, events), t, w, n, i);
      OneMore(cfg, 0.0, events, Failed(i, t), w);
      more := Fall(cfg, events + [Failed(i, t)], t, w, n, i + 1);
    }
  }

  lemma {:induction false} Probe(cfg: Config, events: seq<Event>, t: real, w: nat, n: nat, i: nat)
    returns (more: seq<Event>)
    requires i <= w && w >= 1 && cfg.cooldown >= 0.0 && Outage(cfg, 0.0, events, w)
    requires var l, clock := Felt(cfg, 0.0, events), Clock(0.0, events);
             if i == 0 then clock == t - cfg.cooldown && Resting(cfg, l, t - cfg.cooldown, w, n)
             else clock == t && Probing(cfg, l, t, w, n, i)
    ensures Outage(cfg, 0.0, more, w) && Clock(0.0, more) == t
    ensures Resting(cfg, Felt(cfg, 0.0, more), t, w, n + 1)
    decreases w - i
  {
    hide Outage, Felt, Clock, Feel, Possible, Allowance, Resting, Falling;
    var l := Felt(cfg, 0.0, events);
    if i == w {
      FallOne(cfg, l, t, w, n);
      OneMore(cfg, 0.0, events, Failed(0, t), w);
      more := Fall(cfg, events + [Failed(0, t)], t, w, n + 1, 1);
    } else {
      if i == 0 {
        ProbeFirst(cfg, l, t, w, n);
      } else {
        ProbeNext(cfg, l, t, w, n, i);
      }
      OneMore(cfg, 0.0, events, Begins(i, t), w);
      more := Probe(cfg, events + [Begins(i, t)], t, w, n, i + 1);
    }
  }

  lemma FlyingTogether(cfg: Config, n: nat, i: nat, w: nat)
    requires n < Max(cfg.threshold, 1) && i <= w && w >= 1
    ensures Felt(cfg, 0.0, Together(n, i)).flying == Span(0, i)
  {
    TogetherCost(cfg, n, i, w);
    var flying := Felt(cfg, 0.0, Together(n, i)).flying;
    hide Felt, Together, Outage;
    SpanSize(0, i);
    FullSpan(flying, i);
  }

  lemma FullSpan(s: set<OpId>, i: nat)
    requires |s| == i && forall k :: k in s ==> k < i
    ensures s == Span(0, i)
  {
    SpanSize(0, i);
    var all := Span(0, i);
    assert all == s + (all - s);
    assert |all - s| == 0;
  }

  /** So is the whole bound, unless the cooldown is negative: for every threshold, every `w` and
      every number of half-open phases there is an outage in which each phase starts as soon as
      it can and lets `w` operations through. */
  lemma {:induction false} EveryPhaseCounts(cfg: Config, w: nat, n: nat) returns (events: seq<Event>)
    requires w >= 1 && cfg.cooldown >= 0.0
    ensures Outage(cfg, 0.0, events, w) && Clock(0.0, events) == Due(cfg, n)
    ensures Felt(cfg, 0.0, events).probes == n && Felt(cfg, 0.0, events).admitted == Allowance(cfg, w, n)
    ensures Resting(cfg, Felt(cfg, 0.0, events), Due(cfg, n), w, n)
    decreases n
  {
    hide Outage, Felt, Clock, Feel, Possible, Allowance, Due;
    if n == 0 {
      DueStep(cfg, 0);
      var m := Max(cfg.threshold, 1) - 1;
      events := Together(m, w);
      TogetherCost(cfg, m, w, w);
      FlyingTogether(cfg, m, w, w);
      var l := Felt(cfg, 0.0, events);
      FallOne(cfg, l, 0.0, w, 0);
      OneMore(cfg, 0.0, events, Failed(0, 0.0), w);
      events := Fall(cfg, events + [Failed(0, 0.0)], 0.0, w, 0, 1);
    } else {
      DueStep(cfg, n - 1);
      events := EveryPhaseCounts(cfg, w, n - 1);
      events := Probe(cfg, events, Due(cfg, n), w, n - 1, 0);
    }
  }

  // ---------------------------------------------------------------- whole operations

  /** An operation of one thread: `connects` tells whether the pool can be set up, should there
      be none yet, `outcome` what the remote side then does. */
  datatype Op = Op(now: real, done: real, connects: bool, outcome: Outcome)

  /** None: refused, unconfigured, not connected or failed - the caller cannot tell. */
  datatype Used = Used(client: Client, admitted: bool, answer: Option<Option<string>>)

  function Came(c: Client, op: Op): Outcome {
    if !c.connected && !op.connects then NoPool else if op.outcome.NoPool? then Fails else op.outcome
  }

  /** Begin and end, with no other thread in between. */
  function Use(cfg: Config, c: Client, op: Op): Used {
    var begun := Begin(cfg, c, op.now);
    if !Lets(cfg, c, op.now) || !cfg.configured then Used(begun, false, None)
    else
      var came := Came(begun, op);
      Used(End(cfg, begun, op.done, came), true, if came.Answers? then Some(came.value) else None)
  }

  /** An operation that fails is its two events of the outage above, one right after the other. */
  lemma FailingUseIsFelt(cfg: Config, c: Client, op: Op, l: Load, id: OpId)
    requires cfg.configured && l.circuit == c.circuit && !Came(Begin(cfg, c, op.now), op).Answers?
    ensures var begun := Feel(cfg, l, Begins(id, op.now));
            var u := Use(cfg, c, op);
            && (u.admitted <==> begun.admitted == l.admitted + 1)
            && u.client.circuit == if u.admitted then Feel(cfg, begun, Failed(id, op.done)).circuit else begun.circuit
  {
  }

  /** A whole operation of a configured client. It is let through unless the circuit is disabled or
      was opened less than the cooldown ago; let through, it brings the remote side's answer exactly
      if there is one, which closes the circuit and forgets its failures; and what fails counts as
      one failure more, and leaves the circuit open if the threshold is reached or it was not closed. */
  lemma UseIs(cfg: Config, c: Client, op: Op)
    requires cfg.configured
    ensures var (u, was) := (Use(cfg, c, op), c.circuit);
            var blocked := was.status == Disabled || (was.status == Open && op.now - was.changedAt < cfg.cooldown);
            var reached := c.connected || op.connects;
            && u.admitted == !blocked
            && (if blocked then u.client == c && u.answer == None
                else if reached && op.outcome.Answers? then
                  && u.answer == Some(op.outcome.value) && u.client.connected
                  && u.client.circuit.status == Closed && u.client.circuit.failures == 0
                else
                  && u.answer == None && u.client.connected == reached
                  && u.client.circuit.failures == was.failures + 1
                  && u.client.circuit.status ==
                     (if was.status != Closed || was.failures + 1 >= cfg.threshold then Open else Closed)
                  && (u.client.circuit.status == Open ==> u.client.circuit.changedAt == op.done))
  {
  }

  function After(cfg: Config, c: Client, ops: seq<Op>): Client {
    if ops == [] then c else Use(cfg, After(cfg, c, ops[..|ops| - 1]), ops[|ops| - 1]).client
  }

  /** An unconfigured client never reaches out and never changes. */
  lemma {:induction false} UnconfiguredIsSilent(cfg: Config, t0: real, ops: seq<Op>, next: Op)
    requires !cfg.configured
    ensures After(cfg, Initial(cfg, t0), ops) == Initial(cfg, t0)
    ensures !Use(cfg, After(cfg, Initial(cfg, t0), ops), next).admitted
  {
    if ops != [] {
      UnconfiguredIsSilent(cfg, t0, ops[..|ops| - 1], next);
    }
  }

  // ---------------------------------------------------------------- the code

  class L2RedisClient {
    const configured: bool
    const circuit: RedisCircuitBreaker
    var connected: bool

    ghost function Settings(): Config {
      Config(configured, circuit.failureThreshold, circuit.cooldownSeconds)
    }

    ghost function Contents(): Client
      reads this, circuit
    {
      Client(circuit.State(), connected)
    }

    /** `enabled`: a non-blank address is given and the setting is on. */
    constructor (enabled: bool, breaker: RedisCircuitBreaker, ghost now: real)
      requires breaker.State() == Start(now)
      modifies breaker
      ensures configured == enabled && circuit == breaker && Contents() == Initial(Settings(), now)
    {
      configured, circuit, connected := enabled, breaker, false;
      new;
      if !enabled {
        circuit.status := Disabled;
      }
    }

    /** The pool is set up on first need; failing to do so counts as a failure. */
    method GetClient(done: real, connects: bool) returns (ok: bool)
      modifies this, circuit
      ensures ok == (configured && (old(connected) || connects))
      ensures connected == (old(connected) || ok)
      ensures circuit.State() ==
              if configured && !ok
              then Step(circuit.failureThreshold, circuit.cooldownSeconds, old(circuit.State()), Failure(done))
              else old(circuit.State())
    {
      if !configured {
        return false;
      }
      if connected {
        return true;
      }
      if !connects {
        circuit.RecordFailure(done);
        return false;
      }
      connected := true;
      return true;
    }

    /** A refused or failed read looks like an absent key. */
    method Get(op: Op) returns (value: Option<string>)
      modifies this, circuit
      ensures var u := Use(Settings(), old(Contents()), op);
              Contents() == u.client && value == u.answer.GetOr(None)
    {
      var may := circuit.CanAttempt(op.now);
      if !may {
        return None;
      }
      var client := GetClient(op.done, op.connects);
      if !client {
        return None;
      }
      match op.outcome {
        case Answers(v) =>
          circuit.RecordSuccess();
          return v;
        case _ =>
          circuit.RecordFailure(op.done);
          return None;
      }
    }

    /** Writes and deletions report only whether the remote side answered. */
    method SetOrDelete(op: Op) returns (ok: bool)
      modifies this, circuit
      ensures var u := Use(Settings(), old(Contents()), op);
              Contents() == u.client && ok == u.answer.Some?
    {
      var may := circuit.CanAttempt(op.now);
      if !may {
        return false;
      }
      var client := GetClient(op.done, op.connects);
      if !client {
        return false;
      }
      match op.outcome {
        case Answers(_) =>
          circuit.RecordSuccess();
          return true;
        case _ =>
          circuit.RecordFailure(op.done);
          return false;
      }
    }
  }
}
