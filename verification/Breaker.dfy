/** The circuit breaker in front of the remote store, and what it does over every history
    of attempts, successes and failures. */
module Breaker {
  import opened Basics

  datatype Status = Closed | Open | HalfOpen | Disabled

  datatype State = Circuit(status: Status, failures: nat, changedAt: real)

  datatype Event = Attempt(now: real) | Success | Failure(now: real)

  function Start(now: real): State {
    Circuit(Closed, 0, now)
  }

  predicate Admits(cooldown: real, s: State, now: real) {
    match s.status
    case Closed => true
    case HalfOpen => true
    case Disabled => false
    case Open => now - s.changedAt >= cooldown
  }

  function Step(threshold: int, cooldown: real, s: State, e: Event): State {
    match e
    case Attempt(now) =>
      if s.status.Open? && Admits(cooldown, s, now) then s.(status := HalfOpen, changedAt := now) else s
    case Success => s.(status := Closed, failures := 0)
    case Failure(now) =>
      if s.status.Disabled? then s
      else if (s.status.Closed? && s.failures + 1 >= threshold) || s.status.HalfOpen?
      then Circuit(Open, s.failures + 1, now)
      else s.(failures := s.failures + 1)
  }

  function Run(threshold: int, cooldown: real, s: State, es: seq<Event>): State {
    if es == [] then s else Step(threshold, cooldown, Run(threshold, cooldown, s, es[..|es| - 1]), es[|es| - 1])
  }

  /** Failures recorded since the last success, counted backwards from the end. */
  function FailuresSinceSuccess(es: seq<Event>): nat {
    if es == [] then 0
    else
      match es[|es| - 1]
      case Success => 0
      case Failure(_) => FailuresSinceSuccess(es[..|es| - 1]) + 1
      case Attempt(_) => FailuresSinceSuccess(es[..|es| - 1])
  }

  /** Over every history the count is the failures since the last success, and the circuit is
      closed exactly while that count is below the threshold (a threshold under 1 acts as 1). */
  lemma {:induction false} Characterisation(threshold: int, cooldown: real, t0: real, es: seq<Event>)
    ensures var s := Run(threshold, cooldown, Start(t0), es);
            && s.failures == FailuresSinceSuccess(es)
            && !s.status.Disabled?
            && (s.status.Closed? <==> FailuresSinceSuccess(es) < Max(threshold, 1))
  {
    if es != [] {
      Characterisation(threshold, cooldown, t0, es[..|es| - 1]);
    }
  }

  predicate NoSuccess(es: seq<Event>) {
    forall i :: 0 <= i < |es| ==> !es[i].Success?
  }

  /** No attempt among `es` was made later than `now`. */
  predicate AttemptsUpTo(es: seq<Event>, now: real) {
    forall i :: 0 <= i < |es| && es[i].Attempt? ==> es[i].now <= now
  }

  predicate AttemptsBefore(es: seq<Event>, limit: real) {
    forall i :: 0 <= i < |es| && es[i].Attempt? ==> es[i].now < limit
  }

  lemma {:induction false} OpenHolds(threshold: int, cooldown: real, s: State, es: seq<Event>)
    requires s.status.Open? && NoSuccess(es) && AttemptsBefore(es, s.changedAt + cooldown)
    ensures var r := Run(threshold, cooldown, s, es); r.status.Open? && r.changedAt == s.changedAt
  {
    if es != [] {
      assert es[|es| - 1] in es;
      OpenHolds(threshold, cooldown, s, es[..|es| - 1]);
    }
  }

  lemma {:induction false} RunJoin(threshold: int, cooldown: real, s: State, a: seq<Event>, b: seq<Event>)
    ensures Run(threshold, cooldown, s, a + b) == Run(threshold, cooldown, Run(threshold, cooldown, s, a), b)
  {
    if b == [] {
      assert a + b == a;
    } else {
      RunJoin(threshold, cooldown, s, a, b[..|b| - 1]);
      assert (a + b)[..|a + b| - 1] == a + b[..|b| - 1];
    }
  }

  /** A failure at `trip` that opens the circuit keeps every later attempt out until the
      cooldown has passed, whatever happens in between short of a recorded success; the first
      attempt from then on gets in. */
  lemma CooldownHolds(threshold: int, cooldown: real, t0: real, before: seq<Event>, trip: real, after: seq<Event>,
        now: real)
    requires !Run(threshold, cooldown, Start(t0), before).status.Open?
    requires Run(threshold, cooldown, Start(t0), before + [Failure(trip)]).status.Open?
    requires NoSuccess(after) && AttemptsUpTo(after, now)
    ensures Admits(cooldown, Run(threshold, cooldown, Start(t0), before + [Failure(trip)] + after), now) ==>
            trip + cooldown <= now
    ensures AttemptsBefore(after, trip + cooldown) && trip + cooldown <= now ==>
            Admits(cooldown, Run(threshold, cooldown, Start(t0), before + [Failure(trip)] + after), now)
  {
    var tripped := Run(threshold, cooldown, Start(t0), before + [Failure(trip)]);
    assert (before + [Failure(trip)])[..|before|] == before;
    assert tripped.changedAt == trip;
    RunJoin(threshold, cooldown, Start(t0), before + [Failure(trip)], after);
    if AttemptsBefore(after, trip + cooldown) {
      OpenHolds(threshold, cooldown, tripped, after);
    }
  }

  /** A disabled circuit refuses every attempt until somebody records a success on it. */
  lemma {:induction false} DisabledHolds(threshold: int, cooldown: real, s: State, es: seq<Event>, now: real)
    requires s.status.Disabled? && NoSuccess(es)
    ensures Run(threshold, cooldown, s, es) == s && !Admits(cooldown, Run(threshold, cooldown, s, es), now)
  {
    if es != [] {
      assert es[|es| - 1] in es;
      DisabledHolds(threshold, cooldown, s, es[..|es| - 1], now);
    }
  }

  class RedisCircuitBreaker {
    const failureThreshold: int
    const cooldownSeconds: real
    var status: Status
    var failureCount: nat
    var lastStateChange: real

    ghost function State(): State
      reads this
    {
      Circuit(status, failureCount, lastStateChange)
    }

    constructor (failureThreshold: int, cooldownSeconds: real, now: real)
      ensures this.failureThreshold == failureThreshold && this.cooldownSeconds == cooldownSeconds
      ensures State() == Start(now)
    {
      this.failureThreshold, this.cooldownSeconds := failureThreshold, cooldownSeconds;
      status, failureCount, lastStateChange := Closed, 0, now;
    }

    method CanAttempt(now: real) returns (ok: bool)
      modifies this
      ensures State() == Step(failureThreshold, cooldownSeconds, old(State()), Attempt(now))
      ensures ok == Admits(cooldownSeconds, old(State()), now)
    {
      if status == Disabled {
        return false;
      }
      if status == Closed {
        return true;
      }
      if status == Open {
        if now - lastStateChange >= cooldownSeconds {
          status, lastStateChange := HalfOpen, now;
          return true;
        }
        return false;
      }
      return true;
    }

    method RecordSuccess()
      modifies this
      ensures State() == Step(failureThreshold, cooldownSeconds, old(State()), Success)
    {
      status, failureCount := Closed, 0;
    }

    method RecordFailure(now: real)
      modifies this
      ensures State() == Step(failureThreshold, cooldownSeconds, old(State()), Failure(now))
    {
      if status == Disabled {
        return;
      }
      failureCount := failureCount + 1;
      if status == Closed && failureCount >= failureThreshold {
        status, lastStateChange := Open, now;
      } else if status == HalfOpen {
        status, lastStateChange := Open, now;
      }
    }
  }
}
