/** The same nonce table under concurrency: between looking a nonce up and inserting it the
    engine awaits the body, so other requests may come in between. */
module GatewayThreads {
  import opened Basics
  import opened Gateway

  type Id = nat

  datatype Action = Check(id: Id, request: Request, now: real) | Insert(id: Id)

  /** `pending`: requests that passed every check and wait to insert their nonce. */
  datatype State = State(seen: Table, pending: map<Id, (Nonce, real)>)

  function Looked(seen: Table, r: Request, now: real): (Table, Verdict) {
    var (after, verdict) := Handle(seen, Event(r, now, true));
    (if verdict == Accepted then Pruned(seen, now) else after, verdict)
  }

  /** A check and an insertion with nothing in between are one request handled atomically. */
  lemma TogetherIsHandle(seen: Table, r: Request, now: real)
    ensures var (looked, verdict) := Looked(seen, r, now);
            && verdict == Handle(seen, Event(r, now, true)).1
            && Handle(seen, Event(r, now, true)).0 ==
               if verdict == Accepted then looked[r.nonce.value := now] else looked
  {
  }

  predicate Legal(s: State, a: Action) {
    match a
    case Check(id, _, _) => id !in s.pending
    case Insert(id) => id in s.pending
  }

  function Step(s: State, a: Action): State
    requires Legal(s, a)
  {
    match a
    case Check(id, r, now) =>
      var (seen, verdict) := Looked(s.seen, r, now);
      State(seen, if verdict == Accepted then s.pending[id := (r.nonce.value, now)] else s.pending)
    case Insert(id) => State(s.seen[s.pending[id].0 := s.pending[id].1], s.pending - {id})
  }

  predicate LegalRun(actions: seq<Action>)
    decreases |actions|, 0
  {
    actions == [] ||
    (LegalRun(actions[..|actions| - 1]) && Legal(After(actions[..|actions| - 1]), actions[|actions| - 1]))
  }

  function After(actions: seq<Action>): State
    requires LegalRun(actions)
    decreases |actions|, 1
  {
    if actions == [] then State(map[], map[])
    else Step(After(actions[..|actions| - 1]), actions[|actions| - 1])
  }

  // ---------------------------------------------------------------- only signed requests

  /** Check `k` was of a complete, timely and genuinely signed request with this nonce, at that time. */
  ghost predicate SignedCheck(actions: seq<Action>, k: nat, n: Nonce, at: real) {
    && k < |actions| && actions[k].Check? && actions[k].now == at
    && exists sent: int, signature: string ::
         && actions[k].request == Request(Some(At(sent)), Some(n), Some(signature), true)
         && -300.0 <= at - sent as real <= 300.0
  }

  ghost predicate FromSigned(actions: seq<Action>, n: Nonce, at: real) {
    exists k: nat :: SignedCheck(actions, k, n, at)
  }

  lemma SignedEarlier(actions: seq<Action>, n: Nonce, at: real)
    requires actions != [] && FromSigned(actions[..|actions| - 1], n, at)
    ensures FromSigned(actions, n, at)
  {
    var k: nat :| SignedCheck(actions[..|actions| - 1], k, n, at);
    assert SignedCheck(actions, k, n, at);
  }

  /** A check only forgets nonces, and lets nothing through but a signed request in its window. */
  lemma CheckPasses(seen: Table, r: Request, now: real)
    ensures var (after, verdict) := Looked(seen, r, now);
            && (forall n :: n in after ==> n in seen && after[n] == seen[n])
            && (verdict == Accepted ==>
                  && r.stamp.Some? && r.stamp.value.At? && r.nonce.Some? && r.signature.Some? && r.genuine
                  && -300.0 <= now - r.stamp.value.seconds as real <= 300.0)
  {
    TableAfter(seen, Event(r, now, true));
    AcceptedIff(seen, Event(r, now, true));
  }

  /** Where what waits and what is in the table after a step was before it. */
  lemma StepTrace(s: State, a: Action)
    requires Legal(s, a)
    ensures forall id :: id in Step(s, a).pending ==>
              || (id in s.pending && Step(s, a).pending[id] == s.pending[id])
              || (a.Check? && Looked(s.seen, a.request, a.now).1 == Accepted
                  && Step(s, a).pending[id] == (a.request.nonce.value, a.now))
    ensures forall n :: n in Step(s, a).seen ==>
              || (n in s.seen && Step(s, a).seen[n] == s.seen[n])
              || (a.Insert? && a.id in s.pending && (n, Step(s, a).seen[n]) == s.pending[a.id])
  {
    if a.Check? {
      CheckPasses(s.seen, a.request, a.now);
    }
    hide Looked;
  }

  ghost predicate AllSigned(actions: seq<Action>, s: State) {
    && (forall id :: id in s.pending ==> FromSigned(actions, s.pending[id].0, s.pending[id].1))
    && (forall n :: n in s.seen ==> FromSigned(actions, n, s.seen[n]))
  }

  /** In every interleaving, whatever waits to be inserted and whatever is in the table comes from
      the check of a genuinely signed request in its window, with the time of that check. */
  lemma {:induction false} OnlySignedWait(actions: seq<Action>)
    requires LegalRun(actions)
    ensures AllSigned(actions, After(actions))
  {
    if actions != [] {
      OnlySignedWait(actions[..|actions| - 1]);
      StepSigned(actions, After(actions[..|actions| - 1]));
    }
  }

  lemma StepSigned(actions: seq<Action>, s: State)
    requires actions != [] && Legal(s, actions[|actions| - 1]) && AllSigned(actions[..|actions| - 1], s)
    ensures AllSigned(actions, Step(s, actions[|actions| - 1]))
  {
    hide Step, Legal, Looked, FromSigned;
    var last := |actions| - 1;
    var a := actions[last];
    var t := Step(s, a);
    StepTrace(s, a);
    if a.Check? && Looked(s.seen, a.request, a.now).1 == Accepted {
      CheckPasses(s.seen, a.request, a.now);
      CheckIsSigned(actions, last);
    }
    forall id | id in s.pending
      ensures FromSigned(actions, s.pending[id].0, s.pending[id].1)
    {
      SignedEarlier(actions, s.pending[id].0, s.pending[id].1);
    }
    forall n | n in s.seen
      ensures FromSigned(actions, n, s.seen[n])
    {
      SignedEarlier(actions, n, s.seen[n]);
    }
  }

  lemma CheckIsSigned(actions: seq<Action>, k: nat)
    requires k < |actions| && actions[k].Check?
    requires var r := actions[k].request;
             && r.stamp.Some? && r.stamp.value.At? && r.nonce.Some? && r.signature.Some? && r.genuine
             && -300.0 <= actions[k].now - r.stamp.value.seconds as real <= 300.0
    ensures FromSigned(actions, actions[k].request.nonce.value, actions[k].now)
  {
    var r := actions[k].request;
    assert r == Request(Some(At(r.stamp.value.seconds)), Some(r.nonce.value), Some(r.signature.value), true);
    assert SignedCheck(actions, k, r.nonce.value, actions[k].now);
  }

  /** The nonce has been inserted by now. */
  predicate Inserted(actions: seq<Action>, n: Nonce)
    requires LegalRun(actions)
    decreases |actions|
  {
    actions != [] &&
    var prefix, a := actions[..|actions| - 1], actions[|actions| - 1];
    (Inserted(prefix, n) || (a.Insert? && After(prefix).pending[a.id].0 == n))
  }

  /** Every check of this nonce is of this one request, stamped no later than the check; and no
      check at all is later than the end of the request's window. */
  predicate Fits(a: Action, r: Request, n: Nonce, stamp: int) {
    a.Check? ==>
      && a.now <= stamp as real + SKEW
      && (a.request.nonce == Some(n) ==> a.request == r && stamp as real <= a.now)
  }

  predicate AllFit(actions: seq<Action>, r: Request, n: Nonce, stamp: int) {
    actions == [] ||
    (AllFit(actions[..|actions| - 1], r, n, stamp) && Fits(actions[|actions| - 1], r, n, stamp))
  }

  predicate Fresh(s: State, n: Nonce, stamp: int) {
    && (n in s.seen ==> stamp as real <= s.seen[n])
    && (forall id :: id in s.pending && s.pending[id].0 == n ==> stamp as real <= s.pending[id].1)
  }

  lemma StepKeepsNonce(s: State, a: Action, r: Request, n: Nonce, stamp: int)
    requires Legal(s, a) && Fits(a, r, n, stamp) && Fresh(s, n, stamp)
    ensures Fresh(Step(s, a), n, stamp)
    ensures n in Step(s, a).seen <==> n in s.seen || (a.Insert? && s.pending[a.id].0 == n)
  {
  }

  /** During the window of a request its nonce is in the table exactly once it has been inserted. */
  lemma {:induction false} NonceIsThereIff(actions: seq<Action>, r: Request, n: Nonce, stamp: int)
    requires LegalRun(actions) && AllFit(actions, r, n, stamp)
    ensures Fresh(After(actions), n, stamp)
    ensures n in After(actions).seen <==> Inserted(actions, n)
  {
    hide Step, Legal, Fits, Fresh;
    if actions != [] {
      NonceIsThereIff(actions[..|actions| - 1], r, n, stamp);
      StepKeepsNonce(After(actions[..|actions| - 1]), actions[|actions| - 1], r, n, stamp);
    } else {
      NothingYet(n, stamp);
    }
  }

  lemma NothingYet(n: Nonce, stamp: int)
    ensures Fresh(State(map[], map[]), n, stamp)
  {
  }

  predicate Passes(actions: seq<Action>, k: nat)
    requires k < |actions| && LegalRun(actions[..k])
  {
    actions[k].Check? && Looked(After(actions[..k]).seen, actions[k].request, actions[k].now).1 == Accepted
  }

  /** A correctly signed request, complete and in its window, passes its checks exactly if its
      nonce has not been inserted before - by another copy of it. */
  lemma PassesIff(actions: seq<Action>, k: nat, r: Request, n: Nonce, stamp: int)
    requires k < |actions| && LegalRun(actions[..k]) && AllFit(actions[..k], r, n, stamp)
    requires r == Request(Some(At(stamp)), Some(n), r.signature, true) && r.signature.Some?
    requires actions[k].Check? && actions[k].request == r
    requires stamp as real <= actions[k].now <= stamp as real + SKEW
    ensures Passes(actions, k) <==> !Inserted(actions[..k], n)
  {
    NonceIsThereIff(actions[..k], r, n, stamp);
    hide After, Inserted, AllFit, LegalRun;
  }

  lemma {:induction false} InsertedStays(actions: seq<Action>, i: nat, n: Nonce)
    requires LegalRun(actions) && i <= |actions| && LegalRun(actions[..i]) && Inserted(actions[..i], n)
    ensures Inserted(actions, n)
    decreases |actions|
  {
    hide Legal, Step;
    if i < |actions| {
      assert actions[..|actions| - 1][..i] == actions[..i];
      InsertedStays(actions[..|actions| - 1], i, n);
    } else {
      assert actions[..i] == actions;
    }
  }

  /** Two copies of one request both get through exactly if the second check comes before the
      first insertion; handled one after the other, only one does. */
  lemma AcceptedTwiceIff(actions: seq<Action>, i: nat, j: nat, r: Request, n: Nonce, stamp: int)
    requires i < j < |actions| && LegalRun(actions[..j]) && LegalRun(actions[..i])
    requires AllFit(actions[..j], r, n, stamp) && AllFit(actions[..i], r, n, stamp)
    requires r == Request(Some(At(stamp)), Some(n), r.signature, true) && r.signature.Some?
    requires actions[i].Check? && actions[i].request == r && stamp as real <= actions[i].now <= stamp as real + SKEW
    requires actions[j].Check? && actions[j].request == r && stamp as real <= actions[j].now <= stamp as real + SKEW
    ensures Passes(actions, i) && Passes(actions, j) <==> !Inserted(actions[..j], n)
  {
    PassesIff(actions, i, r, n, stamp);
    PassesIff(actions, j, r, n, stamp);
    assert actions[..j][..i] == actions[..i];
    if Inserted(actions[..i], n) {
      InsertedStays(actions[..j], i, n);
    }
  }
}
