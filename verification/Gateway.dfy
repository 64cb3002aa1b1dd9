/** Replay protection of signed requests: a nonce table that forgets, inside a time window. */
module Gateway {
  import opened Basics

  type Nonce = string

  datatype Stamp = Malformed | At(seconds: int)

  /** A request's headers (an empty one counts as missing) and whether its signature is the one
      the shared secret gives for it. */
  datatype Request = Request(stamp: Option<Stamp>, nonce: Option<Nonce>, signature: Option<string>, genuine: bool)

  type Table = map<Nonce, real>

  datatype Verdict = Unchecked | Accepted | MissingHeaders | BadTimestamp | OutsideWindow | NonceReplayed | Mismatch

  /** `secret`: whether one is configured when the request arrives. */
  datatype Event = Event(request: Request, now: real, secret: bool)

  const SKEW := 300.0
  const FULL := 4096

  function Pruned(seen: Table, now: real): Table {
    if |seen| < FULL then seen else map n | n in seen && now - seen[n] <= SKEW :: seen[n]
  }

  predicate InWindow(now: real, sent: int) {
    -SKEW <= now - sent as real <= SKEW
  }

  predicate Complete(r: Request) {
    r.stamp.Some? && r.nonce.Some? && r.signature.Some?
  }

  /** The request gets as far as the nonce table. */
  predicate Reaches(e: Event) {
    e.secret && Complete(e.request) && e.request.stamp.value.At? && InWindow(e.now, e.request.stamp.value.seconds)
  }

  function Handle(seen: Table, e: Event): (Table, Verdict) {
    var r := e.request;
    if !e.secret then (seen, Unchecked)
    else if !Complete(r) then (seen, MissingHeaders)
    else if r.stamp.value.Malformed? then (seen, BadTimestamp)
    else if !InWindow(e.now, r.stamp.value.seconds) then (seen, OutsideWindow)
    else
      var kept := Pruned(seen, e.now);
      var n := r.nonce.value;
      if n in kept then (kept, NonceReplayed)
      else if !r.genuine then (kept, Mismatch)
      else (kept[n := e.now], Accepted)
  }

  function Run(events: seq<Event>): Table {
    if events == [] then map[] else Handle(Run(events[..|events| - 1]), events[|events| - 1]).0
  }

  function VerdictAt(events: seq<Event>, i: nat): Verdict
    requires i < |events|
  {
    Handle(Run(events[..i]), events[i]).1
  }

  predicate ClockRuns(events: seq<Event>) {
    forall i, j :: 0 <= i < j < |events| ==> events[i].now <= events[j].now
  }

  // ---------------------------------------------------------------- who gets in

  /** The nonce is known and would survive a sweep at this moment. */
  predicate Remembered(seen: Table, n: Nonce, now: real) {
    n in seen && (|seen| < 4096 || now - seen[n] <= 300.0)
  }

  /** With a secret configured a request gets in exactly if it is complete, its timestamp is a
      number within 300 seconds of the clock either way, its nonce is not remembered and its
      signature is the genuine one; otherwise the first fault in this order is the answer. */
  lemma AcceptedIff(seen: Table, e: Event)
    ensures var (r, v) := (e.request, Handle(seen, e).1);
            var complete := r.stamp.Some? && r.nonce.Some? && r.signature.Some?;
            var number := complete && r.stamp.value.At?;
            var timely := number && -300.0 <= e.now - r.stamp.value.seconds as real <= 300.0;
            var unseen := timely && !Remembered(seen, r.nonce.value, e.now);
            && (v == Unchecked <==> !e.secret)
            && (v == Accepted <==> e.secret && unseen && r.genuine)
            && (v == MissingHeaders <==> e.secret && !complete)
            && (v == BadTimestamp <==> e.secret && complete && !number)
            && (v == OutsideWindow <==> e.secret && number && !timely)
            && (v == NonceReplayed <==> e.secret && timely && !unseen)
            && (v == Mismatch <==> e.secret && unseen && !r.genuine)
  {
  }

  /** What becomes of the table: an accepted nonce comes in with the clock's time; all else that can
      happen is that a request in its window finds a full table and drops what is too old. */
  lemma TableAfter(seen: Table, e: Event)
    ensures var (after, v) := Handle(seen, e);
            && (forall n :: n in after <==>
                  (v == Accepted && e.request.nonce == Some(n)) ||
                  (n in seen && (Remembered(seen, n, e.now) || v !in {Accepted, NonceReplayed, Mismatch})))
            && (forall n :: n in after ==>
                  after[n] == if v == Accepted && e.request.nonce == Some(n) then e.now else seen[n])
  {
  }

  /** After any run each nonce in the table is that of a request that was genuinely signed, in its
      window and accepted at the time noted. */
  lemma {:induction false} TableIsSigned(events: seq<Event>, n: Nonce) returns (i: nat)
    requires n in Run(events)
    ensures i < |events| && VerdictAt(events, i) == Accepted && events[i].secret
    ensures events[i].request.genuine && events[i].request.nonce == Some(n) && Run(events)[n] == events[i].now
    ensures exists sent: int :: events[i].request.stamp == Some(At(sent)) && InWindow(events[i].now, sent)
  {
    var last := |events| - 1;
    var prefix := events[..last];
    TableAfter(Run(prefix), events[last]);
    AcceptedIff(Run(prefix), events[last]);
    hide Handle;
    if VerdictAt(events, last) == Accepted && events[last].request.nonce == Some(n) {
      i := last;
      assert events[i].request.stamp == Some(At(events[i].request.stamp.value.seconds));
    } else {
      i := TableIsSigned(prefix, n);
      assert prefix[..i] == events[..i];
    }
  }

  /** A request without the genuine signature adds nothing to the table, ever. */
  lemma ForgeriesLeaveNoTrace(seen: Table, e: Event)
    requires e.secret && !e.request.genuine
    ensures Handle(seen, e).1 != Accepted
    ensures forall n :: n in Handle(seen, e).0 ==> n in seen && Handle(seen, e).0[n] == seen[n]
    ensures forall n :: Remembered(seen, n, e.now) ==> n in Handle(seen, e).0
  {
    AcceptedIff(seen, e);
    TableAfter(seen, e);
  }

  /** The table is at most as large as the limit, or holds nothing older than the window. */
  lemma TableStaysSmall(seen: Table, e: Event)
    requires Handle(seen, e).1 == Accepted
    ensures var after := Handle(seen, e).0;
            |after| <= FULL || forall n :: n in after ==> e.now - after[n] <= SKEW
  {
    var kept := Pruned(seen, e.now);
    assert kept[e.request.nonce.value := e.now].Keys == kept.Keys + {e.request.nonce.value};
  }

  // ---------------------------------------------------------------- what the table remembers

  /** Event `k` throws away the nonces recorded more than the window before it. */
  predicate Sweeps(events: seq<Event>, k: nat)
    requires k < |events|
  {
    Reaches(events[k]) && |Run(events[..k])| >= FULL
  }

  predicate Carries(e: Event, n: Nonce) {
    e.request.nonce == Some(n)
  }

  /** Between acceptance at `i` and now, some sweep was late enough to drop what `i` recorded. */
  ghost predicate Swept(events: seq<Event>, i: nat) {
    i < |events| &&
    exists k :: i < k < |events| && Sweeps(events, k) && events[k].now - events[i].now > SKEW
  }

  /** A nonce accepted at `i` and not presented since is remembered, with its time of
      acceptance, exactly until a late enough sweep. */
  lemma {:induction false} Remembers(events: seq<Event>, i: nat, n: Nonce)
    requires i < |events| && Carries(events[i], n) && VerdictAt(events, i) == Accepted
    requires forall k :: i < k < |events| ==> !Carries(events[k], n)
    ensures n in Run(events) ==> Run(events)[n] == events[i].now
    ensures n in Run(events) <==> !Swept(events, i)
    decreases |events|
  {
    var last := |events| - 1;
    var prefix := events[..last];
    assert forall k: nat :: k <= last ==> prefix[..k] == events[..k];
    if i == last {
      assert prefix == events[..i];
      assert events == prefix + [events[i]];
    } else {
      Remembers(prefix, i, n);
      assert Swept(prefix, i) ==> Swept(events, i);
      if Sweeps(events, last) && events[last].now - events[i].now > SKEW {
        assert Swept(events, i);
      } else {
        SweptOnlyEarlier(events, i);
      }
    }
  }

  lemma SweptOnlyEarlier(events: seq<Event>, i: nat)
    requires i < |events| - 1
    requires !(Sweeps(events, |events| - 1) && events[|events| - 1].now - events[i].now > SKEW)
    ensures Swept(events, i) ==> Swept(events[..|events| - 1], i)
  {
    var prefix := events[..|events| - 1];
    if Swept(events, i) {
      var k :| i < k < |events| && Sweeps(events, k) && events[k].now - events[i].now > SKEW;
      assert prefix[..k] == events[..k];
      assert Sweeps(prefix, k);
    }
  }

  /** The same request presented again for the first time is accepted exactly when it is still
      in its window and a sweep in between - its own included - was late enough. */
  lemma ReplayAcceptedIff(events: seq<Event>, i: nat, j: nat)
    requires i < j < |events| && VerdictAt(events, i) == Accepted
    requires events[j].request == events[i].request && events[j].secret
    requires forall k :: i < k < j ==> !Carries(events[k], events[i].request.nonce.value)
    ensures VerdictAt(events, j) == Accepted <==>
            InWindow(events[j].now, events[i].request.stamp.value.seconds) && Swept(events[..j + 1], i)
  {
    var n := events[i].request.nonce.value;
    var before, upTo := events[..j], events[..j + 1];
    assert before[..i] == events[..i];
    Remembers(before, i, n);
    assert upTo[..j] == before;
    if Swept(before, i) {
      var k :| i < k < j && Sweeps(before, k) && before[k].now - before[i].now > SKEW;
      assert upTo[..k] == before[..k];
      assert Sweeps(upTo, k);
    }
    if !(Sweeps(upTo, j) && upTo[j].now - upTo[i].now > SKEW) {
      SweptOnlyEarlier(upTo, i);
      assert upTo[..|upTo| - 1] == before;
    } else {
      assert Swept(upTo, i);
    }
  }

  /** While the window of an accepted request lasts, its nonce stays in the table. */
  lemma {:induction false} NonceStays(events: seq<Event>, i: nat, n: Nonce)
    requires i < |events| && Carries(events[i], n) && VerdictAt(events, i) == Accepted && ClockRuns(events)
    requires events[|events| - 1].now - events[i].now <= SKEW
    ensures n in Run(events) && Run(events)[n] == events[i].now
    decreases |events|
  {
    var last := |events| - 1;
    var prefix := events[..last];
    assert forall k: nat :: k <= last ==> prefix[..k] == events[..k];
    if i < last {
      NonceStays(prefix, i, n);
    }
  }

  /** With a clock that never runs backwards, no request whose timestamp was not ahead of the
      clock when it was first accepted is accepted again - although sweeps forget nonces. */
  lemma NoReplay(events: seq<Event>, i: nat, j: nat)
    requires ClockRuns(events) && i < j < |events| && events[i].request == events[j].request
    requires VerdictAt(events, i) == Accepted
    requires events[i].request.stamp.value.seconds as real <= events[i].now
    ensures VerdictAt(events, j) != Accepted
  {
    var n := events[i].request.nonce.value;
    var before := events[..j];
    if InWindow(events[j].now, events[i].request.stamp.value.seconds) {
      assert before[..i] == events[..i];
      assert before[|before| - 1].now <= events[j].now;
      NonceStays(before, i, n);
    }
  }

  // ---------------------------------------------------------------- and when it is ahead

  function Dots(n: nat): Nonce {
    seq(n + 1, _ => '.')
  }

  function Signed(nonce: Nonce, seconds: int): Request {
    Request(Some(At(seconds)), Some(nonce), Some("sig"), true)
  }

  /** `n` signed requests at time 0, each stamped 300 seconds ahead. */
  function Burst(n: nat): seq<Event> {
    if n == 0 then [] else Burst(n - 1) + [Event(Signed(Dots(n - 1), 300), 0.0, true)]
  }

  lemma {:induction false} BurstShape(n: nat)
    ensures |Burst(n)| == n && forall i :: 0 <= i < n ==> Burst(n)[i].now == 0.0
    ensures n > 0 ==> Burst(n)[0] == Event(Signed(Dots(0), 300), 0.0, true)
  {
    hide Signed, Dots;
    if n > 0 {
      BurstShape(n - 1);
    }
  }

  lemma BurstAccepts(seen: Table, nonce: Nonce)
    requires |seen| < FULL && nonce !in seen
    ensures Handle(seen, Event(Signed(nonce, 300), 0.0, true)) == (seen[nonce := 0.0], Accepted)
    ensures |seen[nonce := 0.0]| == |seen| + 1
  {
    assert seen[nonce := 0.0].Keys == seen.Keys + {nonce};
  }

  lemma {:induction false} BurstFills(n: nat)
    requires n <= FULL
    ensures |Run(Burst(n))| == n
    ensures forall x :: x in Run(Burst(n)) ==> |x| <= n && Run(Burst(n))[x] == 0.0
  {
    if n > 0 {
      BurstFills(n - 1);
      BurstShape(n - 1);
      assert Burst(n)[..n - 1] == Burst(n - 1);
      assert |Dots(n - 1)| == n;
      BurstAccepts(Run(Burst(n - 1)), Dots(n - 1));
      hide Handle, Signed, Dots;
    }
  }

  function AheadRun(): seq<Event> {
    Burst(FULL) + [Event(Signed(Dots(0), 300), 301.0, true)]
  }

  /** A timestamp ahead of the clock breaks it: a request stamped 300 seconds ahead, accepted at
      time 0 into a table that then fills, is accepted again at time 301. */
  lemma AheadIsReplayed()
    ensures var run := AheadRun();
            && ClockRuns(run) && |run| == FULL + 1
            && run[0].request == run[FULL].request
            && VerdictAt(run, 0) == Accepted && VerdictAt(run, FULL) == Accepted
  {
    BurstFills(FULL);
    BurstShape(FULL);
    var run := AheadRun();
    assert run[..0] == [] && run[..FULL] == Burst(FULL);
    hide Burst, Run, Dots;
    assert Handle(map[], run[0]).1 == Accepted;
    assert Run([]) == map[] by {
      EmptyRun();
    }
    assert Pruned(Run(Burst(FULL)), 301.0) == map[];
  }

  lemma EmptyRun()
    ensures Run([]) == map[]
  {
  }

  // ---------------------------------------------------------------- the code

  class GatewayGuard {
    var seen: Table

    constructor ()
      ensures seen == Run([])
    {
      seen := map[];
    }

    method Prune(now: real)
      modifies this
      ensures seen == Pruned(old(seen), now)
    {
      if |seen| < FULL {
        return;
      }
      var snapshot, todo := seen, seen.Keys;
      while todo != {}
        invariant todo <= snapshot.Keys
        invariant seen == map n | n in snapshot && (n in todo || now - snapshot[n] <= SKEW) :: snapshot[n]
        decreases todo
      {
        var n :| n in todo;
        todo := todo - {n};
        if now - snapshot[n] > SKEW {
          seen := seen - {n};
        }
      }
    }

    method RequireSignature(e: Event) returns (v: Verdict)
      modifies this
      ensures (seen, v) == Handle(old(seen), e)
    {
      if !e.secret {
        return Unchecked;
      }
      var r := e.request;
      if r.stamp.None? || r.nonce.None? || r.signature.None? {
        return MissingHeaders;
      }
      if r.stamp.value.Malformed? {
        return BadTimestamp;
      }
      var gap := e.now - r.stamp.value.seconds as real;
      if (if gap < 0.0 then -gap else gap) > SKEW {
        return OutsideWindow;
      }
      Prune(e.now);
      if r.nonce.value in seen {
        return NonceReplayed;
      }
      if !r.genuine {
        return Mismatch;
      }
      seen := seen[r.nonce.value := e.now];
      return Accepted;
    }
  }
}
