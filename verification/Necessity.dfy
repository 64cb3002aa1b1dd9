/** The producer is a last resort: over every interleaving, a call that misses or produces has looked
    into both tiers, twice if it produces, and each look truly found nothing. */
module Necessity {
  import opened Tiered
  import opened WriteThrough
  import opened ReadBack

  predicate LocalMiss(x: State, c: Call, allowStale: bool) {
    c.worker in x.workers && !LocalGood(x, c, false) && !(allowStale && LocalGood(x, c, true))
  }

  /** The remote answer is lost or garbled, or there is nothing good to be had. */
  predicate RemoteMiss(x: State, c: Call, reply: Reply, allowStale: bool) {
    reply != Intact || (!RemoteGood(x, c.key, false) && !(allowStale && RemoteGood(x, c.key, true)))
  }

  predicate LocalMissAt(s: State, run: seq<Action>, i: nat, t: Tid, c: Call, allowStale: bool) {
    StepOf(s, run, i, t) && LocalMiss(At(s, run, i), c, allowStale)
  }

  predicate RemoteMissAt(s: State, run: seq<Action>, i: nat, t: Tid, c: Call, allowStale: bool) {
    StepOf(s, run, i, t) && RemoteMiss(At(s, run, i), c, run[i].choice.reply, allowStale)
  }

  /** The first `n` of four looks in vain: into L1, into L2, and, for fresh values only, again. */
  ghost predicate InVainAt(s: State, run: seq<Action>, t: Tid, c: Call, n: nat, i: nat, j: nat, k: nat, l: nat) {
    && i < j < k < l
    && (n >= 1 ==> LocalMissAt(s, run, i, t, c, c.allowStale))
    && (n >= 2 ==> RemoteMissAt(s, run, j, t, c, c.allowStale))
    && (n >= 3 ==> LocalMissAt(s, run, k, t, c, false))
    && (n >= 4 ==> RemoteMissAt(s, run, l, t, c, false))
  }

  ghost predicate InVain(s: State, run: seq<Action>, t: Tid, c: Call, n: nat) {
    exists i: nat, j: nat, k: nat, l: nat :: InVainAt(s, run, t, c, n, i, j, k, l)
  }

  /** How often a reading call has looked in vain when it is where it is. */
  function Looks(c: Call, pc: PC): nat {
    if c.kind.Put? || c.kind.Refresh? then 0
    else
      match pc
      case ReadL2 => 1
      case PurgeL2 => 2
      case Acquire => 2
      case Wait => 2
      case RecheckL1 => 2
      case RecheckL2 => 3
      case RecheckPurge => 4
      case Produce => 4
      case Producing => 4
      case Encode(_) => 4
      case PutL2(_, _) => 4
      case PutL1(_, _) => 4
      case Unlock(out) => LooksBefore(out)
      case Release(out) => LooksBefore(out)
      case Done(out) => LooksBefore(out)
      case _ => 0
  }

  function LooksBefore(out: Outcome): nat {
    match out
    case Missed => 2
    case Produced(_) => 4
    case Raised => 4
    case _ => 0
  }

  lemma LocalLook(t: Tid, th: Thread, w: Worker, l2: map<Key, Envelope>, now: real, ch: Choice)
    requires th.pc.ReadL1? || th.pc.RecheckL1?
    ensures var stale := th.call.allowStale && th.pc.ReadL1?;
            var pc := Move(t, th, w, l2, now, ch).pc;
            && Looks(th.call, pc) <= Looks(th.call, th.pc) + 1
            && (Looks(th.call, pc) > Looks(th.call, th.pc) ==>
                 (th.call.key in w.l1.entries ==>
                    var e := w.l1.entries[th.call.key];
                    !(now < e.expiresEpoch && now < e.expiresMono) && !(stale && now < e.staleUntil)))
  {
  }

  lemma RemoteLook(t: Tid, th: Thread, w: Worker, l2: map<Key, Envelope>, now: real, ch: Choice)
    requires th.pc.ReadL2? || th.pc.RecheckL2?
    ensures var stale := th.call.allowStale && th.pc.ReadL2?;
            var pc := Move(t, th, w, l2, now, ch).pc;
            && Looks(th.call, pc) <= Looks(th.call, th.pc) + 1
            && (Looks(th.call, pc) > Looks(th.call, th.pc) ==>
                 ch.reply != Intact || (th.call.key in l2 ==>
                    !(now < l2[th.call.key].expires) && !(stale && now < l2[th.call.key].staleUntil)))
  {
  }

  predicate IsLook(pc: PC) {
    pc.ReadL1? || pc.RecheckL1? || pc.ReadL2? || pc.RecheckL2?
  }

  /** No other step leads on to where more looks are due. */
  lemma NoLook(h: Lineage.History, t: Tid, th: Thread, w: Worker, l2: map<Key, Envelope>, now: real, ch: Choice)
    requires !IsLook(th.pc) && Lineage.ThreadOk(h, t, th)
    ensures Looks(th.call, Move(t, th, w, l2, now, ch).pc) <= Looks(th.call, th.pc)
  {
    hide L1.Read, L1.Write, L1.WellFormed, L1.Peek, Look, Purged, Seal, EntryOf, Flight.Acquire, Flight.Release, Fill,
      Lineage.Blank, Lineage.Admissible, Lineage.EnvBacked, Lineage.Source, Lineage.Unwritten, Lineage.Ran;
  }

  // ---------------------------------------------------------------- every run

  lemma LocalStays(s: State, run: seq<Action>, a: Action, i: nat, t: Tid, c: Call, allowStale: bool)
    requires LocalMissAt(s, run, i, t, c, allowStale)
    ensures LocalMissAt(s, run + [a], i, t, c, allowStale) && i < |run|
  {
    StepStays(s, run, a, i, t);
  }

  lemma RemoteMissStays(s: State, run: seq<Action>, a: Action, i: nat, t: Tid, c: Call, allowStale: bool)
    requires RemoteMissAt(s, run, i, t, c, allowStale)
    ensures RemoteMissAt(s, run + [a], i, t, c, allowStale) && i < |run|
  {
    StepStays(s, run, a, i, t);
  }

  /** One more action; if it is one more look in vain, that counts. */
  lemma More(s: State, run: seq<Action>, a: Action, t: Tid, c: Call, n: nat, m: nat)
    requires InVain(s, run, t, c, n) && m <= n + 1 && n <= 4
    requires m == n + 1 ==>
               var stale := c.allowStale && n <= 1;
               if n == 0 || n == 2 then LocalMissAt(s, run + [a], |run|, t, c, stale)
               else RemoteMissAt(s, run + [a], |run|, t, c, stale)
    ensures InVain(s, run + [a], t, c, m)
  {
    hide LocalMissAt, RemoteMissAt;
    var i: nat, j: nat, k: nat, l: nat :| InVainAt(s, run, t, c, n, i, j, k, l);
    var longer, end := run + [a], |run|;
    if n >= 1 {
      LocalStays(s, run, a, i, t, c, c.allowStale);
    }
    if n >= 2 {
      RemoteMissStays(s, run, a, j, t, c, c.allowStale);
    }
    if n >= 3 {
      LocalStays(s, run, a, k, t, c, false);
    }
    if n >= 4 {
      RemoteMissStays(s, run, a, l, t, c, false);
    }
    var i' := if n == 0 then end else i;
    var j' := if n == 0 then end + 1 else if n == 1 then end else j;
    var k' := if n < 2 then end + 2 else if n == 2 then end else k;
    var l' := if n < 3 then end + 3 else if n == 3 then end else l;
    assert InVainAt(s, longer, t, c, m, i', j', k', l');
  }

  lemma StepLooks(s: State, run: seq<Action>, t: Tid, ch: Choice)
    requires Legal(s, run) && Lineage.Inv(Final(s, run)) && Enabled(Final(s, run), Advance(t, ch))
    requires Legal(s, run + [Advance(t, ch)])
    requires Final(s, run + [Advance(t, ch)]) == Apply(Final(s, run), Advance(t, ch))
    requires t in Final(s, run).threads && t in Apply(Final(s, run), Advance(t, ch)).threads
    requires var th := Final(s, run).threads[t]; InVain(s, run, t, th.call, Looks(th.call, th.pc))
    ensures var (x, y) := (Final(s, run), Apply(Final(s, run), Advance(t, ch)));
            && y.threads[t].call == x.threads[t].call
            && InVain(s, run + [Advance(t, ch)], t, x.threads[t].call, Looks(x.threads[t].call, y.threads[t].pc))
  {
    hide Legal, Final, Apply, Enabled, Lineage.Inv, Move, InVain, Looks;
    var x, a := Final(s, run), Advance(t, ch);
    OwnThread(x, t, ch);
    var th := x.threads[t];
    var w := x.workers[th.call.worker];
    LastStep(s, run, t, ch);
    LooksOfLooking(th.call, th.pc);
    LooksOfLooking(th.call, Apply(x, a).threads[t].pc);
    if th.pc.ReadL1? || th.pc.RecheckL1? {
      LocalLook(t, th, w, x.l2, x.now, ch);
    } else if th.pc.ReadL2? || th.pc.RecheckL2? {
      RemoteLook(t, th, w, x.l2, x.now, ch);
    } else {
      ThreadOk(x, t);
      NoLook(Lineage.Past(x), t, th, w, x.l2, x.now, ch);
    }
    More(s, run, a, t, th.call, Looks(th.call, th.pc), Looks(th.call, Apply(x, a).threads[t].pc));
  }

  lemma OwnThread(x: State, t: Tid, ch: Choice)
    requires Lineage.Inv(x) && Enabled(x, Advance(t, ch))
    ensures t in x.threads && x.threads[t].call.worker in x.workers && t in Apply(x, Advance(t, ch)).threads
    ensures var th := x.threads[t];
            var e := Move(t, th, x.workers[th.call.worker], x.l2, x.now, ch);
            Apply(x, Advance(t, ch)).threads[t] == Thread(th.call, e.pc, e.lock)
  {
    hide Move, Lineage.ThreadOk, Lineage.WriteOk;
  }

  lemma ThreadOk(x: State, t: Tid)
    requires Lineage.Inv(x) && t in x.threads
    ensures Lineage.ThreadOk(Lineage.Past(x), t, x.threads[t])
  {
  }

  lemma LooksOfLooking(c: Call, pc: PC)
    ensures Looks(c, pc) <= 4
    ensures c.kind.Get? || c.kind.GetOrSet? ==>
              && (pc.ReadL1? ==> Looks(c, pc) == 0) && (pc.ReadL2? ==> Looks(c, pc) == 1)
              && (pc.RecheckL1? ==> Looks(c, pc) == 2) && (pc.RecheckL2? ==> Looks(c, pc) == 3)
    ensures c.kind.Put? || c.kind.Refresh? ==> Looks(c, pc) == 0
    ensures pc == FirstPC(c) ==> Looks(c, pc) == 0
  {
  }

  lemma {:induction false} RunLooks(t0: real, run: seq<Action>, t: Tid)
    requires Legal(Init(t0), run) && t in Final(Init(t0), run).threads
    ensures var th := Final(Init(t0), run).threads[t]; InVain(Init(t0), run, t, th.call, Looks(th.call, th.pc))
  {
    var s := Init(t0);
    hide Legal, Final, Init, Enabled, Apply, Lineage.Inv, InVain, Looks;
    if run != [] {
      var shorter, a := run[..|run| - 1], run[|run| - 1];
      assert run == shorter + [a];
      Snoc(s, shorter, a);
      Lineage.Reachable(t0, shorter);
      var x := Final(s, shorter);
      if a.Advance? && a.tid == t {
        OwnThread(x, t, a.choice);
        RunLooks(t0, shorter, t);
        StepLooks(s, shorter, t, a.choice);
      } else {
        OthersStay(x, a, t);
        var th := Apply(x, a).threads[t];
        if t in x.threads {
          RunLooks(t0, shorter, t);
          LooksOfLooking(th.call, th.pc);
          More(s, shorter, a, t, th.call, Looks(th.call, th.pc), Looks(th.call, th.pc));
        } else {
          LooksOfLooking(th.call, th.pc);
          NoneYet(s, run, t, th.call);
        }
      }
    } else {
      Nobody(t0);
    }
  }

  lemma NoneYet(s: State, run: seq<Action>, t: Tid, c: Call)
    ensures InVain(s, run, t, c, 0)
  {
    assert InVainAt(s, run, t, c, 0, 0, 1, 2, 3);
  }

  /** Over every run: a `get` that misses has looked into its worker's L1 and then into L2 and found
      nothing good there, or got no proper answer; a `get_or_set` that runs its producer, returns what
      it gave or raises, has done so and then, holding the lock of the key, has done it again,
      for fresh values only. */
  lemma MissesAreReal(t0: real, run: seq<Action>, t: Tid)
    requires Legal(Init(t0), run) && t in Final(Init(t0), run).threads
    ensures var (c, pc) := (Final(Init(t0), run).threads[t].call, Final(Init(t0), run).threads[t].pc);
            && (c.kind.Get? && pc == Done(Missed) ==> InVain(Init(t0), run, t, c, 2))
            && (c.kind.GetOrSet? && (pc.Producing? || (pc.Done? && !pc.out.Served?)) ==> InVain(Init(t0), run, t, c, 4))
  {
    RunLooks(t0, run, t);
    Lineage.Reachable(t0, run);
    ThreadOk(Final(Init(t0), run), t);
    hide Legal, Final, Init, InVain, Lineage.Inv;
  }
}
