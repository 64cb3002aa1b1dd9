/** The two memory cells of one model task - the model object and the version recorded for it -
    as threads see them: neither `ensure_active_model` nor a promotion holds a lock, and each
    reads or writes one cell at a time. */
module ServingThreads {
  import opened Basics

  type Tid = nat

  /** `filed`: the version the object was loaded as; none for what start-up found on disk. */
  datatype Model = Model(weights: int, filed: Option<string>)

  /** `champion` is the version the registry has. */
  datatype Memory = Memory(model: Option<Model>, version: Option<string>, champion: string)

  datatype Pc =
    // ensure_active_model, from the authoritative version it was told
    | Asked(target: string)
    | SawModel(target: string, model: Option<Model>)
    | SawBoth(target: string, model: Option<Model>, version: Option<string>)
    | Naming(target: string, named: Model)
    | Swapping(target: string, next: Model)
    | Recording(target: string, next: Model)
    | Answered(target: string, model: Option<Model>, version: Option<string>, synced: bool)
    // promote_model and rollback_model, once the artifact passed its checks
    | Reloading(target: string, next: Model)
    | Committing(target: string)
    | Noting(target: string)
    | Over

  /** How a promotion's transaction goes: it commits, it raises, or it is rolled back unnoticed. */
  datatype Ending = Commits | Raises | AuditAborts

  /** `passes`: whether the target's artifact passes every gate; `noted`: whether the steps after
      the transaction get as far as recording the version. */
  datatype Choice = Choice(passes: bool, weights: int, ending: Ending, noted: bool)

  /** What a run has put into the model cell last: nothing, what start-up found, or a load of a
      version by a hot-reload or a promotion. */
  datatype Mark = Nothing | StartUp | Loaded(version: string)

  /** The past of a run, which no step looks at: the last load and the last recording, and what
      they were when each call read the cells, or wrote them itself. */
  datatype Past = Past(
    loaded: Mark, recorded: Option<string>, seen: map<Tid, Mark>, heard: map<Tid, Option<string>>)

  datatype State = State(memory: Memory, threads: map<Tid, Pc>, past: Past)

  datatype Action =
    | Ask(id: Tid, target: string)
    | Promote(id: Tid, target: string, weights: int)
    | Advance(id: Tid, choice: Choice)
    | Elsewhere(champion: string)

  // ---------------------------------------------------------------- one step of a thread

  predicate Finished(pc: Pc) {
    pc.Answered? || pc.Over?
  }

  function Decide(pc: Pc, ch: Choice): Pc
    requires pc.SawBoth?
  {
    if pc.model.Some? && pc.version == Some(pc.target) then Answered(pc.target, pc.model, pc.version, true)
    else if pc.model.Some? && pc.version.None? then Naming(pc.target, pc.model.value)
    else if ch.passes then Swapping(pc.target, Model(ch.weights, Some(pc.target)))
    else Answered(pc.target, pc.model, pc.version, false)
  }

  function Move(m: Memory, pc: Pc, ch: Choice): (Memory, Pc) {
    match pc
    case Asked(target) => (m, SawModel(target, m.model))
    case SawModel(target, model) => (m, SawBoth(target, model, m.version))
    case SawBoth(_, _, _) => (m, Decide(pc, ch))
    case Naming(target, named) => (m.(version := Some(target)), Answered(target, Some(named), Some(target), true))
    case Swapping(target, next) => (m.(model := Some(next)), Recording(target, next))
    case Recording(target, next) => (m.(version := Some(target)), Answered(target, Some(next), Some(target), true))
    case Reloading(target, next) => (m.(model := Some(next)), Committing(target))
    case Committing(target) =>
      (match ch.ending
       case Commits => (m.(champion := target), Noting(target))
       case AuditAborts => (m, Noting(target))
       case Raises => (m, Over))
    case Noting(target) => (if ch.noted then m.(version := Some(target)) else m, Over)
    case _ => (m, pc)
  }

  /** The same step in the record of the run. */
  function Noticed(p: Past, id: Tid, pc: Pc, ch: Choice): Past {
    match pc
    case Asked(_) => p.(seen := p.seen[id := p.loaded])
    case SawModel(_, _) => p.(heard := p.heard[id := p.recorded])
    case Naming(target, _) => p.(recorded := Some(target), heard := p.heard[id := Some(target)])
    case Swapping(target, _) => p.(loaded := Loaded(target), seen := p.seen[id := Loaded(target)])
    case Recording(target, _) => p.(recorded := Some(target), heard := p.heard[id := Some(target)])
    case Reloading(target, _) => p.(loaded := Loaded(target))
    case Noting(target) => if ch.noted then p.(recorded := Some(target)) else p
    case _ => p
  }

  predicate Legal(s: State, a: Action) {
    match a
    case Ask(id, _) => id !in s.threads
    case Promote(id, _, _) => id !in s.threads
    case Advance(id, _) => id in s.threads && !Finished(s.threads[id])
    case Elsewhere(_) => true
  }

  function Step(s: State, a: Action): State
    requires Legal(s, a)
  {
    match a
    case Ask(id, target) => s.(threads := s.threads[id := Asked(target)])
    case Promote(id, target, weights) => s.(threads := s.threads[id := Reloading(target, Model(weights, Some(target)))])
    case Advance(id, ch) =>
      var (m, pc) := Move(s.memory, s.threads[id], ch);
      State(m, s.threads[id := pc], Noticed(s.past, id, s.threads[id], ch))
    case Elsewhere(champion) => s.(memory := s.memory.(champion := champion))
  }

  predicate LegalRun(s: State, actions: seq<Action>)
    decreases |actions|
  {
    actions == [] || (Legal(s, actions[0]) && LegalRun(Step(s, actions[0]), actions[1..]))
  }

  function After(s: State, actions: seq<Action>): State
    requires LegalRun(s, actions)
    decreases |actions|
  {
    if actions == [] then s else After(Step(s, actions[0]), actions[1..])
  }

  /** Before the first call. */
  function Begin(m: Memory): State {
    State(m, map[], Past(MarkOf(m.model), m.version, map[], map[]))
  }

  function MarkOf(model: Option<Model>): Mark {
    match model
    case None => Nothing
    case Some(m) => if m.filed.Some? then Loaded(m.filed.value) else StartUp
  }

  // ---------------------------------------------------------------- when an answer is right

  /** The model handed out is of the version given for it; a start-up model is of any version. */
  predicate Right(pc: Pc) {
    pc.Answered? && pc.version.Some? ==>
      pc.model.Some? && (pc.model.value.filed.None? || pc.model.value.filed == pc.version)
  }

  predicate Synced(pc: Pc) {
    pc.Answered? && pc.synced
  }

  /** The record tells what a thread holds. */
  predicate Told(p: Past, id: Tid, pc: Pc) {
    match pc
    case SawModel(_, model) => id in p.seen && p.seen[id] == MarkOf(model)
    case SawBoth(_, model, version) =>
      id in p.seen && p.seen[id] == MarkOf(model) && id in p.heard && p.heard[id] == version
    case Naming(_, named) => id in p.seen && p.seen[id] == MarkOf(Some(named))
    case Swapping(target, next) => next.filed == Some(target)
    case Recording(target, next) => next.filed == Some(target) && id in p.seen && p.seen[id] == Loaded(target)
    case Reloading(target, next) => next.filed == Some(target)
    case Answered(target, model, version, synced) =>
      && id in p.seen && p.seen[id] == MarkOf(model) && id in p.heard && p.heard[id] == version
      && (synced ==> version == Some(target) && model.Some?)
    case _ => true
  }

  ghost predicate AllTold(s: State) {
    && s.past.loaded == MarkOf(s.memory.model) && s.past.recorded == s.memory.version
    && forall id :: id in s.threads ==> Told(s.past, id, s.threads[id])
  }

  lemma StepTells(s: State, a: Action)
    requires Legal(s, a) && AllTold(s)
    ensures AllTold(Step(s, a))
  {
    var s' := Step(s, a);
    forall id | id in s'.threads
      ensures Told(s'.past, id, s'.threads[id])
    {
      if id in s.threads {
        assert Told(s.past, id, s.threads[id]);
      }
    }
  }

  lemma {:induction false} RunTells(s: State, actions: seq<Action>)
    requires LegalRun(s, actions) && AllTold(s)
    ensures AllTold(After(s, actions))
    decreases |actions|
  {
    hide AllTold, Step, Legal;
    if actions != [] {
      StepTells(s, actions[0]);
      RunTells(Step(s, actions[0]), actions[1..]);
    }
  }

  /** Over every interleaving of calls and promotions: an answer is right exactly when it gives no
      version, or the last load before it read the model cell (or its own) was of the version last
      recorded before it read that (or recorded itself), or there was only the start-up model. A
      SYNCED answer has heard its own target. */
  lemma AnswerIsRightIff(m: Memory, actions: seq<Action>, id: Tid)
    requires LegalRun(Begin(m), actions)
    requires id in After(Begin(m), actions).threads && After(Begin(m), actions).threads[id].Answered?
    ensures var s := After(Begin(m), actions);
            var pc := s.threads[id];
            && id in s.past.seen && id in s.past.heard
            && (Right(pc) <==> s.past.heard[id].None? || s.past.seen[id] == StartUp
                                || s.past.seen[id] == Loaded(s.past.heard[id].value))
            && (pc.synced ==> s.past.heard[id] == Some(pc.target) && pc.version == Some(pc.target))
  {
    RunTells(Begin(m), actions);
    var s := After(Begin(m), actions);
    assert Told(s.past, id, s.threads[id]);
  }

  /** Over every interleaving, finished or not: the model in memory is of the recorded version
      exactly when the last load and the last recording were of the same version; and it is stuck
      exactly when the last recording was of the champion and the model cell has another origin. */
  lemma MemoryAgreesIff(m: Memory, actions: seq<Action>)
    requires LegalRun(Begin(m), actions)
    ensures var s := After(Begin(m), actions);
            && (s.memory.version.Some? ==>
                 (s.memory.model.Some? && s.memory.model.value.filed == s.memory.version <==>
                  s.past.loaded == Loaded(s.past.recorded.GetOr(""))))
            && (Stuck(s.memory) <==>
                 s.past.recorded == Some(s.memory.champion) && s.past.loaded != Nothing
                 && s.past.loaded != Loaded(s.memory.champion))
  {
    RunTells(Begin(m), actions);
  }

  // ---------------------------------------------------------------- runs that go wrong

  lemma {:induction false} RunOn(s: State, actions: seq<Action>, a: Action)
    requires LegalRun(s, actions) && Legal(After(s, actions), a)
    ensures LegalRun(s, actions + [a]) && After(s, actions + [a]) == Step(After(s, actions), a)
    ensures AloneThroughout(s, actions) && Alone(Step(After(s, actions), a)) ==> AloneThroughout(s, actions + [a])
    decreases |actions|
  {
    hide Step, Legal, Alone;
    if actions == [] {
      assert [] + [a] == [a] && [a][1..] == [];
    } else {
      RunOn(Step(s, actions[0]), actions[1..], a);
      assert (actions + [a])[1..] == actions[1..] + [a];
    }
  }

  lemma Next(s: State, actions: seq<Action>, t: State, a: Action) returns (more: seq<Action>, u: State)
    requires LegalRun(s, actions) && After(s, actions) == t && Legal(t, a)
    ensures LegalRun(s, more) && After(s, more) == u && u == Step(t, a)
    ensures AloneThroughout(s, actions) && Alone(u) ==> AloneThroughout(s, more)
  {
    RunOn(s, actions, a);
    more, u := actions + [a], Step(t, a);
  }

  /** Some call in the run has answered SYNCED with a model of another version. */
  ghost predicate Tears(s: State, actions: seq<Action>)
    requires LegalRun(s, actions)
  {
    var t := After(s, actions).threads;
    exists id :: id in t && Synced(t[id]) && !Right(t[id])
  }

  function ChampionIs(version: string): Memory {
    Memory(Some(Model(1, Some("v1"))), Some("v1"), version)
  }

  /** A swap to "v2" is between its two writes while another call, told "v1" earlier, reads both
      cells: it answers SYNCED "v1" and hands out the model of "v2". */
  lemma OverlapTearsAnswers() returns (actions: seq<Action>)
    ensures LegalRun(Begin(ChampionIs("v2")), actions) && Tears(Begin(ChampionIs("v2")), actions)
  {
    var s, ch := Begin(ChampionIs("v2")), Choice(true, 2, Commits, true);
    var t := s;
    hide LegalRun, After, AloneThroughout, Alone, Right;
    actions := StartRun(s);
    actions, t := Next(s, actions, t, Ask(0, "v2"));
    actions, t := Next(s, actions, t, Advance(0, ch));
    actions, t := Next(s, actions, t, Advance(0, ch));
    actions, t := Next(s, actions, t, Advance(0, ch));
    actions, t := Next(s, actions, t, Advance(0, ch));
    assert t.past.loaded == Loaded("v2") && t.past.recorded == Some("v1");
    actions, t := Next(s, actions, t, Ask(1, "v1"));
    actions, t := Next(s, actions, t, Advance(1, ch));
    actions, t := Next(s, actions, t, Advance(1, ch));
    actions, t := Next(s, actions, t, Advance(1, ch));
    AnswerIsRightIff(ChampionIs("v2"), actions, 1);
  }

  lemma StartRun(s: State) returns (actions: seq<Action>)
    ensures actions == [] && LegalRun(s, actions) && After(s, actions) == s
    ensures Alone(s) ==> AloneThroughout(s, actions)
  {
    actions := [];
  }

  /** Nor does it take an overlap: a promotion of "v2" whose transaction raises after the reload,
      and then, with nothing else going on, a call for the champion "v1". */
  lemma LateFailureTearsAnswers() returns (actions: seq<Action>)
    ensures LegalRun(Begin(ChampionIs("v1")), actions) && AloneThroughout(Begin(ChampionIs("v1")), actions)
    ensures Tears(Begin(ChampionIs("v1")), actions)
  {
    var s, ch := Begin(ChampionIs("v1")), Choice(true, 2, Raises, true);
    var t := s;
    hide LegalRun, After, AloneThroughout, Right;
    actions := StartRun(s);
    actions, t := Next(s, actions, t, Promote(0, "v2", 2));
    actions, t := Next(s, actions, t, Advance(0, ch));
    actions, t := Next(s, actions, t, Advance(0, ch));
    actions, t := Next(s, actions, t, Ask(1, "v1"));
    actions, t := Next(s, actions, t, Advance(1, ch));
    actions, t := Next(s, actions, t, Advance(1, ch));
    actions, t := Next(s, actions, t, Advance(1, ch));
    AnswerIsRightIff(ChampionIs("v1"), actions, 1);
  }

  /** Two overlapping calls, told "v2" and "v3", are both about to swap. */
  lemma BothSwap() returns (actions: seq<Action>, t: State)
    ensures LegalRun(Begin(ChampionIs("v3")), actions) && After(Begin(ChampionIs("v3")), actions) == t
    ensures t.threads.Keys == {0, 1} && t.memory.champion == "v3"
    ensures t.threads[0] == Swapping("v2", Model(2, Some("v2"))) && t.threads[1] == Swapping("v3", Model(2, Some("v3")))
  {
    var s, ch := Begin(ChampionIs("v3")), Choice(true, 2, Commits, true);
    hide LegalRun, After, AloneThroughout, Alone;
    t := s;
    actions := StartRun(s);
    actions, t := Next(s, actions, t, Ask(0, "v2"));
    actions, t := Next(s, actions, t, Advance(0, ch));
    actions, t := Next(s, actions, t, Advance(0, ch));
    actions, t := Next(s, actions, t, Advance(0, ch));
    assert t.threads == map[0 := Swapping("v2", Model(2, Some("v2")))] && t.memory == ChampionIs("v3");
    actions, t := Next(s, actions, t, Ask(1, "v3"));
    actions, t := Next(s, actions, t, Advance(1, ch));
    actions, t := Next(s, actions, t, Advance(1, ch));
    actions, t := Next(s, actions, t, Advance(1, ch));
  }

  /** The models are then written one way round, the versions the other: every call is finished,
      and memory is stuck for good. */
  lemma CrossedSwapsStick() returns (actions: seq<Action>)
    ensures LegalRun(Begin(ChampionIs("v3")), actions)
    ensures var s := After(Begin(ChampionIs("v3")), actions);
            Stuck(s.memory) && forall id :: id in s.threads ==> Finished(s.threads[id])
  {
    var s, ch := Begin(ChampionIs("v3")), Choice(true, 2, Commits, true);
    var t: State;
    hide LegalRun, After, AloneThroughout, Alone, Stuck, Begin;
    actions, t := BothSwap();
    actions, t := Next(s, actions, t, Advance(1, ch));
    actions, t := Next(s, actions, t, Advance(0, ch));
    actions, t := Next(s, actions, t, Advance(0, ch));
    actions, t := Next(s, actions, t, Advance(1, ch));
    assert t.past.loaded == Loaded("v2") && t.past.recorded == Some("v3") && t.memory.champion == "v3";
    MemoryAgreesIff(ChampionIs("v3"), actions);
  }

  // ---------------------------------------------------------------- calls that do not overlap

  /** The thread has read or is about to write a cell. */
  predicate Inside(pc: Pc) {
    !pc.Asked? && !Finished(pc)
  }

  ghost predicate Alone(s: State) {
    forall t, u :: t in s.threads && u in s.threads && Inside(s.threads[t]) && Inside(s.threads[u]) ==> t == u
  }

  /** No two calls for the task overlap - what a lock around them would ensure. */
  ghost predicate AloneThroughout(s: State, actions: seq<Action>)
    requires LegalRun(s, actions)
    decreases |actions|
  {
    Alone(s) && (actions != [] ==> AloneThroughout(Step(s, actions[0]), actions[1..]))
  }

  /** What a thread saw is still there. */
  predicate UpToDate(m: Memory, pc: Pc) {
    match pc
    case SawModel(_, model) => model == m.model
    case SawBoth(_, model, version) => model == m.model && version == m.version
    case Naming(_, named) => m.model == Some(named)
    case Recording(_, next) => m.model == Some(next)
    case _ => true
  }

  ghost predicate AllUpToDate(s: State) {
    forall t :: t in s.threads ==> UpToDate(s.memory, s.threads[t])
  }

  /** The step that answers gives what both cells hold at that moment. */
  predicate Faithful(s: State, a: Action)
    requires Legal(s, a)
  {
    var s' := Step(s, a);
    a.Advance? && s'.threads[a.id].Answered? ==>
      s'.threads[a.id].model == s'.memory.model && s'.threads[a.id].version == s'.memory.version
  }

  ghost predicate AllFaithful(s: State, actions: seq<Action>)
    requires LegalRun(s, actions)
    decreases |actions|
  {
    actions != [] ==> Faithful(s, actions[0]) && AllFaithful(Step(s, actions[0]), actions[1..])
  }

  lemma StepUpToDate(s: State, a: Action)
    requires Legal(s, a) && Alone(s) && Alone(Step(s, a)) && AllUpToDate(s)
    ensures AllUpToDate(Step(s, a)) && Faithful(s, a)
  {
    var s' := Step(s, a);
    forall t | t in s'.threads
      ensures UpToDate(s'.memory, s'.threads[t])
    {
      if a.Advance? && t != a.id && Inside(s.threads[t]) {
        assert !Inside(s.threads[a.id]);
      }
    }
  }

  /** Without overlap every answer is what memory holds at that moment, as if calls were atomic. */
  lemma {:induction false} AloneIsFaithful(s: State, actions: seq<Action>)
    requires LegalRun(s, actions) && AloneThroughout(s, actions) && AllUpToDate(s)
    ensures AllFaithful(s, actions)
    decreases |actions|
  {
    if actions != [] {
      assert AloneThroughout(Step(s, actions[0]), actions[1..]);
      StepUpToDate(s, actions[0]);
      AloneIsFaithful(Step(s, actions[0]), actions[1..]);
    }
  }

  // ---------------------------------------------------------------- memory and registry in step

  /** Steps that are left to a thread at most. */
  function Left(pc: Pc): nat {
    match pc
    case Asked(_) => 5
    case SawModel(_, _) => 4
    case SawBoth(_, _, _) => 3
    case Swapping(_, _) => 2
    case Naming(_, _) => 1
    case Recording(_, _) => 1
    case Reloading(_, _) => 3
    case Committing(_) => 2
    case Noting(_) => 1
    case _ => 0
  }

  /** A thread run to its end with nobody in between. */
  function Finish(m: Memory, pc: Pc, ch: Choice): Memory
    decreases Left(pc)
  {
    if Finished(pc) then m
    else
      var (m', pc') := Move(m, pc, ch);
      Finish(m', pc', ch)
  }

  function UseAlone(m: Memory, target: string, ch: Choice): Memory {
    Finish(m, Asked(target), ch)
  }

  function PromoteAlone(m: Memory, target: string, ch: Choice): Memory {
    Finish(m, Reloading(target, Model(ch.weights, Some(target))), ch)
  }

  /** Memory, recorded version and registry are at one. */
  predicate Agree(m: Memory) {
    m.version == Some(m.champion) && m.model.Some? && m.model.value.filed == m.version
  }

  /** The recorded version is the champion, but the model in memory was not loaded as it. */
  predicate Stuck(m: Memory) {
    m.version == Some(m.champion) && m.model.Some? && m.model.value.filed != m.version
  }

  lemma LastWrite(m: Memory, target: string, next: Model, ch: Choice)
    ensures Finish(m, Recording(target, next), ch) == m.(version := Some(target))
    ensures Finish(m, Naming(target, next), ch) == m.(version := Some(target))
    ensures Finish(m, Swapping(target, next), ch) == m.(model := Some(next), version := Some(target))
  {
    var swapped := m.(model := Some(next));
    assert Finish(swapped, Recording(target, next), ch) == swapped.(version := Some(target));
    assert Finish(m, Swapping(target, next), ch) == Finish(swapped, Recording(target, next), ch);
  }

  lemma UseEffect(m: Memory, target: string, ch: Choice)
    ensures UseAlone(m, target, ch) ==
            if m.model.Some? && m.version == Some(target) then m
            else if m.model.Some? && m.version.None? then m.(version := Some(target))
            else if ch.passes then m.(model := Some(Model(ch.weights, Some(target))), version := Some(target))
            else m
  {
    var seen := SawBoth(target, m.model, m.version);
    assert UseAlone(m, target, ch) == Finish(m, SawModel(target, m.model), ch) == Finish(m, seen, ch);
    var next := Decide(seen, ch);
    assert Finish(m, seen, ch) == Finish(m, next, ch);
    if !Finished(next) {
      LastWrite(m, target, if next.Swapping? then next.next else next.named, ch);
    }
  }

  lemma NoteEffect(m: Memory, target: string, ch: Choice)
    ensures Finish(m, Noting(target), ch) == if ch.noted then m.(version := Some(target)) else m
  {
  }

  lemma PromoteEffect(m: Memory, target: string, ch: Choice)
    ensures var loaded := m.(model := Some(Model(ch.weights, Some(target))));
            var stored := if ch.ending == Commits then loaded.(champion := target) else loaded;
            PromoteAlone(m, target, ch) ==
            if ch.ending != Raises && ch.noted then stored.(version := Some(target)) else stored
  {
    var loaded := m.(model := Some(Model(ch.weights, Some(target))));
    assert PromoteAlone(m, target, ch) == Finish(loaded, Committing(target), ch);
    if ch.ending != Raises {
      var stored := if ch.ending == Commits then loaded.(champion := target) else loaded;
      assert Finish(loaded, Committing(target), ch) == Finish(stored, Noting(target), ch);
      NoteEffect(stored, target, ch);
    } else {
      assert Finish(loaded, Over, ch) == loaded;
    }
  }

  /** One call for the champion, its artifact passing every gate, brings all three together
      exactly unless there is a model in memory that was not loaded as the champion but goes by
      its version, or by none yet. */
  lemma OneUseSettlesIff(m: Memory, ch: Choice)
    requires ch.passes
    ensures Agree(UseAlone(m, m.champion, ch)) <==>
            !Stuck(m) && !(m.version.None? && m.model.Some? && m.model.value.filed != Some(m.champion))
  {
    UseEffect(m, m.champion, ch);
    hide UseAlone;
  }

  /** No call for the champion, however its artifact fares, gets memory unstuck or stuck. */
  lemma UsesDoNotUnstick(m: Memory, ch: Choice)
    ensures m.version.Some? ==> (Stuck(UseAlone(m, m.champion, ch)) <==> Stuck(m))
  {
    UseEffect(m, m.champion, ch);
    hide UseAlone;
  }

  /** A promotion or rollback leaves memory stuck exactly when it loads a version that is not
      champion, ends without making it champion or recording it, and the champion's is recorded. */
  lemma PromotionSticksIff(m: Memory, target: string, ch: Choice)
    ensures Stuck(PromoteAlone(m, target, ch)) <==>
            m.version == Some(m.champion) && target != m.champion &&
            (ch.ending == Raises || (ch.ending == AuditAborts && !ch.noted))
  {
    PromoteEffect(m, target, ch);
    hide PromoteAlone;
  }

  /** And all three agree after it exactly when it was committed and recorded - or what it loaded
      was champion and is, or is now, recorded. */
  lemma PromotionAgreesIff(m: Memory, target: string, ch: Choice)
    ensures Agree(PromoteAlone(m, target, ch)) <==>
            (ch.ending == Commits || target == m.champion) &&
            ((ch.ending != Raises && ch.noted) || m.version == Some(target))
  {
    PromoteEffect(m, target, ch);
    hide PromoteAlone;
  }

  /** A whole sequence of calls, none overlapping: after a promotion that raises late, memory
      stays wrong through any number of calls for the champion. */
  function Uses(m: Memory, choices: seq<Choice>): Memory {
    if choices == [] then m
    else
      var before := Uses(m, choices[..|choices| - 1]);
      UseAlone(before, before.champion, choices[|choices| - 1])
  }

  lemma {:induction false} LatePromotionLasts(m: Memory, target: string, late: Choice, choices: seq<Choice>)
    requires Agree(m) && late.ending == Raises
    ensures Stuck(Uses(PromoteAlone(m, target, late), choices)) <==> target != m.champion
    ensures Uses(PromoteAlone(m, target, late), choices).version == m.version
    ensures Uses(PromoteAlone(m, target, late), choices).champion == m.champion
  {
    PromotionSticksIff(m, target, late);
    PromoteEffect(m, target, late);
    hide PromoteAlone, UseAlone;
    if choices != [] {
      var before := Uses(PromoteAlone(m, target, late), choices[..|choices| - 1]);
      LatePromotionLasts(m, target, late, choices[..|choices| - 1]);
      UsesDoNotUnstick(before, choices[|choices| - 1]);
      UseEffect(before, before.champion, choices[|choices| - 1]);
    }
  }
}
