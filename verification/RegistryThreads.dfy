/** The registry under concurrency: an endpoint reads the model's row before its transaction and
    does not look at it again inside, so other requests may commit in between. Transactions are
    atomic: where two overlap, the unique index on champions makes the later one raise. */
module RegistryThreads {
  import opened Basics
  import opened Rbac
  import opened Registry

  type Tid = nat

  datatype State = State(tables: Tables, pending: map<Tid, Call>)

  /** A request passes its checks, commits its transaction - in which it asks for the champions
      afresh - or is dropped; a failed smoke test is recorded; and training adds models. */
  datatype Action =
    | Pass(tid: Tid, call: Call)
    | Commit(tid: Tid, first: Option<ModelId>)
    | Drop(tid: Tid)
    | Blame(id: ModelId)
    | Add(id: ModelId, model: Model)

  /** The checks before the transaction let the request through. */
  predicate Admitted(t: Tables, c: Call)
    requires !c.Insert?
  {
    && MayReview(c.role) && c.id in t.models
    && var m := t.models[c.id];
       match c
       case Approve(_, role, _) => m.status == Challenger && m.leakagePassed && MayGovern(role, m.task)
       case Promote(_, role, gate, _, _, _) => m.status == Approved && MayGovern(role, m.task) && gate == Passes
       case Reject(_, _, _) => m.status != Champion
       case Rollback(_, role, gate, _, _, _) => role.SuperAdmin? && gate == Passes
  }

  /** What the transaction writes, whatever the row has become. */
  function Effect(t: Tables, c: Call): Tables
    requires !c.Insert? && c.id in t.models && Registry.Legal(t, c)
  {
    match c
    case Approve(id, _, _) => Tables(WithStatus(t.models, id, Approved), t.log + [EntryOf(c)])
    case Promote(_, _, _, _, _, _) => Promoted(t, c)
    case Reject(id, _, _) => Tables(WithStatus(t.models, id, Rejected), t.log + [EntryOf(c)])
    case Rollback(_, _, _, _, _, _) => Restored(t, c)
  }

  /** With nothing in between, checks and transaction are the atomic request. */
  lemma TogetherIsStep(t: Tables, c: Call)
    requires !c.Insert? && Registry.Legal(t, c) && c.ending == Commits
    ensures Admitted(t, c) <==> Registry.Step(t, c).0.log != t.log
    ensures Admitted(t, c) ==> Registry.Step(t, c).0 == Effect(t, c)
  {
  }

  function Asking(c: Call, first: Option<ModelId>): Call {
    match c
    case Promote(id, role, gate, _, now, ending) => Promote(id, role, gate, first, now, ending)
    case Rollback(id, role, gate, _, now, ending) => Rollback(id, role, gate, first, now, ending)
    case _ => c
  }

  predicate Ready(s: State, c: Call) {
    !c.Insert? && c.id in s.tables.models && Registry.Legal(s.tables, c)
  }

  predicate Legal(s: State, a: Action) {
    match a
    case Pass(tid, c) => tid !in s.pending && !c.Insert? && Admitted(s.tables, c)
    case Commit(tid, first) => tid in s.pending && Ready(s, Asking(s.pending[tid], first))
    case Drop(tid) => tid in s.pending
    case Blame(id) => id in s.tables.models
    case Add(id, model) => id != 0 && id !in s.tables.models && model.status == Challenger
  }

  function Step(s: State, a: Action): State
    requires Legal(s, a)
  {
    match a
    case Pass(tid, c) => s.(pending := s.pending[tid := c])
    case Commit(tid, first) => State(Effect(s.tables, Asking(s.pending[tid], first)), s.pending - {tid})
    case Drop(tid) => s.(pending := s.pending - {tid})
    case Blame(id) =>
      s.(tables := s.tables.(models := s.tables.models[id := s.tables.models[id].(smoke := SmokeFailed)]))
    case Add(id, model) => s.(tables := s.tables.(models := s.tables.models[id := model]))
  }

  predicate LegalRun(s: State, actions: seq<Action>)
    decreases |actions|
  {
    actions == [] || (Legal(s, actions[0]) && LegalRun(Step(s, actions[0]), actions[1..]))
  }

  function After(s: State, actions: seq<Action>): State
    requires LegalRun(s, actions)
    decreases |actions|
  {
    if actions == [] then s else After(Step(s, actions[0]), actions[1..])
  }

  // ---------------------------------------------------------------- one commit for each request

  /** Only a request that passed its checks waits, and only until it commits or is dropped. */
  lemma WaitingIff(s: State, a: Action, tid: Tid)
    requires Legal(s, a)
    ensures tid in Step(s, a).pending <==>
              (a.Pass? && a.tid == tid) || (tid in s.pending && !((a.Commit? || a.Drop?) && a.tid == tid))
    ensures tid in Step(s, a).pending && tid in s.pending ==> Step(s, a).pending[tid] == s.pending[tid]
  {
  }

  function CommitCount(actions: seq<Action>): nat {
    if actions == [] then 0 else (if actions[0].Commit? then 1 else 0) + CommitCount(actions[1..])
  }

  /** The approvals table has one row more for each commit, and none for anything else. */
  lemma {:induction false} LogCountsCommits(s: State, actions: seq<Action>)
    requires LegalRun(s, actions)
    ensures |After(s, actions).tables.log| == |s.tables.log| + CommitCount(actions)
    decreases |actions|
  {
    if actions != [] {
      LogCountsCommits(Step(s, actions[0]), actions[1..]);
    }
  }

  // ---------------------------------------------------------------- champions after a commit

  function Serving(s: State, task: Task): set<ModelId> {
    Champions(s.tables.models, task)
  }

  /** A commit approves or rejects a model that is champion by now. */
  predicate Stale(s: State, a: Action, task: Task)
    requires Legal(s, a)
  {
    a.Commit? &&
    var c := s.pending[a.tid];
    (c.Approve? || c.Reject?) && c.id in Serving(s, task)
  }

  lemma DecisionChampions(t: Tables, c: Call, task: Task)
    requires (c.Approve? || c.Reject?) && c.id in t.models
    ensures Champions(Effect(t, c).models, task) == Champions(t.models, task) - {c.id}
  {
  }

  /** A promotion, also of a model that has changed since it was checked. */
  lemma LatePromotionChampions(t: Tables, c: Call, task: Task)
    requires c.Promote? && c.id in t.models && Registry.Legal(t, c)
    ensures Champions(Promoted(t, c).models, task) ==
            if t.models[c.id].task != task then Champions(t.models, task)
            else if c.first.Some? then Champions(t.models, task) - {c.first.value} + {c.id}
            else Champions(t.models, task) + {c.id}
  {
  }

  lemma Swapped(rows: set<ModelId>, first: Option<ModelId>, id: ModelId)
    requires IsFirst(rows, first)
    ensures var after := if first.Some? then rows - {first.value} + {id} else rows + {id};
            after != {} && |after| <= Max(|rows|, 1)
  {
    if first.Some? {
      assert |rows - {first.value}| == |rows| - 1;
      assert id in rows - {first.value} + {id};
    } else {
      assert id in rows + {id};
    }
  }

  lemma RemovedOne(rows: set<ModelId>, id: ModelId)
    ensures |rows - {id}| <= |rows| && (rows != {} && rows - {id} == {} <==> rows == {id})
  {
    if id in rows {
      assert rows == rows - {id} + {id};
    } else {
      assert rows - {id} == rows;
    }
  }

  /** No interleaving adds a champion to a task that has one. And a commit takes away a task's
      last champion exactly when it approves or rejects that very model - which was no champion
      when the request was checked. */
  lemma CommitsCounted(s: State, a: Action, task: Task)
    requires Legal(s, a) && 0 !in s.tables.models
    ensures 0 !in Step(s, a).tables.models
    ensures |Serving(Step(s, a), task)| <= Max(|Serving(s, task)|, 1)
    ensures Serving(s, task) != {} && Serving(Step(s, a), task) == {} <==>
            Stale(s, a, task) && Serving(s, task) == {s.pending[a.tid].id}
  {
    match a {
      case Pass(_, _) =>
      case Drop(_) =>
      case Blame(id) => BlamedChampions(s, id, task);
      case Add(id, model) => AddedChampions(s, id, model, task);
      case Commit(tid, first) => CommitCounted(s, tid, first, task);
    }
  }

  lemma AddedChampions(s: State, id: ModelId, model: Model, task: Task)
    requires Legal(s, Add(id, model))
    ensures Serving(Step(s, Add(id, model)), task) == Serving(s, task)
  {
  }

  lemma BlamedChampions(s: State, id: ModelId, task: Task)
    requires Legal(s, Blame(id))
    ensures Serving(Step(s, Blame(id)), task) == Serving(s, task)
  {
  }

  lemma CommitCounted(s: State, tid: Tid, first: Option<ModelId>, task: Task)
    requires Legal(s, Commit(tid, first)) && 0 !in s.tables.models
    ensures var s' := Step(s, Commit(tid, first));
            && 0 !in s'.tables.models
            && |Serving(s', task)| <= Max(|Serving(s, task)|, 1)
            && (Serving(s, task) != {} && Serving(s', task) == {} <==>
                Stale(s, Commit(tid, first), task) && Serving(s, task) == {s.pending[tid].id})
  {
    hide Champions, Promoted, Restored;
    var t, c := s.tables, Asking(s.pending[tid], first);
    NoZero(t, c);
    if c.Approve? || c.Reject? {
      DecisionChampions(t, c, task);
      RemovedOne(Champions(t.models, task), c.id);
      if t.models[c.id].task == task {
        ChampionsAreRows(t.models, task);
      }
    } else {
      if c.Promote? {
        LatePromotionChampions(t, c, task);
      } else {
        RollbackChampions(t, c, task);
        ChampionsAreRows(t.models, t.models[c.id].task);
      }
      if t.models[c.id].task == task {
        Swapped(Champions(t.models, task), c.first, c.id);
      }
    }
  }

  lemma NoZero(t: Tables, c: Call)
    requires !c.Insert? && c.id in t.models && Registry.Legal(t, c) && 0 !in t.models
    ensures 0 !in Effect(t, c).models
  {
  }

  // ---------------------------------------------------------------- whole runs

  /** Some commit of the run approves or rejects the task's only champion. */
  predicate EverStale(s: State, actions: seq<Action>, task: Task)
    requires LegalRun(s, actions)
    decreases |actions|
  {
    actions != [] &&
    ((Stale(s, actions[0], task) && Serving(s, task) == {s.pending[actions[0].tid].id})
     || EverStale(Step(s, actions[0]), actions[1..], task))
  }

  predicate AlwaysServed(s: State, actions: seq<Action>, task: Task)
    requires LegalRun(s, actions)
    decreases |actions|
  {
    Serving(s, task) != {} && (actions != [] ==> AlwaysServed(Step(s, actions[0]), actions[1..], task))
  }

  /** In every interleaving a task has at most one champion, if it did; and one that has a champion
      has one at every moment exactly if nobody's approval or rejection, checked earlier, commits
      on it while it is the only one. */
  lemma {:induction false} AlwaysServedIff(s: State, actions: seq<Action>, task: Task)
    requires LegalRun(s, actions) && 0 !in s.tables.models
    ensures |Serving(After(s, actions), task)| <= Max(|Serving(s, task)|, 1)
    ensures Serving(s, task) != {} ==> (AlwaysServed(s, actions, task) <==> !EverStale(s, actions, task))
    decreases |actions|
  {
    hide Step, Legal, Stale, Serving;
    if actions != [] {
      CommitsCounted(s, actions[0], task);
      AlwaysServedIff(Step(s, actions[0]), actions[1..], task);
    }
  }

  lemma Before(s: State, a: Action, rest: seq<Action>)
    requires Legal(s, a) && LegalRun(Step(s, a), rest)
    ensures LegalRun(s, [a] + rest) && After(s, [a] + rest) == After(Step(s, a), rest)
  {
    assert ([a] + rest)[1..] == rest;
  }

  lemma FourSteps(s: State, a: Action, b: Action, c: Action, d: Action)
    requires Legal(s, a) && Legal(Step(s, a), b) && Legal(Step(Step(s, a), b), c)
    requires Legal(Step(Step(Step(s, a), b), c), d)
    ensures LegalRun(s, [a] + ([b] + ([c] + ([d] + []))))
    ensures After(s, [a] + ([b] + ([c] + ([d] + [])))) == Step(Step(Step(Step(s, a), b), c), d)
  {
    hide Step, Legal;
    Before(Step(Step(Step(s, a), b), c), d, []);
    Before(Step(Step(s, a), b), c, [d] + []);
    Before(Step(s, a), b, [c] + ([d] + []));
    Before(s, a, [b] + ([c] + ([d] + [])));
  }

  /** Model 2 serves, the untested model 1 might. */
  function Waiting(): State {
    State(Tables(map[
      2 := Model(Shortfall, Champion, true, SmokePassed, None, None),
      1 := Model(Shortfall, Approved, true, Untested, None, None)], []), map[])
  }

  lemma OnlyServing(s: State, task: Task, id: ModelId)
    requires id in s.tables.models && s.tables.models[id].task == task && s.tables.models[id].status == Champion
    requires forall i :: i in s.tables.models && s.tables.models[i].status == Champion ==> i == id
    ensures Serving(s, task) == {id}
  {
  }

  lemma BothPass(a: Action, b: Action, c: Action)
    requires a == Pass(0, Reject(1, SuperAdmin, Commits))
    requires b == Pass(1, Promote(1, SuperAdmin, Passes, None, 5, Commits)) && c == Commit(1, Some(2))
    ensures var s := Waiting();
            && Serving(s, Shortfall) == {2}
            && Legal(s, a) && Legal(Step(s, a), b) && Legal(Step(Step(s, a), b), c)
            && var s3 := Step(Step(Step(s, a), b), c);
            && Serving(s3, Shortfall) == {1} && Legal(s3, Commit(0, None)) && 0 !in s3.tables.models
            && s3.pending[0] == Reject(1, SuperAdmin, Commits)
  {
    var s2 := Step(Step(Waiting(), a), b);
    OnlyServing(Waiting(), Shortfall, 2);
    OnlyServing(s2, Shortfall, 2);
    OnlyServing(Step(s2, c), Shortfall, 1);
  }

  /** A rejection checked before the model is promoted, and committed after: nobody serves. */
  lemma LateRejectionLeavesNone()
    ensures exists s: State, run: seq<Action> ::
              && LegalRun(s, run)
              && Serving(s, Shortfall) != {} && Serving(After(s, run), Shortfall) == {}
  {
    hide Serving, Step, Legal, Waiting;
    var s := Waiting();
    var a, b := Pass(0, Reject(1, SuperAdmin, Commits)), Pass(1, Promote(1, SuperAdmin, Passes, None, 5, Commits));
    var c, d := Commit(1, Some(2)), Commit(0, None);
    BothPass(a, b, c);
    var s3 := Step(Step(Step(s, a), b), c);
    CommitsCounted(s3, d, Shortfall);
    FourSteps(s, a, b, c, d);
  }
}
