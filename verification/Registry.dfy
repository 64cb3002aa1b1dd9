/** The model registry: approval, promotion, rejection and rollback as transactions on one
    table, and the migration statement that thins out duplicate champions. */
module Registry {
  import opened Basics
  import opened Rbac

  type ModelId = nat

  datatype Task = ProductionForecast | Shortfall | EquipmentFailure | Prospectivity | OtherTask(name: string)

  datatype Status = Challenger | Approved | Champion | Retired | Rejected | RolledBack

  datatype Smoke = Untested | SmokeFailed | SmokePassed

  datatype Model = Model(
    task: Task,
    status: Status,
    leakagePassed: bool,
    smoke: Smoke,
    promotedAt: Option<int>,
    rollbackOf: Option<ModelId>)

  type Models = map<ModelId, Model>

  datatype Action = DidApprove | DidPromote | DidReject | DidRollBack

  /** A row of the approvals table. */
  datatype Entry = Entry(id: ModelId, action: Action, role: Role)

  datatype Tables = Tables(models: Models, log: seq<Entry>)

  /** The checks between reading a row and opening the transaction. */
  datatype Gate = Passes | NoArtifact | ChecksumMismatch | LoadFails | SmokeFails | ReloadFails

  /** How the transaction ends: an aborting audit insert leaves the endpoint none the wiser. */
  datatype Ending = Commits | Raises | AuditAborts

  /** `first`: the first row the database returned for the task's champions, in whatever order. */
  datatype Call =
    | Insert(id: ModelId, task: Task, leakagePassed: bool)
    | Approve(id: ModelId, role: Role, ending: Ending)
    | Promote(id: ModelId, role: Role, gate: Gate, first: Option<ModelId>, now: int, ending: Ending)
    | Reject(id: ModelId, role: Role, ending: Ending)
    | Rollback(id: ModelId, role: Role, gate: Gate, first: Option<ModelId>, now: int, ending: Ending)

  datatype Reply = Done | NotFound | Unprocessable | Forbidden | ServerError

  predicate MayReview(r: Role) {
    r.SuperAdmin? || r.ProductionAdmin? || r.ExplorationAdmin? || r.EquipmentAdmin?
  }

  predicate MayGovern(r: Role, t: Task) {
    r.SuperAdmin? ||
    match t
    case ProductionForecast => r.ProductionAdmin?
    case Shortfall => r.ProductionAdmin?
    case EquipmentFailure => r.EquipmentAdmin?
    case Prospectivity => r.ExplorationAdmin?
    case OtherTask(_) => false
  }

  // ---------------------------------------------------------------- what a call does

  function Champions(models: Models, task: Task): set<ModelId> {
    set id | id in models && models[id].task == task && models[id].status == Champion
  }

  predicate IsFirst(rows: set<ModelId>, first: Option<ModelId>) {
    match first
    case None => rows == {}
    case Some(id) => id in rows
  }

  /** The champion query saw the table as it was. */
  predicate Legal(t: Tables, c: Call) {
    (c.Promote? || c.Rollback?) && c.id in t.models ==> IsFirst(Champions(t.models, t.models[c.id].task), c.first)
  }

  function WithStatus(models: Models, id: ModelId, s: Status): Models
    requires id in models
  {
    models[id := models[id].(status := s)]
  }

  function Ended(before: Tables, after: Tables, ending: Ending): (Tables, Reply) {
    match ending
    case Commits => (after, Done)
    case Raises => (before, ServerError)
    case AuditAborts => (before, Done)
  }

  function Promoted(t: Tables, c: Call): Tables
    requires c.Promote? && c.id in t.models && Legal(t, c)
  {
    var rest := if c.first.Some? then WithStatus(t.models, c.first.value, Retired) else t.models;
    Tables(
      rest[c.id := rest[c.id].(status := Champion, promotedAt := Some(c.now), smoke := SmokePassed)],
      t.log + [Entry(c.id, DidPromote, c.role)])
  }

  /** An id of zero counts as no champion. */
  function Restored(t: Tables, c: Call): Tables
    requires c.Rollback? && c.id in t.models && Legal(t, c)
  {
    var rest := if c.first.Some? &&
      c.first.value != 0 then WithStatus(t.models, c.first.value, RolledBack) else t.models;
    Tables(
      rest[c.id := rest[c.id].(status := Champion, promotedAt := Some(c.now), rollbackOf := c.first)],
      t.log + [Entry(c.id, DidRollBack, c.role)])
  }

  function Step(t: Tables, c: Call): (Tables, Reply)
    requires Legal(t, c)
  {
    if c.Insert? then
      if c.id in t.models then (t, ServerError)
      else (t.(models := t.models[c.id := Model(c.task, Challenger, c.leakagePassed, Untested, None, None)]), Done)
    else if !MayReview(c.role) || (c.Rollback? && !c.role.SuperAdmin?) then (t, Forbidden)
    else if c.id !in t.models then (t, NotFound)
    else
      var m := t.models[c.id];
      match c
      case Approve(id, role, ending) =>
        if m.status != Challenger || !m.leakagePassed then (t, Unprocessable)
        else if !MayGovern(role, m.task) then (t, Forbidden)
        else Ended(t, Tables(WithStatus(t.models, id, Approved), t.log + [Entry(id, DidApprove, role)]), ending)
      case Promote(id, role, gate, _, _, ending) =>
        if m.status != Approved then (t, Unprocessable)
        else if !MayGovern(role, m.task) then (t, Forbidden)
        else if gate == SmokeFails then (t.(models := t.models[id := m.(smoke := SmokeFailed)]), Unprocessable)
        else if gate == ReloadFails then (t, ServerError)
        else if gate != Passes then (t, Unprocessable)
        else Ended(t, Promoted(t, c), ending)
      case Reject(id, role, ending) =>
        if m.status == Champion then (t, Unprocessable)
        else Ended(t, Tables(WithStatus(t.models, id, Rejected), t.log + [Entry(id, DidReject, role)]), ending)
      case Rollback(id, _, gate, _, _, ending) =>
        if gate == LoadFails || gate == ReloadFails then (t, ServerError)
        else if gate != Passes then (t, Unprocessable)
        else Ended(t, Restored(t, c), ending)
  }

  predicate LegalRun(start: Tables, calls: seq<Call>)
    decreases |calls|, 0
  {
    calls == [] ||
    (LegalRun(start, calls[..|calls| - 1]) && Legal(Run(start, calls[..|calls| - 1]), calls[|calls| - 1]))
  }

  function Run(start: Tables, calls: seq<Call>): Tables
    requires LegalRun(start, calls)
    decreases |calls|, 1
  {
    if calls == [] then start else Step(Run(start, calls[..|calls| - 1]), calls[|calls| - 1]).0
  }

  // ---------------------------------------------------------------- who may do what

  /** Super admins govern every task; each other admin only the tasks of one domain. */
  predicate Domain(role: Role, task: Task) {
    || role == SuperAdmin
    || (role == ProductionAdmin && (task == ProductionForecast || task == Shortfall))
    || (role == EquipmentAdmin && task == EquipmentFailure)
    || (role == ExplorationAdmin && task == Prospectivity)
  }

  predicate Admin(role: Role) {
    role in {SuperAdmin, ProductionAdmin, ExplorationAdmin, EquipmentAdmin}
  }

  /** Training adds a challenger that carries the result of its leakage audit; an id never twice. */
  lemma InsertIff(t: Tables, id: ModelId, task: Task, passed: bool)
    ensures var (after, r) := Step(t, Insert(id, task, passed));
            && (r == ServerError <==> id in t.models) && (r == Done <==> id !in t.models) && after.log == t.log
            && after.models == if id in t.models then t.models
               else t.models[id := Model(task, Challenger, passed, Untested, None, None)]
  {
  }

  predicate Audited(t: Tables, id: ModelId) {
    id in t.models && t.models[id].status == Challenger && t.models[id].leakagePassed
  }

  /** An approval goes through exactly for an audited challenger and a reviewer of its domain, and
      then makes it approved, adds its row to the approvals table, and that is all. */
  lemma ApproveIff(t: Tables, id: ModelId, role: Role)
    ensures var (after, r) := Step(t, Approve(id, role, Commits));
            var outsider := Audited(t, id) && !Domain(role, t.models[id].task);
            && (r == Done <==> Audited(t, id) && Domain(role, t.models[id].task))
            && (r == Forbidden <==> !Admin(role) || outsider)
            && (r == NotFound <==> Admin(role) && id !in t.models)
            && (r == Unprocessable <==> Admin(role) && id in t.models && !Audited(t, id))
            && (if r == Done then
                  && after.models == t.models[id := t.models[id].(status := Approved)]
                  && after.log == t.log + [Entry(id, DidApprove, role)]
                else after == t)
  {
  }

  /** A promotion that passes its gate goes through exactly for an approved model and a reviewer of
      its domain: it becomes champion now, smoke tested, in place of the one there was. */
  lemma PromoteIff(t: Tables, c: Call)
    requires c.Promote? && c.ending == Commits && Legal(t, c)
    ensures var (after, r) := Step(t, c);
            var approved := c.id in t.models && t.models[c.id].status == Approved;
            var eligible := approved && Domain(c.role, t.models[c.id].task);
            var fails := eligible && c.gate != Passes && c.gate != ReloadFails;
            && (r == Done <==> eligible && c.gate == Passes)
            && (r == ServerError <==> eligible && c.gate == ReloadFails)
            && (r == Forbidden <==> !Admin(c.role) || (approved && !eligible))
            && (r == NotFound <==> Admin(c.role) && c.id !in t.models)
            && (r == Unprocessable <==> Admin(c.role) && c.id in t.models && (!approved || fails))
            && (if r == Done then
                  && after.log == t.log + [Entry(c.id, DidPromote, c.role)]
                  && after.models == map i | i in t.models ::
                       var m := t.models[i];
                       if i == c.id then m.(status := Champion, promotedAt := Some(c.now), smoke := SmokePassed)
                       else if c.first == Some(i) then m.(status := Retired)
                       else m
                else if eligible && c.gate == SmokeFails then
                  after == t.(models := t.models[c.id := t.models[c.id].(smoke := SmokeFailed)])
                else after == t)
  {
  }

  /** Any admin may reject what is not champion; nobody a champion. */
  lemma RejectIff(t: Tables, id: ModelId, role: Role)
    ensures var (after, r) := Step(t, Reject(id, role, Commits));
            && (r == Forbidden <==> !Admin(role))
            && (r == NotFound <==> Admin(role) && id !in t.models)
            && (r == Unprocessable <==> Admin(role) && id in t.models && t.models[id].status == Champion)
            && (r == Done <==> Admin(role) && id in t.models && t.models[id].status != Champion)
            && (if r == Done then
                  && after.models == t.models[id := t.models[id].(status := Rejected)]
                  && after.log == t.log + [Entry(id, DidReject, role)]
                else after == t)
  {
  }

  /** A rollback is for super admins, to any model, whatever its status; it names the champion it
      deposed, which is marked rolled back unless its id is 0. */
  lemma RollbackIff(t: Tables, c: Call)
    requires c.Rollback? && c.ending == Commits && Legal(t, c)
    ensures var (after, r) := Step(t, c);
            var eligible := c.role == SuperAdmin && c.id in t.models;
            && (r == Done <==> eligible && c.gate == Passes)
            && (r == ServerError <==> eligible && (c.gate == ReloadFails || c.gate == LoadFails))
            && (r == Forbidden <==> c.role != SuperAdmin)
            && (r == NotFound <==> c.role == SuperAdmin && c.id !in t.models)
            && (if r == Done then
                  && after.log == t.log + [Entry(c.id, DidRollBack, c.role)]
                  && after.models == map i | i in t.models ::
                       var m := t.models[i];
                       if i == c.id then m.(status := Champion, promotedAt := Some(c.now), rollbackOf := c.first)
                       else if c.first == Some(i) && i != 0 then m.(status := RolledBack)
                       else m
                else after == t)
  {
  }

  /** A transaction that does not commit leaves the tables alone; one aborted unnoticed by its audit
      row still answers as if it had committed. */
  lemma UncommittedIff(t: Tables, c: Call, committing: Call)
    requires !c.Insert? && Legal(t, c) && c.ending != Commits
    requires committing == match c
             case Approve(id, role, _) => Approve(id, role, Commits)
             case Promote(id, role, gate, first, now, _) => Promote(id, role, gate, first, now, Commits)
             case Reject(id, role, _) => Reject(id, role, Commits)
             case Rollback(id, role, gate, first, now, _) => Rollback(id, role, gate, first, now, Commits)
    requires Step(t, committing).1 == Done
    ensures Step(t, c) == (t, if c.ending == AuditAborts then Done else ServerError)
  {
  }

  // ---------------------------------------------------------------- one champion, never none

  /** The champions of every task after a call: a promotion or rollback swaps the first one
      for the target, except that a rollback lets a champion with id 0 stay. */
  function ExpectedChampions(t: Tables, c: Call, task: Task): set<ModelId>
    requires Legal(t, c)
  {
    var before := Champions(t.models, task);
    if Step(t, c).0.log == t.log || !(c.Promote? || c.Rollback?) || t.models[c.id].task != task then before
    else if c.first.Some? && !(c.Rollback? && c.first.value == 0) then before - {c.first.value} + {c.id}
    else before + {c.id}
  }

  lemma PromoteChampions(t: Tables, c: Call, task: Task)
    requires c.Promote? && c.id in t.models && Legal(t, c) && t.models[c.id].status == Approved
    ensures Champions(Promoted(t, c).models, task) ==
            if t.models[c.id].task != task then Champions(t.models, task)
            else if c.first.Some? then Champions(t.models, task) - {c.first.value} + {c.id}
            else Champions(t.models, task) + {c.id}
  {
  }

  lemma RollbackChampions(t: Tables, c: Call, task: Task)
    requires c.Rollback? && c.id in t.models && Legal(t, c)
    ensures Champions(Restored(t, c).models, task) ==
            if t.models[c.id].task != task then Champions(t.models, task)
            else if c.first.Some? && c.first.value != 0 then Champions(t.models, task) - {c.first.value} + {c.id}
            else Champions(t.models, task) + {c.id}
  {
  }

  /** The other calls change no champion's row and make none. */
  lemma UntouchedChampions(t: Tables, c: Call, task: Task)
    requires Legal(t, c) && !((c.Promote? || c.Rollback?) && Step(t, c).0.log != t.log)
    ensures Champions(Step(t, c).0.models, task) == Champions(t.models, task)
  {
    hide MayGovern, MayReview, IsFirst;
  }

  lemma StepChampions(t: Tables, c: Call, task: Task)
    requires Legal(t, c)
    ensures Champions(Step(t, c).0.models, task) == ExpectedChampions(t, c, task)
  {
    hide MayGovern, MayReview, Champions, IsFirst, Promoted, Restored;
    if (c.Promote? || c.Rollback?) && Step(t, c).0.log != t.log {
      if c.Promote? {
        PromoteChampions(t, c, task);
      } else {
        RollbackChampions(t, c, task);
      }
    } else {
      UntouchedChampions(t, c, task);
    }
  }

  /** One call never adds a champion to a task that has one, nor takes away its last. */
  lemma ChampionsCounted(t: Tables, c: Call, task: Task)
    requires Legal(t, c) && 0 !in t.models
    ensures var before, after := |Champions(t.models, task)|, |Champions(Step(t, c).0.models, task)|;
            after <= Max(before, 1) && (before > 0 ==> after > 0)
  {
    StepChampions(t, c, task);
    var before := Champions(t.models, task);
    var after := Champions(Step(t, c).0.models, task);
    hide Step, Champions;
    if after != before {
      if c.first.Some? {
        assert |before - {c.first.value}| == |before| - 1;
        assert c.id in after;
      } else {
        assert before == {};
      }
    }
  }

  /** Exactly when a rollback that goes through leaves two champions behind: the sitting one has
      id 0, which the code takes for no champion. */
  lemma RollbackKeepsOneIff(t: Tables, c: Call)
    requires c.Rollback? && c.id in t.models && Legal(t, c) && Step(t, c).0.log != t.log
    requires |Champions(t.models, t.models[c.id].task)| <= 1
    ensures |Champions(Step(t, c).0.models, t.models[c.id].task)| <= 1 <==> !(c.first == Some(0) && c.id != 0)
  {
    var task := t.models[c.id].task;
    StepChampions(t, c, task);
    OneSwapped(Champions(t.models, task), c.first, c.id);
    hide Champions;
  }

  lemma OneSwapped(rows: set<ModelId>, first: Option<ModelId>, id: ModelId)
    requires |rows| <= 1 && IsFirst(rows, first)
    ensures first.Some? ==> |rows - {first.value} + {id}| <= 1
    ensures |rows + {id}| <= 1 <==> first.None? || first == Some(id)
  {
    if first.Some? {
      assert |rows - {first.value}| == 0;
      assert rows == rows - {first.value} + {first.value} == {first.value};
      if first.value != id {
        assert |{first.value} + {id}| == 2;
      }
    }
  }

  ghost predicate OneChampionEach(t: Tables) {
    forall task: Task :: |Champions(t.models, task)| <= 1
  }

  /** In every run each task has at most one champion, and a task that has one keeps having one. */
  lemma {:induction false} RunKeepsChampions(start: Tables, calls: seq<Call>, task: Task)
    requires LegalRun(start, calls) && 0 !in start.models
    requires forall c :: c in calls ==> c.Insert? ==> c.id != 0
    ensures 0 !in Run(start, calls).models
    ensures |Champions(Run(start, calls).models, task)| <= Max(|Champions(start.models, task)|, 1)
    ensures |Champions(start.models, task)| > 0 ==> |Champions(Run(start, calls).models, task)| > 0
  {
    if calls != [] {
      var c := calls[|calls| - 1];
      var before := Run(start, calls[..|calls| - 1]);
      RunKeepsChampions(start, calls[..|calls| - 1], task);
      ChampionsCounted(before, c, task);
      assert c in calls;
    }
  }

  // ---------------------------------------------------------------- the log explains the table

  function TasksOf(models: Models): map<ModelId, Task> {
    map id | id in models :: models[id].task
  }

  /** What an approvals row says about a model: its own (`self`) or a rival's for the same task. */
  function Effect(action: Action, self: bool, rival: bool, earlier: Status): Status {
    match action
    case DidApprove => if self then Approved else earlier
    case DidReject => if self then Rejected else earlier
    case DidPromote => if self then Champion else if rival && earlier == Champion then Retired else earlier
    case DidRollBack => if self then Champion else if rival && earlier == Champion then RolledBack else earlier
  }

  /** The status of a model as the approvals table alone tells it. */
  function StatusFrom(log: seq<Entry>, tasks: map<ModelId, Task>, id: ModelId): Status {
    if log == [] then Challenger
    else
      var e := log[|log| - 1];
      Effect(e.action, e.id == id, SameTask(tasks, e.id, id), StatusFrom(log[..|log| - 1], tasks, id))
  }

  predicate SameTask(tasks: map<ModelId, Task>, i: ModelId, j: ModelId) {
    i in tasks && j in tasks && tasks[i] == tasks[j]
  }

  predicate Named(log: seq<Entry>, ids: set<ModelId>) {
    forall e :: e in log ==> e.id in ids
  }

  lemma {:induction false} NewModelIsSilent(log: seq<Entry>, tasks: map<ModelId, Task>, newcomer: ModelId,
        task: Task, id: ModelId)
    requires Named(log, tasks.Keys) && newcomer !in tasks
    ensures StatusFrom(log, tasks[newcomer := task], id) == StatusFrom(log, tasks, id)
    ensures id == newcomer ==> StatusFrom(log, tasks, id) == Challenger
  {
    if log != [] {
      NewModelIsSilent(log[..|log| - 1], tasks, newcomer, task, id);
      assert log[|log| - 1] in log;
    }
  }

  ghost predicate Explained(t: Tables) {
    && Named(t.log, t.models.Keys)
    && forall id :: id in t.models ==> t.models[id].status == StatusFrom(t.log, TasksOf(t.models), id)
  }

  lemma EntryAdded(log: seq<Entry>, e: Entry, tasks: map<ModelId, Task>, id: ModelId)
    ensures StatusFrom(log + [e], tasks, id) ==
            Effect(e.action, e.id == id, SameTask(tasks, e.id, id), StatusFrom(log, tasks, id))
  {
    assert (log + [e])[..|log|] == log;
  }

  function EntryOf(c: Call): Entry
    requires !c.Insert?
  {
    Entry(c.id, if c.Approve? then DidApprove else if c.Promote? then DidPromote else if c.Reject? then DidReject
      else DidRollBack, c.role)
  }

  /** What a call that wrote to the log did to every status. */
  lemma StatusesAfter(t: Tables, c: Call, id: ModelId)
    requires Legal(t, c) && 0 !in t.models && OneChampionEach(t) && id in t.models
    requires Step(t, c).0.log != t.log
    ensures !c.Insert? && c.id in t.models && Step(t, c).0.log == t.log + [EntryOf(c)]
    ensures var after := Step(t, c).0.models;
            && after.Keys == t.models.Keys && TasksOf(after) == TasksOf(t.models)
            && after[id].status ==
               Effect(EntryOf(c).action, c.id == id, t.models[c.id].task == t.models[id].task, t.models[id].status)
  {
    hide MayGovern, MayReview;
    var task := t.models[c.id].task;
    if (c.Promote? || c.Rollback?) && t.models[id].status == Champion && t.models[id].task == task {
      OnlyOne(Champions(t.models, task), c.first, id);
    }
  }

  lemma OnlyOne(rows: set<ModelId>, first: Option<ModelId>, id: ModelId)
    requires |rows| <= 1 && IsFirst(rows, first) && id in rows
    ensures first == Some(id)
  {
    assert |rows - {id}| == 0;
  }

  lemma LoggedExplained(t: Tables, c: Call)
    requires Legal(t, c) && 0 !in t.models && OneChampionEach(t) && Explained(t)
    requires Step(t, c).0.log != t.log && c.id in t.models
    ensures Explained(Step(t, c).0)
  {
    var after, tasks := Step(t, c).0, TasksOf(t.models);
    StatusesAfter(t, c, c.id);
    forall id | id in t.models
      ensures after.models[id].status == StatusFrom(after.log, tasks, id)
    {
      StatusesAfter(t, c, id);
      EntryAdded(t.log, EntryOf(c), tasks, id);
      hide Step, Legal, OneChampionEach, StatusFrom, Effect;
    }
    hide Step, Legal, OneChampionEach, StatusFrom, Effect, TasksOf;
  }

  lemma InsertExplained(t: Tables, id: ModelId, m: Model)
    requires Explained(t) && id !in t.models && m.status == Challenger
    ensures Explained(t.(models := t.models[id := m]))
  {
    var after := t.(models := t.models[id := m]);
    var tasks := TasksOf(t.models);
    assert TasksOf(after.models) == tasks[id := m.task];
    forall i | i in after.models
      ensures after.models[i].status == StatusFrom(t.log, TasksOf(after.models), i)
    {
      NewModelIsSilent(t.log, tasks, id, m.task, i);
    }
  }

  lemma SameStatusesExplained(t: Tables, after: Tables)
    requires Explained(t) && after.log == t.log && after.models.Keys == t.models.Keys
    requires forall id :: id in t.models ==>
               after.models[id].task == t.models[id].task && after.models[id].status == t.models[id].status
    ensures Explained(after)
  {
    assert TasksOf(after.models) == TasksOf(t.models);
  }

  lemma StepExplained(t: Tables, c: Call)
    requires Legal(t, c) && 0 !in t.models && OneChampionEach(t) && Explained(t)
    ensures Explained(Step(t, c).0)
  {
    hide Explained, MayGovern, MayReview, Champions, IsFirst, OneChampionEach;
    var after := Step(t, c).0;
    if after.log != t.log {
      LoggedExplained(t, c);
    } else if c.Insert? && c.id !in t.models {
      InsertExplained(t, c.id, Model(c.task, Challenger, c.leakagePassed, Untested, None, None));
    } else {
      SameStatusesExplained(t, after);
    }
  }

  function EmptyTables(): Tables {
    Tables(map[], [])
  }

  /** Over every run from a registry whose approvals table explains it - an empty one does - the
      table, replayed, gives the status of every model, including those demoted without an entry
      of their own. */
  lemma {:induction false} LogExplainsStatus(start: Tables, calls: seq<Call>)
    requires LegalRun(start, calls) && OneChampionEach(start) && Explained(start) && 0 !in start.models
    requires forall c :: c in calls ==> c.Insert? ==> c.id != 0
    ensures Explained(Run(start, calls))
  {
    if calls != [] {
      var prefix := calls[..|calls| - 1];
      LogExplainsStatus(start, prefix);
      RunKeepsChampions(start, prefix, Shortfall);
      forall task: Task
        ensures |Champions(Run(start, prefix).models, task)| <= 1
      {
        RunKeepsChampions(start, prefix, task);
        assert |Champions(start.models, task)| <= 1;
      }
      StepExplained(Run(start, prefix), calls[|calls| - 1]);
    }
  }

  lemma EmptyIsExplained()
    ensures OneChampionEach(EmptyTables()) && Explained(EmptyTables()) && 0 !in EmptyTables().models
  {
    forall task: Task
      ensures |Champions(EmptyTables().models, task)| <= 1
    {
      assert Champions(EmptyTables().models, task) == {};
    }
  }

  // ---------------------------------------------------------------- how a model got to serve

  predicate Has(log: seq<Entry>, id: ModelId, action: Action) {
    exists e :: e in log && e.id == id && e.action == action
  }

  predicate ApprovedByDomain(log: seq<Entry>, id: ModelId, task: Task) {
    exists e :: e in log && e.id == id && e.action == DidApprove && Domain(e.role, task)
  }

  predicate Vetted(t: Tables, id: ModelId)
    requires id in t.models
  {
    t.models[id].leakagePassed && ApprovedByDomain(t.log, id, t.models[id].task)
  }

  /** Either a super admin restored it, or it was vetted - and smoke tested, once it served. */
  ghost predicate Earned(t: Tables, id: ModelId)
    requires id in t.models
  {
    Has(t.log, id, DidRollBack) ||
    match t.models[id].status
    case Challenger => true
    case Rejected => true
    case Approved => Vetted(t, id)
    case _ => Vetted(t, id) && Has(t.log, id, DidPromote) && t.models[id].smoke == SmokePassed
  }

  lemma LogGrows(t: Tables, after: Tables, e: Entry, id: ModelId)
    requires id in t.models && id in after.models && after.log == t.log + [e]
    requires t.models[id].task == after.models[id].task && t.models[id].leakagePassed == after.models[id].leakagePassed
    ensures Vetted(t, id) ==> Vetted(after, id)
    ensures forall a :: Has(t.log, id, a) ==> Has(after.log, id, a)
    ensures e.id == id ==> Has(after.log, id, e.action)
  {
    assert forall x :: x in t.log ==> x in after.log;
    assert e in after.log;
  }

  /** Restored models aside, nothing is approved, champion, retired or rolled back that did not
      pass the leakage audit and a reviewer of its domain - in every step, hence every run. */
  lemma StepKeepsEarned(t: Tables, c: Call)
    requires Legal(t, c) && forall id :: id in t.models ==> Earned(t, id)
    requires Named(t.log, t.models.Keys)
    ensures forall id :: id in Step(t, c).0.models ==> Earned(Step(t, c).0, id)
  {
    var after := Step(t, c).0;
    forall id | id in after.models
      ensures Earned(after, id)
    {
      if id in t.models {
        assert Earned(t, id);
        if after.log != t.log {
          LogGrows(t, after, EntryOf(c), id);
          if c.Approve? && c.id == id {
            assert EntryOf(c) in after.log && Domain(c.role, t.models[id].task);
          }
        }
        hide Has, ApprovedByDomain, MayGovern, MayReview, Champions;
      }
    }
  }

  lemma StepKeepsNamed(t: Tables, c: Call)
    requires Legal(t, c) && Named(t.log, t.models.Keys)
    ensures Named(Step(t, c).0.log, Step(t, c).0.models.Keys)
  {
    hide MayGovern, MayReview, Champions;
  }

  ghost predicate AllEarned(t: Tables) {
    Named(t.log, t.models.Keys) && forall id :: id in t.models ==> Earned(t, id)
  }

  /** So in every run from any registry of which it holds, whatever audit results come in. */
  lemma {:induction false} RunKeepsEarned(start: Tables, calls: seq<Call>)
    requires LegalRun(start, calls) && AllEarned(start)
    ensures AllEarned(Run(start, calls))
  {
    if calls != [] {
      var prefix := calls[..|calls| - 1];
      RunKeepsEarned(start, prefix);
      StepKeepsNamed(Run(start, prefix), calls[|calls| - 1]);
      StepKeepsEarned(Run(start, prefix), calls[|calls| - 1]);
    }
  }

  /** Call `i` of the run made the model champion, and this is its row since. */
  ghost predicate Crowned(start: Tables, calls: seq<Call>, i: nat, id: ModelId, m: Model) {
    && i < |calls| && LegalRun(start, calls[..i]) && LegalRun(start, calls[..i + 1])
    && var c := calls[i];
    && (c.Promote? || c.Rollback?) && c.id == id && c.gate == Passes && c.ending == Commits
    && m.promotedAt == Some(c.now) && (c.Promote? ==> m.smoke == SmokePassed && Domain(c.role, m.task))
    && (c.Rollback? ==> m.rollbackOf == c.first && c.role == SuperAdmin)
    && IsFirst(Champions(Run(start, calls[..i]).models, m.task), c.first)
  }

  lemma CrownedEarlier(start: Tables, calls: seq<Call>, i: nat, id: ModelId, m: Model)
    requires calls != [] && Crowned(start, calls[..|calls| - 1], i, id, m)
    ensures Crowned(start, calls, i, id, m)
  {
    assert calls[..|calls| - 1][..i] == calls[..i] && calls[..|calls| - 1][..i + 1] == calls[..i + 1];
  }

  /** A call leaves the row of a champion alone, unless it crowns the model itself. */
  lemma ChampionsRow(t: Tables, c: Call, id: ModelId)
    requires Legal(t, c) && id in Step(t, c).0.models && Step(t, c).0.models[id].status == Champion
    ensures var m := Step(t, c).0.models[id];
            || (id in t.models && t.models[id] == m)
            || ((c.Promote? || c.Rollback?) && c.id == id && c.gate == Passes && c.ending == Commits && id in t.models
                && t.models[id].task == m.task
                && m.promotedAt == Some(c.now) && (c.Promote? ==> m.smoke == SmokePassed && Domain(c.role, m.task))
                && (c.Rollback? ==> m.rollbackOf == c.first && c.role == SuperAdmin))
  {
    hide IsFirst, Champions;
  }

  /** Over every run a champion that was none at the start was made one by a call that went
      through, and its row tells when, and in a rollback whom it replaced. */
  lemma {:induction false} ChampionWasCrowned(start: Tables, calls: seq<Call>, id: ModelId) returns (i: nat)
    requires LegalRun(start, calls)
    requires id in Run(start, calls).models && Run(start, calls).models[id].status == Champion
    requires id in start.models ==> start.models[id].status != Champion
    ensures Crowned(start, calls, i, id, Run(start, calls).models[id])
  {
    var last := |calls| - 1;
    var t := Run(start, calls[..last]);
    ChampionsRow(t, calls[last], id);
    hide Step;
    if id in t.models && t.models[id] == Run(start, calls).models[id] {
      i := ChampionWasCrowned(start, calls[..last], id);
      CrownedEarlier(start, calls, i, id, t.models[id]);
    } else {
      i := last;
      assert calls[..last + 1] == calls;
    }
  }

  // ---------------------------------------------------------------- the migration

  /** (promoted_at, id) of `n` is above that of `m`; a NULL compares with nothing. */
  predicate Newer(models: Models, n: ModelId, m: ModelId)
    requires n in models && m in models
  {
    var x, y := models[n].promotedAt, models[m].promotedAt;
    x.Some? && y.Some? && (x.value > y.value || (x.value == y.value && n > m))
  }

  predicate Superseded(models: Models, m: ModelId)
    requires m in models
  {
    models[m].status == Champion &&
    exists n :: n in models && models[n].task == models[m].task && models[n].status == Champion && Newer(models, n, m)
  }

  function Deduplicated(models: Models): Models {
    map m | m in models :: if Superseded(models, m) then models[m].(status := Retired) else models[m]
  }

  function Undated(models: Models, task: Task): set<ModelId> {
    set id | id in Champions(models, task) && models[id].promotedAt.None?
  }

  function Dated(models: Models, task: Task): set<ModelId> {
    set id | id in Champions(models, task) && models[id].promotedAt.Some?
  }

  /** The lexicographic maximum of (promoted_at, id). */
  ghost predicate IsNewest(models: Models, rows: set<ModelId>, n: ModelId) {
    n in rows && rows <= models.Keys && forall m :: m in rows && m != n ==> Newer(models, n, m)
  }

  lemma {:induction false} NewestExists(models: Models, rows: set<ModelId>) returns (n: ModelId)
    requires rows != {} && rows <= models.Keys
    requires forall id :: id in rows ==> models[id].promotedAt.Some?
    ensures IsNewest(models, rows, n)
  {
    n :| n in rows;
    if rows != {n} {
      var rest := rows - {n};
      assert rest != {} by {
        assert rows == rest + {n};
      }
      var other := NewestExists(models, rest);
      assert forall m :: m in rows ==> m == n || m in rest;
      if Newer(models, other, n) {
        n := other;
      }
    }
  }

  lemma Survives(models: Models, task: Task, m: ModelId)
    ensures m in Champions(Deduplicated(models), task) <==> m in Champions(models, task) && !Superseded(models, m)
  {
  }

  /** The migration keeps, for each task, the lexicographic maximum of (promoted_at, id) among
      the champions that have a date, and every champion that has none. */
  lemma DeduplicationKeeps(models: Models, task: Task) returns (n: ModelId)
    ensures Dated(models, task) == {} ==> Champions(Deduplicated(models), task) == Undated(models, task)
    ensures Dated(models, task) != {} ==>
              && IsNewest(models, Dated(models, task), n)
              && Champions(Deduplicated(models), task) == Undated(models, task) + {n}
  {
    var undated, dated := Undated(models, task), Dated(models, task);
    n := 0;
    if dated != {} {
      n := NewestExists(models, dated);
    }
    forall m
      ensures m in Champions(Deduplicated(models), task) <==> m in undated || (dated != {} && m == n)
    {
      Survives(models, task, m);
      hide Deduplicated;
      if m in dated {
        if m != n {
          assert Newer(models, n, m);
        } else {
          assert forall k ::
            k in models && models[k].task == task && models[k].status == Champion && Newer(models, k, n) ==> k in dated;
        }
      }
    }
  }

  /** Row by row: a dated champion that is not the newest of its task is retired, all else in its row and
      every other row is left as it was. */
  lemma DeduplicationRetires(models: Models, m: ModelId)
    requires m in models
    ensures Deduplicated(models).Keys == models.Keys
    ensures var rivals := Dated(models, models[m].task);
            Deduplicated(models)[m] ==
            if m in rivals && !IsNewest(models, rivals, m) then models[m].(status := Retired) else models[m]
  {
    var rivals := Dated(models, models[m].task);
    if m in rivals && !IsNewest(models, rivals, m) {
      var n :| n in rivals && n != m && !Newer(models, m, n);
      assert n in models && models[n].task == models[m].task && models[n].status == Champion && Newer(models, n, m);
      assert Superseded(models, m);
    } else if m in rivals {
      assert forall n :: n in rivals && n != m ==> !Newer(models, n, m);
      assert !Superseded(models, m);
    }
  }

  /** It establishes one champion per task - what the unique index then demands - exactly when
      no undated champion has company; it never leaves a task without its champion. */
  lemma DeduplicationSuffices(models: Models, task: Task)
    ensures |Champions(Deduplicated(models), task)| <= 1 <==>
            Undated(models, task) == {} || (|Undated(models, task)| == 1 && Dated(models, task) == {})
    ensures Champions(models, task) != {} ==> Champions(Deduplicated(models), task) != {}
  {
    var n := DeduplicationKeeps(models, task);
    var undated, dated := Undated(models, task), Dated(models, task);
    assert Champions(models, task) == undated + dated;
    assert n in dated ==> n !in undated;
    hide Deduplicated, Undated, Dated, Champions;
    if undated == {} {
      assert dated != {} ==> undated + {n} == {n};
    } else if dated != {} {
      assert |undated + {n}| == |undated| + 1;
    }
  }

  // ---------------------------------------------------------------- the code

  class ModelRegistry {
    var models: Models
    var log: seq<Entry>

    ghost function Contents(): Tables
      reads this
    {
      Tables(models, log)
    }

    constructor ()
      ensures Contents() == EmptyTables()
    {
      models, log := map[], [];
    }

    /** SELECT ... WHERE task AND status = 'champion': the first row, if there is one. */
    method CurrentChampion(task: Task) returns (first: Option<ModelId>)
      ensures IsFirst(Champions(models, task), first)
    {
      var rows := Champions(models, task);
      if rows == {} {
        return None;
      }
      var id :| id in rows;
      return Some(id);
    }

    method FinishTransaction(newModels: Models, entry: Entry, ending: Ending) returns (r: Reply)
      modifies this
      ensures (Contents(), r) == Ended(old(Contents()), Tables(newModels, old(log) + [entry]), ending)
    {
      if ending == Raises {
        return ServerError;
      }
      if ending == Commits {
        models, log := newModels, log + [entry];
      }
      return Done;
    }

    method ApproveModel(id: ModelId, role: Role, ending: Ending) returns (r: Reply)
      modifies this
      ensures (Contents(), r) == Step(old(Contents()), Approve(id, role, ending))
    {
      if !MayReview(role) {
        return Forbidden;
      }
      if id !in models {
        return NotFound;
      }
      var m := models[id];
      if m.status != Challenger {
        return Unprocessable;
      }
      if !m.leakagePassed {
        return Unprocessable;
      }
      if !MayGovern(role, m.task) {
        return Forbidden;
      }
      r := FinishTransaction(models[id := m.(status := Approved)], Entry(id, DidApprove, role), ending);
    }

    /** `first` is what the champion query inside the transaction answered. */
    method PromoteModel(id: ModelId, role: Role, gate: Gate, now: int, ending: Ending)
          returns (r: Reply, ghost first: Option<ModelId>)
      modifies this
      ensures Legal(old(Contents()), Promote(id, role, gate, first, now, ending))
      ensures (Contents(), r) == Step(old(Contents()), Promote(id, role, gate, first, now, ending))
    {
      hide MayGovern, MayReview;
      if id !in models {
        first := None;
        r := if MayReview(role) then NotFound else Forbidden;
        return;
      }
      var target := models[id];
      var current := CurrentChampion(target.task);
      first := current;
      hide Champions;
      if !MayReview(role) {
        r := Forbidden;
      } else if target.status != Approved {
        r := Unprocessable;
      } else if !MayGovern(role, target.task) {
        r := Forbidden;
      } else {
        match gate {
          case NoArtifact => r := Unprocessable;
          case ChecksumMismatch => r := Unprocessable;
          case LoadFails => r := Unprocessable;
          case SmokeFails =>
            models := models[id := target.(smoke := SmokeFailed)];
            r := Unprocessable;
          case ReloadFails => r := ServerError;
          case Passes =>
            var tx := models;
            assert current.Some? ==> current.value in models by {
              ChampionsAreRows(models, target.task);
            }
            if current.Some? {
              tx := tx[current.value := tx[current.value].(status := Retired)];
            }
            tx := tx[id := tx[id].(status := Champion, promotedAt := Some(now), smoke := SmokePassed)];
            r := FinishTransaction(tx, Entry(id, DidPromote, role), ending);
        }
      }
    }

    method RejectModel(id: ModelId, role: Role, ending: Ending) returns (r: Reply)
      modifies this
      ensures (Contents(), r) == Step(old(Contents()), Reject(id, role, ending))
    {
      if !MayReview(role) {
        return Forbidden;
      }
      if id !in models {
        return NotFound;
      }
      if models[id].status == Champion {
        return Unprocessable;
      }
      r := FinishTransaction(models[id := models[id].(status := Rejected)], Entry(id, DidReject, role), ending);
    }

    method RollbackModel(id: ModelId, role: Role, gate: Gate, now: int, ending: Ending)
          returns (r: Reply, ghost first: Option<ModelId>)
      modifies this
      ensures Legal(old(Contents()), Rollback(id, role, gate, first, now, ending))
      ensures (Contents(), r) == Step(old(Contents()), Rollback(id, role, gate, first, now, ending))
    {
      hide MayGovern;
      if id !in models {
        first := None;
        r := if role.SuperAdmin? then NotFound else Forbidden;
        return;
      }
      var target := models[id];
      var current := CurrentChampion(target.task);
      first := current;
      hide Champions;
      if !role.SuperAdmin? {
        r := Forbidden;
      } else {
        match gate {
          case NoArtifact => r := Unprocessable;
          case ChecksumMismatch => r := Unprocessable;
          case LoadFails => r := ServerError;
          case SmokeFails => r := Unprocessable;
          case ReloadFails => r := ServerError;
          case Passes =>
            var tx := models;
            assert current.Some? ==> current.value in models by {
              ChampionsAreRows(models, target.task);
            }
            if current.Some? && current.value != 0 {
              tx := tx[current.value := tx[current.value].(status := RolledBack)];
            }
            tx := tx[id := tx[id].(status := Champion, rollbackOf := current, promotedAt := Some(now))];
            r := FinishTransaction(tx, Entry(id, DidRollBack, role), ending);
        }
      }
    }

    method InsertChallenger(id: ModelId, task: Task) returns (r: Reply)
      modifies this
      ensures (Contents(), r) == Step(old(Contents()), Insert(id, task, true))
    {
      if id in models {
        return ServerError;
      }
      models := models[id := Model(task, Challenger, true, Untested, None, None)];
      return Done;
    }

    /** One UPDATE: every row is judged against the table as the statement found it. */
    method Deduplicate()
      modifies this`models
      ensures models == Deduplicated(old(models))
    {
      var snapshot, todo := models, models.Keys;
      while todo != {}
        invariant todo <= snapshot.Keys && models.Keys == snapshot.Keys
        invariant forall m :: m in snapshot ==>
          models[m] == if m in todo then snapshot[m] else Deduplicated(snapshot)[m]
        decreases todo
      {
        var m :| m in todo;
        todo := todo - {m};
        if Superseded(snapshot, m) {
          models := models[m := snapshot[m].(status := Retired)];
        }
      }
    }
  }

  lemma ChampionsAreRows(models: Models, task: Task)
    ensures Champions(models, task) <= models.Keys
  {
  }
}
