/** Response plans and their audit trail. Every call is one transaction that either commits
    all its statements or none; the adversary picks the calls and which statement fails. */
module DecisionStore {
  import opened Basics
  import opened Lifecycle

  type PlanId = nat

  // ---------------------------------------------------------------- tables

  /** `ref` is the number printed in the plan reference. */
  datatype Plan = Plan(ref: nat, state: State, incident: Option<int>)

  datatype Decision = Approved | Rejected | Modified

  datatype Approval = Approval(plan: PlanId, decision: Decision, actor: string)

  datatype AuditEvent = Created(actions: nat) | Moved(source: State, target: State, modified: bool)

  /** Audit rows name a plan by its reference, not by its id. */
  datatype Audit = Audit(ref: nat, event: AuditEvent, actor: string)

  datatype ActionRow = ActionRow(plan: PlanId, position: nat, title: string)

  datatype IncidentKind =
    | PlanGenerated | PlanApproved | PlanRejected | ActionStarted | ActionCompleted | OutcomeRecorded

  datatype IncidentEvent = IncidentEvent(incident: int, kind: IncidentKind, actor: string)

  datatype Tables = Tables(
    plans: map<PlanId, Plan>,
    actions: seq<ActionRow>,
    approvals: seq<Approval>,
    audit: seq<Audit>,
    events: seq<IncidentEvent>)

  /** The id sequence lives outside the transaction: a rolled-back insert still uses up an id. */
  datatype Database = Database(tables: Tables, nextId: nat)

  function EmptyDatabase(): Database {
    Database(Tables(map[], [], [], [], []), 1)
  }

  datatype Result =
    | PlanCreated(id: PlanId, ref: nat)
    | PlanMoved(source: State, target: State)
    | Refused(current: Option<State>)
    | Failed

  /** `fault`: the number of the statement that raises, if any; COMMIT is the last. */
  datatype Call =
    | Create(titles: seq<string>, incident: Option<int>, actor: string, fault: Option<nat>)
    | Move(id: PlanId, target: State, modified: bool, actor: string, fault: Option<nat>)

  // ---------------------------------------------------------------- what a call does

  lemma {:induction false} MaxExists(ids: set<nat>)
    requires ids != {}
    ensures exists m :: m in ids && forall i :: i in ids ==> i <= m
  {
    var x :| x in ids;
    if ids == {x} {
    } else {
      MaxExists(ids - {x});
      var m :| m in ids - {x} && forall i :: i in ids - {x} ==> i <= m;
      assert forall i :: i in ids ==> i == x || i in ids - {x};
      if m < x {
        assert x in ids && forall i :: i in ids ==> i <= x;
      } else {
        assert m in ids && forall i :: i in ids ==> i <= m;
      }
    }
  }

  /** COALESCE(MAX(id), 0) */
  function MaxId(ids: set<nat>): (m: nat)
    ensures forall i :: i in ids ==> i <= m
    ensures m in ids || (ids == {} && m == 0)
  {
    if ids == {} then 0
    else
      MaxExists(ids);
      var m :| m in ids && forall i :: i in ids ==> i <= m;
      m
  }

  function ActionRows(id: PlanId, titles: seq<string>): (rows: seq<ActionRow>)
    ensures |rows| == |titles|
    ensures forall i :: 0 <= i < |rows| ==> rows[i] == ActionRow(id, i + 1, titles[i])
  {
    if titles == [] then []
    else ActionRows(id, titles[..|titles| - 1]) + [ActionRow(id, |titles|, titles[|titles| - 1])]
  }

  function Inserted(t: Tables, id: PlanId, c: Call): Tables
    requires c.Create?
  {
    var ref := MaxId(t.plans.Keys) + 1;
    Tables(
      t.plans[id := Plan(ref, SIMULATED, c.incident)],
      t.actions + ActionRows(id, c.titles),
      t.approvals,
      t.audit + [Audit(ref, Created(|c.titles|), c.actor)],
      if c.incident.Some? then t.events + [IncidentEvent(c.incident.value, PlanGenerated, c.actor)] else t.events)
  }

  function IncidentKindOf(target: State): Option<IncidentKind> {
    match target
    case APPROVED => Some(PlanApproved)
    case REJECTED => Some(PlanRejected)
    case EXECUTING => Some(ActionStarted)
    case COMPLETED => Some(ActionCompleted)
    case MEASURED => Some(OutcomeRecorded)
    case _ => None
  }

  function DecisionOf(target: State, modified: bool): Decision {
    if modified then Modified else if target == APPROVED then Approved else Rejected
  }

  function Updated(t: Tables, c: Call): Tables
    requires c.Move? && c.id in t.plans
  {
    var p := t.plans[c.id];
    Tables(
      t.plans[c.id := p.(state := c.target)],
      t.actions,
      if IsDecision(c.target) then t.approvals + [Approval(c.id, DecisionOf(c.target, c.modified), c.actor)]
        else t.approvals,
      t.audit + [Audit(p.ref, Moved(p.state, c.target, c.modified), c.actor)],
      if p.incident.Some? && IncidentKindOf(c.target).Some?
      then t.events + [IncidentEvent(p.incident.value, IncidentKindOf(c.target).value, c.actor)]
      else t.events)
  }

  function Bit(b: bool): nat {
    if b then 1 else 0
  }

  /** SELECT MAX, INSERT plan, one INSERT per action, INSERT audit, INSERT incident event, COMMIT. */
  function CreateStatements(c: Call): nat
    requires c.Create?
  {
    4 + |c.titles| + Bit(c.incident.Some?)
  }

  /** SELECT FOR UPDATE, UPDATE plan, INSERT approval, INSERT audit, INSERT incident event, COMMIT. */
  function MoveStatements(p: Plan, target: State): nat {
    4 + Bit(IsDecision(target)) + Bit(p.incident.Some? && IncidentKindOf(target).Some?)
  }

  predicate Hits(fault: Option<nat>, statements: nat) {
    fault.Some? && fault.value < statements
  }

  function Step(d: Database, c: Call): (Database, Result) {
    match c
    case Create(_, _, _, fault) =>
      var burnt := if fault == Some(0) then d else d.(nextId := d.nextId + 1);
      if Hits(fault, CreateStatements(c)) then (burnt, Failed)
      else (burnt.(tables := Inserted(d.tables, d.nextId, c)), PlanCreated(d.nextId, MaxId(d.tables.plans.Keys) + 1))
    case Move(id, target, _, _, fault) =>
      if fault == Some(0) then (d, Failed)
      else if id !in d.tables.plans then (d, Refused(None))
      else
        var p := d.tables.plans[id];
        if !CanTransition(p.state, target) then (d, Refused(Some(p.state)))
        else if Hits(fault, MoveStatements(p, target)) then (d, Failed)
        else (d.(tables := Updated(d.tables, c)), PlanMoved(p.state, target))
  }

  function Run(calls: seq<Call>): Database {
    if calls == [] then EmptyDatabase() else Step(Run(calls[..|calls| - 1]), calls[|calls| - 1]).0
  }

  /** What a call that goes through writes, and nothing else: a created plan is SIMULATED under the
      next reference, with its actions in order; a moved one only changes its state. */
  lemma CallWrites(d: Database, c: Call)
    requires Step(d, c).1.PlanCreated? || Step(d, c).1.PlanMoved?
    ensures var t, u := d.tables, Step(d, c).0.tables;
            match c
            case Create(titles, incident, actor, _) =>
              && Step(d, c).1.PlanCreated? && Step(d, c).0.nextId == d.nextId + 1
              && var id, ref := Step(d, c).1.id, Step(d, c).1.ref;
              && id == d.nextId && (forall i :: i in t.plans ==> i < ref)
              && (ref == 1 || ref - 1 in t.plans)
              && u.plans == t.plans[id := Plan(ref, SIMULATED, incident)]
              && |u.actions| == |t.actions| + |titles| && u.actions[..|t.actions|] == t.actions
              && (forall i :: 0 <= i < |titles| ==> u.actions[|t.actions| + i] == ActionRow(id, i + 1, titles[i]))
              && u.approvals == t.approvals
              && u.audit == t.audit + [Audit(ref, Created(|titles|), actor)]
              && u.events == t.events +
                 (if incident.Some? then [IncidentEvent(incident.value, PlanGenerated, actor)] else [])
            case Move(id, target, modified, actor, _) =>
              && id in t.plans && Step(d, c).1 == PlanMoved(t.plans[id].state, target)
              && Step(d, c).0.nextId == d.nextId
              && var p := t.plans[id];
              && u.plans == t.plans[id := Plan(p.ref, target, p.incident)] && u.actions == t.actions
              && u.approvals == t.approvals + (match target
                 case APPROVED => [Approval(id, if modified then Modified else Approved, actor)]
                 case REJECTED => [Approval(id, if modified then Modified else Rejected, actor)]
                 case _ => [])
              && u.audit == t.audit + [Audit(p.ref, Moved(p.state, target, modified), actor)]
              && u.events == t.events +
                 (if p.incident.Some? then Announcements(p.incident.value, target, actor) else [])
  {
  }

  /** Statements of a move: lock, update, audit row and COMMIT, an approval row for a ruling, an
      event if an incident hears of it. */
  predicate WithinMove(fault: Option<nat>, target: State, incident: Option<int>) {
    fault.Some? && fault.value < 4 + Bit(target == APPROVED || target == REJECTED)
                                 + Bit(incident.Some? && Announcements(incident.value, target, "") != [])
  }

  /** Which calls fail and which are refused, by the number of the statement that raises. */
  lemma RepliesIff(d: Database, c: Call)
    ensures var r, plans := Step(d, c).1, d.tables.plans;
            match c
            case Create(titles, incident, _, fault) =>
              && !r.Refused? && !r.PlanMoved?
              && (r.Failed? <==> fault.Some? && fault.value < 4 + |titles| + Bit(incident.Some?))
              && Step(d, c).0.nextId == d.nextId + Bit(fault != Some(0))
            case Move(id, target, _, _, fault) =>
              var permitted := id in plans && target in Transitions(plans[id].state);
              && !r.PlanCreated? && Step(d, c).0.nextId == d.nextId
              && (r.Refused? <==> fault != Some(0) && !permitted)
              && (r.Refused? ==> r.current == if id in plans then Some(plans[id].state) else None)
              && (r.Failed? <==> fault == Some(0) || (permitted && WithinMove(fault, target, plans[id].incident)))
  {
  }

  /** All or nothing: a refused or failing call - the audit write included - changes no table. */
  lemma RefusedChangesNothing(d: Database, c: Call)
    ensures Step(d, c).1.Refused? || Step(d, c).1.Failed? ==> Step(d, c).0.tables == d.tables
    ensures Step(d, c).1.PlanMoved? <==>
              c.Move? && c.id in d.tables.plans && CanTransition(d.tables.plans[c.id].state, c.target)
              && !Hits(c.fault, MoveStatements(d.tables.plans[c.id], c.target))
  {
  }

  // ---------------------------------------------------------------- reading the audit trail

  /** The moves recorded under a plan reference, oldest first. */
  function Trail(audit: seq<Audit>, ref: nat): seq<(State, State)> {
    if audit == [] then []
    else
      var a := audit[|audit| - 1];
      var earlier := Trail(audit[..|audit| - 1], ref);
      if a.ref == ref && a.event.Moved? then earlier + [(a.event.source, a.event.target)] else earlier
  }

  /** The approval rows that the audited moves into APPROVED or REJECTED call for. */
  function DecisionsDue(audit: seq<Audit>, ref: nat, id: PlanId): seq<Approval> {
    if audit == [] then []
    else
      var a := audit[|audit| - 1];
      var earlier := DecisionsDue(audit[..|audit| - 1], ref, id);
      if a.ref != ref || !a.event.Moved? then earlier
      else
        match a.event.target
        case APPROVED => earlier + [Approval(id, if a.event.modified then Modified else Approved, a.actor)]
        case REJECTED => earlier + [Approval(id, if a.event.modified then Modified else Rejected, a.actor)]
        case _ => earlier
  }

  /** What the incident is told when a plan made for it is moved. */
  function Announcements(incident: int, target: State, actor: string): seq<IncidentEvent> {
    if target == APPROVED then [IncidentEvent(incident, PlanApproved, actor)]
    else if target == REJECTED then [IncidentEvent(incident, PlanRejected, actor)]
    else if target == EXECUTING then [IncidentEvent(incident, ActionStarted, actor)]
    else if target == COMPLETED then [IncidentEvent(incident, ActionCompleted, actor)]
    else if target == MEASURED then [IncidentEvent(incident, OutcomeRecorded, actor)]
    else []
  }

  /** The plan of this reference was made for the incident. */
  ghost predicate Concerns(plans: map<PlanId, Plan>, ref: nat, incident: int) {
    exists i :: i in plans && plans[i].ref == ref && plans[i].incident == Some(incident)
  }

  /** What one audit row makes due. */
  ghost function Due(a: Audit, plans: map<PlanId, Plan>, incident: int): seq<IncidentEvent> {
    if !Concerns(plans, a.ref, incident) then []
    else
      match a.event
      case Created(_) => [IncidentEvent(incident, PlanGenerated, a.actor)]
      case Moved(_, target, _) => Announcements(incident, target, a.actor)
  }

  /** What is to be told about an incident: the events of the plans made for it, oldest first. */
  ghost function EventsDue(audit: seq<Audit>, plans: map<PlanId, Plan>, incident: int): seq<IncidentEvent> {
    if audit == [] then []
    else EventsDue(audit[..|audit| - 1], plans, incident) + Due(audit[|audit| - 1], plans, incident)
  }

  function EventsOf(events: seq<IncidentEvent>, incident: int): seq<IncidentEvent> {
    if events == [] then []
    else
      var e := events[|events| - 1];
      var earlier := EventsOf(events[..|events| - 1], incident);
      if e.incident == incident then earlier + [e] else earlier
  }

  function ApprovalsOf(approvals: seq<Approval>, id: PlanId): seq<Approval> {
    if approvals == [] then []
    else
      var a := approvals[|approvals| - 1];
      var earlier := ApprovalsOf(approvals[..|approvals| - 1], id);
      if a.plan == id then earlier + [a] else earlier
  }

  function Creations(audit: seq<Audit>, ref: nat): nat {
    if audit == [] then 0
    else
      var a := audit[|audit| - 1];
      Creations(audit[..|audit| - 1], ref) + Bit(a.ref == ref && a.event.Created?)
  }

  // ---------------------------------------------------------------- the invariant

  ghost predicate PlanOk(t: Tables, id: PlanId) {
    id in t.plans
    && var p := t.plans[id];
       && Replay(SIMULATED, Trail(t.audit, p.ref)) == Some(p.state)
       && ApprovalsOf(t.approvals, id) == DecisionsDue(t.audit, p.ref, id)
       && Creations(t.audit, p.ref) == 1
  }

  /** References never repeat: each exceeds every smaller id and is at most its own id. */
  ghost predicate RefsOk(plans: map<PlanId, Plan>) {
    && (forall i :: i in plans ==> 0 < plans[i].ref <= i)
    && (forall i, j :: i in plans && j in plans && i < j ==> i < plans[j].ref)
  }

  ghost predicate Inv(d: Database) {
    && (forall i :: i in d.tables.plans ==> i < d.nextId && PlanOk(d.tables, i))
    && d.nextId > 0
    && RefsOk(d.tables.plans)
    && (forall k :: 0 <= k < |d.tables.audit| ==> d.tables.audit[k].ref <= MaxId(d.tables.plans.Keys))
    && (forall k :: 0 <= k < |d.tables.approvals| ==> d.tables.approvals[k].plan in d.tables.plans)
  }

  lemma {:induction false} NothingRecorded(audit: seq<Audit>, approvals: seq<Approval>, ref: nat, id: PlanId)
    requires forall k :: 0 <= k < |audit| ==> audit[k].ref != ref
    requires forall k :: 0 <= k < |approvals| ==> approvals[k].plan != id
    ensures Trail(audit, ref) == [] && DecisionsDue(audit, ref, id) == [] && Creations(audit, ref) == 0
    ensures ApprovalsOf(approvals, id) == []
    decreases |audit| + |approvals|
  {
    if audit != [] {
      NothingRecorded(audit[..|audit| - 1], [], ref, id);
    }
    if approvals != [] {
      NothingRecorded([], approvals[..|approvals| - 1], ref, id);
    }
  }

  lemma RefsDiffer(t: Tables, i: PlanId, j: PlanId)
    requires RefsOk(t.plans) && i in t.plans && j in t.plans && i != j
    ensures t.plans[i].ref != t.plans[j].ref
  {
  }

  /** What one more audit row adds to each reading of the trail. */
  lemma AuditAppend(audit: seq<Audit>, a: Audit, ref: nat, id: PlanId)
    ensures Trail(audit + [a], ref) ==
            Trail(audit, ref) + (if a.ref == ref && a.event.Moved? then [(a.event.source, a.event.target)] else [])
    ensures DecisionsDue(audit + [a], ref, id) ==
            DecisionsDue(audit, ref, id)
            + (if a.ref == ref && a.event.Moved? && IsDecision(a.event.target)
               then [Approval(id, DecisionOf(a.event.target, a.event.modified), a.actor)] else [])
    ensures Creations(audit + [a], ref) == Creations(audit, ref) + Bit(a.ref == ref && a.event.Created?)
  {
    assert (audit + [a])[..|audit + [a]| - 1] == audit;
  }

  lemma ApprovalAppend(approvals: seq<Approval>, a: Approval, id: PlanId)
    ensures ApprovalsOf(approvals + [a], id) == ApprovalsOf(approvals, id) + (if a.plan == id then [a] else [])
  {
    assert (approvals + [a])[..|approvals + [a]| - 1] == approvals;
  }

  lemma ReplayStep(moves: seq<(State, State)>, s: State, target: State)
    requires Replay(SIMULATED, moves) == Some(s) && CanTransition(s, target)
    ensures Replay(SIMULATED, moves + [(s, target)]) == Some(target)
  {
    assert (moves + [(s, target)])[..|moves + [(s, target)]| - 1] == moves;
  }

  lemma InsertedPlans(t: Tables, id: PlanId, c: Call, i: PlanId)
    requires c.Create? && id !in t.plans && RefsOk(t.plans)
    requires forall k :: 0 <= k < |t.audit| ==> t.audit[k].ref <= MaxId(t.plans.Keys)
    requires forall k :: 0 <= k < |t.approvals| ==> t.approvals[k].plan in t.plans
    requires i == id || PlanOk(t, i)
    ensures PlanOk(Inserted(t, id, c), i)
  {
    var ref := MaxId(t.plans.Keys) + 1;
    var a := Audit(ref, Created(|c.titles|), c.actor);
    if i == id {
      NothingRecorded(t.audit, t.approvals, ref, id);
      AuditAppend(t.audit, a, ref, id);
    } else {
      assert t.plans[i].ref <= i <= MaxId(t.plans.Keys);
      AuditAppend(t.audit, a, t.plans[i].ref, i);
    }
  }

  lemma CreateKeeps(d: Database, c: Call)
    requires Inv(d) && c.Create?
    ensures Inv(Step(d, c).0)
  {
    hide PlanOk;
    var t, id := d.tables, d.nextId;
    var d' := Step(d, c).0;
    if Step(d, c).1.PlanCreated? {
      var t' := Inserted(t, id, c);
      var ref := MaxId(t.plans.Keys) + 1;
      assert 0 < ref <= id;
      assert t'.plans.Keys == t.plans.Keys + {id};
      assert MaxId(t'.plans.Keys) == id;
      forall i | i in t'.plans
        ensures PlanOk(t', i)
      {
        InsertedPlans(t, id, c, i);
      }
    } else {
      assert d'.tables == t;
    }
  }

  lemma UpdatedPlans(t: Tables, c: Call, i: PlanId)
    requires c.Move? && c.id in t.plans && CanTransition(t.plans[c.id].state, c.target)
    requires RefsOk(t.plans) && PlanOk(t, i)
    ensures PlanOk(Updated(t, c), i)
  {
    hide Replay;
    var p := t.plans[c.id];
    var a := Audit(p.ref, Moved(p.state, c.target, c.modified), c.actor);
    AuditAppend(t.audit, a, t.plans[i].ref, i);
    ApprovalAppend(t.approvals, Approval(c.id, DecisionOf(c.target, c.modified), c.actor), i);
    if i == c.id {
      ReplayStep(Trail(t.audit, p.ref), p.state, c.target);
    } else {
      RefsDiffer(t, i, c.id);
    }
  }

  lemma MoveKeeps(d: Database, c: Call)
    requires Inv(d) && c.Move?
    ensures Inv(Step(d, c).0)
  {
    hide PlanOk, CanTransition, Hits;
    var t := d.tables;
    if Step(d, c).1.PlanMoved? {
      var t' := Updated(t, c);
      assert t'.plans.Keys == t.plans.Keys;
      forall i | i in t'.plans
        ensures PlanOk(t', i)
      {
        assert PlanOk(t, i);
        UpdatedPlans(t, c, i);
      }
    }
  }

  lemma {:induction false} RunKeeps(calls: seq<Call>)
    ensures Inv(Run(calls))
  {
    if calls != [] {
      var d, c := Run(calls[..|calls| - 1]), calls[|calls| - 1];
      RunKeeps(calls[..|calls| - 1]);
      if c.Create? {
        CreateKeeps(d, c);
      } else {
        MoveKeeps(d, c);
      }
    }
  }

  // ---------------------------------------------------------------- what it means

  /** After any run: replaying a plan's audited moves from SIMULATED gives its stored state,
      the approval rows are exactly those its moves into APPROVED or REJECTED call for, and it
      was created once. */
  lemma AuditExplainsState(calls: seq<Call>, id: PlanId)
    requires id in Run(calls).tables.plans
    ensures var t := Run(calls).tables;
            var p := t.plans[id];
            && Replay(SIMULATED, Trail(t.audit, p.ref)) == Some(p.state)
            && ApprovalsOf(t.approvals, id) == DecisionsDue(t.audit, p.ref, id)
            && Creations(t.audit, p.ref) == 1
  {
    RunKeeps(calls);
    assert PlanOk(Run(calls).tables, id);
  }

  lemma {:induction false} EventsDueSame(audit: seq<Audit>, a: map<PlanId, Plan>, b: map<PlanId, Plan>, incident: int)
    requires forall k :: 0 <= k < |audit| ==>
               (Concerns(a, audit[k].ref, incident) <==> Concerns(b, audit[k].ref, incident))
    ensures EventsDue(audit, a, incident) == EventsDue(audit, b, incident)
  {
    hide Concerns;
    if audit != [] {
      EventsDueSame(audit[..|audit| - 1], a, b, incident);
      var ref := audit[|audit| - 1].ref;
      assert Concerns(a, ref, incident) <==> Concerns(b, ref, incident);
    }
  }

  lemma {:induction false} EventsJoin(events: seq<IncidentEvent>, more: seq<IncidentEvent>, incident: int)
    requires forall e :: e in more ==> e.incident == if |more| == 0 then incident else more[0].incident
    ensures EventsOf(events + more, incident) ==
            EventsOf(events, incident) + (if more != [] && more[0].incident == incident then more else [])
  {
    if more == [] {
      assert events + more == events;
    } else {
      var less := more[..|more| - 1];
      assert (events + more)[..|events + more| - 1] == events + less;
      assert more == less + [more[|more| - 1]];
      EventsJoin(events, less, incident);
      assert less != [] ==> less[0] == more[0];
      assert more[|more| - 1] in more;
    }
  }

  /** After any run, the events of an incident are exactly those due for what the audit trail says
      of the plans made for it, in order. */
  lemma {:induction false} EventsTellAudit(calls: seq<Call>, incident: int)
    ensures Inv(Run(calls))
    ensures EventsOf(Run(calls).tables.events, incident) ==
            EventsDue(Run(calls).tables.audit, Run(calls).tables.plans, incident)
  {
    RunKeeps(calls);
    if calls != [] {
      var d, c := Run(calls[..|calls| - 1]), calls[|calls| - 1];
      EventsTellAudit(calls[..|calls| - 1], incident);
      StepTellsAudit(d, c, incident);
    }
  }

  lemma OneMoreTells(t: Tables, u: Tables, a: Audit, more: seq<IncidentEvent>, incident: int)
    requires u.audit == t.audit + [a] && u.events == t.events + more
    requires forall k :: 0 <= k < |t.audit| ==>
               (Concerns(t.plans, t.audit[k].ref, incident) <==> Concerns(u.plans, t.audit[k].ref, incident))
    requires more != [] && more[0].incident == incident ==> Due(a, u.plans, incident) == more
    requires more == [] || more[0].incident != incident ==> Due(a, u.plans, incident) == []
    requires forall e :: e in more ==> e.incident == more[0].incident
    requires EventsOf(t.events, incident) == EventsDue(t.audit, t.plans, incident)
    ensures EventsOf(u.events, incident) == EventsDue(u.audit, u.plans, incident)
  {
    hide EventsOf, Concerns, Due;
    EventsDueSame(t.audit, t.plans, u.plans, incident);
    EventsJoin(t.events, more, incident);
    assert u.audit[..|u.audit| - 1] == t.audit;
  }

  lemma CreateTellsAudit(t: Tables, id: PlanId, c: Call, incident: int)
    requires c.Create? && id !in t.plans && RefsOk(t.plans)
    requires forall k :: 0 <= k < |t.audit| ==> t.audit[k].ref <= MaxId(t.plans.Keys)
    requires EventsOf(t.events, incident) == EventsDue(t.audit, t.plans, incident)
    ensures var u := Inserted(t, id, c);
            EventsOf(u.events, incident) == EventsDue(u.audit, u.plans, incident)
  {
    hide EventsOf, EventsDue;
    var u, ref := Inserted(t, id, c), MaxId(t.plans.Keys) + 1;
    var more := if c.incident.Some? then [IncidentEvent(c.incident.value, PlanGenerated, c.actor)] else [];
    assert u.plans[id] == Plan(ref, SIMULATED, c.incident);
    assert forall i :: i in t.plans ==> t.plans[i].ref <= i <= MaxId(t.plans.Keys);
    forall r | r != ref
      ensures Concerns(t.plans, r, incident) <==> Concerns(u.plans, r, incident)
    {
      if Concerns(t.plans, r, incident) {
        var i :| i in t.plans && t.plans[i].ref == r && t.plans[i].incident == Some(incident);
        assert u.plans[i] == t.plans[i];
      }
    }
    OneMoreTells(t, u, Audit(ref, Created(|c.titles|), c.actor), more, incident);
  }

  lemma MoveTellsAudit(t: Tables, c: Call, incident: int)
    requires c.Move? && c.id in t.plans && RefsOk(t.plans)
    requires EventsOf(t.events, incident) == EventsDue(t.audit, t.plans, incident)
    ensures var u := Updated(t, c);
            EventsOf(u.events, incident) == EventsDue(u.audit, u.plans, incident)
  {
    hide EventsOf, EventsDue, Concerns, RefsOk;
    var u, p := Updated(t, c), t.plans[c.id];
    var more := if p.incident.Some? then Announcements(p.incident.value, c.target, c.actor) else [];
    assert u.events == t.events + more;
    forall r
      ensures Concerns(t.plans, r, incident) <==> Concerns(u.plans, r, incident)
    {
      SameConcerns(t.plans, c.id, c.target, r, incident);
    }
    OneConcern(t.plans, c.id, incident);
    OneMoreTells(t, u, Audit(p.ref, Moved(p.state, c.target, c.modified), c.actor), more, incident);
  }

  lemma SameConcerns(plans: map<PlanId, Plan>, id: PlanId, target: State, ref: nat, incident: int)
    requires id in plans
    ensures Concerns(plans, ref, incident) <==> Concerns(plans[id := plans[id].(state := target)], ref, incident)
  {
    var after := plans[id := plans[id].(state := target)];
    if Concerns(plans, ref, incident) {
      var i :| i in plans && plans[i].ref == ref && plans[i].incident == Some(incident);
      assert after[i].ref == ref;
    }
  }

  lemma OneConcern(plans: map<PlanId, Plan>, id: PlanId, incident: int)
    requires id in plans && RefsOk(plans)
    ensures Concerns(plans, plans[id].ref, incident) <==> plans[id].incident == Some(incident)
  {
  }

  lemma StepTellsAudit(d: Database, c: Call, incident: int)
    requires Inv(d) && Inv(Step(d, c).0)
    requires EventsOf(d.tables.events, incident) == EventsDue(d.tables.audit, d.tables.plans, incident)
    ensures var t := Step(d, c).0.tables;
            EventsOf(t.events, incident) == EventsDue(t.audit, t.plans, incident)
  {
    hide PlanOk, RefsOk, Inserted, Updated, EventsOf, EventsDue;
    if Step(d, c).1.PlanCreated? {
      CreateTellsAudit(d.tables, d.nextId, c, incident);
    } else if Step(d, c).1.PlanMoved? {
      MoveTellsAudit(d.tables, c, incident);
    } else {
      RefusedChangesNothing(d, c);
    }
  }

  /** The moves into APPROVED or REJECTED recorded under a reference: where to, whether with
      modifications, and by whom. */
  function Rulings(audit: seq<Audit>, ref: nat): seq<(State, bool, string)> {
    if audit == [] then []
    else
      var a := audit[|audit| - 1];
      var earlier := Rulings(audit[..|audit| - 1], ref);
      if a.ref == ref && a.event.Moved? && (a.event.target == APPROVED || a.event.target == REJECTED)
      then earlier + [(a.event.target, a.event.modified, a.actor)]
      else earlier
  }

  lemma {:induction false} RulingsAreDue(audit: seq<Audit>, ref: nat, id: PlanId)
    ensures var rows, rulings := DecisionsDue(audit, ref, id), Rulings(audit, ref);
            && |rows| == |rulings|
            && (forall k :: 0 <= k < |rows| ==> Labels(rows[k], rulings[k], id))
            && LastDecision(Trail(audit, ref)) == if rulings == [] then None else Some(rulings[|rulings| - 1].0)
  {
    if audit != [] {
      RulingsAreDue(audit[..|audit| - 1], ref, id);
      var a, earlier := audit[|audit| - 1], Trail(audit[..|audit| - 1], ref);
      if a.ref == ref && a.event.Moved? {
        assert (earlier + [(a.event.source, a.event.target)])[..|earlier|] == earlier;
      }
    }
  }

  /** The row says what was ruled, and who did. */
  predicate Labels(row: Approval, ruling: (State, bool, string), id: PlanId) {
    && row.plan == id && row.actor == ruling.2
    && (row.decision == Modified <==> ruling.1)
    && (row.decision == Approved <==> !ruling.1 && ruling.0 == APPROVED)
    && (row.decision == Rejected <==> !ruling.1 && ruling.0 == REJECTED)
  }

  /** After any run a plan's approval rows and its moves into APPROVED or REJECTED match one to one,
      in order; so the last row, unless it says Modified, says Approved exactly if the last ruling
      on the trail was APPROVED. */
  lemma ApprovalsTellRulings(calls: seq<Call>, id: PlanId)
    requires id in Run(calls).tables.plans
    ensures var t := Run(calls).tables;
            var rows, rulings := ApprovalsOf(t.approvals, id), Rulings(t.audit, t.plans[id].ref);
            var last := LastDecision(Trail(t.audit, t.plans[id].ref));
            && |rows| == |rulings| && (forall k :: 0 <= k < |rows| ==> Labels(rows[k], rulings[k], id))
            && (last.None? <==> rows == [])
            && (rows != [] && rows[|rows| - 1].decision != Modified ==>
                 (rows[|rows| - 1].decision == Approved <==> last == Some(APPROVED))
                 && (rows[|rows| - 1].decision == Rejected <==> last == Some(REJECTED)))
  {
    AuditExplainsState(calls, id);
    var t := Run(calls).tables;
    RulingsAreDue(t.audit, t.plans[id].ref, id);
  }

  /** No two plans share a reference, although failed inserts use up ids. */
  lemma ReferencesAreUnique(calls: seq<Call>, i: PlanId, j: PlanId)
    requires i in Run(calls).tables.plans && j in Run(calls).tables.plans && i != j
    ensures Run(calls).tables.plans[i].ref != Run(calls).tables.plans[j].ref
  {
    RunKeeps(calls);
    RefsDiffer(Run(calls).tables, i, j);
  }

  /** Work only happens on plans whose last word on approval was yes; each of its stages is
      entered once, in order. */
  lemma WorkWasApproved(calls: seq<Call>, id: PlanId)
    requires id in Run(calls).tables.plans && Underway(Run(calls).tables.plans[id].state)
    ensures var t := Run(calls).tables;
            var trail := Trail(t.audit, t.plans[id].ref);
            LastDecision(trail) == Some(APPROVED) && EntriesFit(trail, t.plans[id].state)
  {
    AuditExplainsState(calls, id);
    var t := Run(calls).tables;
    TrailFacts(SIMULATED, Trail(t.audit, t.plans[id].ref), t.plans[id].state);
  }

  // ---------------------------------------------------------------- the code

  /** The store, statement by statement: a transaction works on a copy of the tables, which
      replaces them on commit and is dropped when a statement raises. */
  class Store {
    var tables: Tables
    var nextId: nat

    ghost function State(): Database
      reads this
    {
      Database(tables, nextId)
    }

    constructor ()
      ensures State() == EmptyDatabase()
    {
      tables, nextId := Tables(map[], [], [], [], []), 1;
    }

    method CreatePlan(titles: seq<string>, incident: Option<int>, actor: string, fault: Option<nat>) returns (r: Result)
      modifies this
      ensures (State(), r) == Step(old(State()), Create(titles, incident, actor, fault))
    {
      var tx, statement := tables, 0;
      if fault == Some(statement) {
        return Failed;
      }
      var ref := MaxId(tx.plans.Keys) + 1;
      statement := 1;
      var id := nextId;
      nextId := nextId + 1;
      if fault == Some(statement) {
        return Failed;
      }
      tx := tx.(plans := tx.plans[id := Plan(ref, SIMULATED, incident)]);
      var position := 1;
      while position <= |titles|
        invariant 1 <= position <= |titles| + 1
        invariant !Hits(fault, position + 1)
        invariant tx == tables.(plans := tables.plans[id := Plan(ref, SIMULATED, incident)],
                                actions := tables.actions + ActionRows(id, titles[..position - 1]))
      {
        statement := 1 + position;
        if fault == Some(statement) {
          return Failed;
        }
        assert titles[..position][..position - 1] == titles[..position - 1];
        tx := tx.(actions := tx.actions + [ActionRow(id, position, titles[position - 1])]);
        position := position + 1;
      }
      assert titles[..|titles|] == titles;
      statement := 2 + |titles|;
      if fault == Some(statement) {
        return Failed;
      }
      tx := tx.(audit := tx.audit + [Audit(ref, Created(|titles|), actor)]);
      if incident.Some? {
        statement := 3 + |titles|;
        if fault == Some(statement) {
          return Failed;
        }
        tx := tx.(events := tx.events + [IncidentEvent(incident.value, PlanGenerated, actor)]);
      }
      statement := statement + 1;
      if fault == Some(statement) {
        return Failed;
      }
      tables := tx;
      return PlanCreated(id, ref);
    }

    method TransitionPlan(id: PlanId, target: Lifecycle.State, modified: bool, actor: string, fault: Option<nat>)
          returns (r: Result)
      modifies this
      ensures (State(), r) == Step(old(State()), Move(id, target, modified, actor, fault))
    {
      var tx, statement := tables, 0;
      if fault == Some(statement) {
        return Failed;
      }
      if id !in tx.plans {
        return Refused(None);
      }
      var plan := tx.plans[id];
      var current := plan.state;
      if !CanTransition(current, target) {
        return Refused(Some(current));
      }
      statement := 1;
      if fault == Some(statement) {
        return Failed;
      }
      tx := tx.(plans := tx.plans[id := plan.(state := target)]);
      if target == APPROVED || target == REJECTED {
        statement := statement + 1;
        if fault == Some(statement) {
          return Failed;
        }
        tx := tx.(approvals := tx.approvals + [Approval(id, DecisionOf(target, modified), actor)]);
      }
      statement := statement + 1;
      if fault == Some(statement) {
        return Failed;
      }
      tx := tx.(audit := tx.audit + [Audit(plan.ref, Moved(current, target, modified), actor)]);
      if plan.incident.Some? {
        var kind := IncidentKindOf(target);
        if kind.Some? {
          statement := statement + 1;
          if fault == Some(statement) {
            return Failed;
          }
          tx := tx.(events := tx.events + [IncidentEvent(plan.incident.value, kind.value, actor)]);
        }
      }
      statement := statement + 1;
      if fault == Some(statement) {
        return Failed;
      }
      tables := tx;
      return PlanMoved(current, target);
    }
  }
}
