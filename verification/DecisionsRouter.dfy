/** The older decisions API: it walks the same lifecycle in compound steps, and it swallows
    what the audit insert raises, inside the transaction. */
module DecisionsRouter {
  import opened Basics
  import opened Lifecycle
  import opened Rbac
  import opened Transactions

  type DecisionId = nat

  // ---------------------------------------------------------------- words

  function LowerChar(c: char): char {
    if 'A' <= c <= 'Z' then c - 'A' + 'a' else c
  }

  function UpperChar(c: char): char {
    if 'a' <= c <= 'z' then c - 'a' + 'A' else c
  }

  function Lower(s: string): string {
    seq(|s|, i requires 0 <= i < |s| => LowerChar(s[i]))
  }

  function Upper(s: string): string {
    seq(|s|, i requires 0 <= i < |s| => UpperChar(s[i]))
  }

  function NameOf(s: State): string {
    match s
    case DRAFT => "DRAFT"
    case SIMULATED => "SIMULATED"
    case READY_FOR_REVIEW => "READY_FOR_REVIEW"
    case APPROVED => "APPROVED"
    case REJECTED => "REJECTED"
    case EXECUTING => "EXECUTING"
    case COMPLETED => "COMPLETED"
    case MEASURED => "MEASURED"
    case LEARNED => "LEARNED"
  }

  // ---------------------------------------------------------------- tables and calls

  predicate MayApprove(r: Role) {
    r.SuperAdmin? || r.Management? || r.ProductionAdmin? || r.EquipmentAdmin? || r.ExplorationAdmin?
  }

  predicate MayOperate(r: Role) {
    r.SuperAdmin? || r.Management? || r.ProductionAdmin? || r.EquipmentAdmin? || r.MinePlanner?
  }

  datatype Decision = Decision(state: State, status: string)

  datatype AuditEvent = Created | Reviewed | Executed | Measured

  datatype Tables = Tables(
    decisions: map<DecisionId, Decision>,
    outcomes: seq<DecisionId>,
    audit: seq<(AuditEvent, DecisionId)>)

  datatype Database = Database(tables: Tables, nextId: nat)

  function EmptyDatabase(): Database {
    Database(Tables(map[], [], []), 1)
  }

  /** `world`: what trouble each statement of the transaction meets, and whether COMMIT raises. */
  datatype Call =
    | Record(lifecycle: string, status: Option<string>, role: Role, world: World)
    | Review(id: DecisionId, action: string, role: Role, world: World)
    | Execute(id: DecisionId, role: Role, world: World)
    | Outcome(id: DecisionId, role: Role, world: World)

  datatype Reply =
    | Done(id: DecisionId, state: State)
    | Denied
    | NotFound
    | WrongState(current: State)
    | ServerError

  // ---------------------------------------------------------------- what a call does

  predicate IsOpen(s: State) {
    s.DRAFT? || s.SIMULATED? || s.READY_FOR_REVIEW?
  }

  predicate AsksApproved(lifecycle: string, status: Option<string>) {
    Upper(lifecycle) == "APPROVED" || (status.Some? && Lower(status.value) == "approved")
  }

  function InitialState(lifecycle: string, status: Option<string>, role: Role): State {
    var named := Upper(lifecycle);
    if AsksApproved(lifecycle, status) then
      if MayApprove(role) then APPROVED else READY_FOR_REVIEW
    else if named == "DRAFT" then DRAFT
    else if named == "SIMULATED" then SIMULATED
    else READY_FOR_REVIEW
  }

  predicate Permitted(c: Call) {
    match c
    case Record(_, _, role, _) => role != Guest
    case Review(_, _, role, _) => MayApprove(role)
    case Execute(_, role, _) => MayOperate(role)
    case Outcome(_, role, _) => MayOperate(role)
  }

  /** Where a call on an existing decision would take it, if its guard lets it. */
  function TargetOf(current: State, c: Call): Option<State>
    requires !c.Record?
  {
    match c
    case Review(_, action, _, _) =>
      if IsOpen(current) then Some(if Lower(action) == "approve" then APPROVED else REJECTED) else None
    case Execute(_, _, _) => if current == APPROVED then Some(COMPLETED) else None
    case Outcome(_, _, _) => if current == COMPLETED || current == APPROVED then Some(MEASURED) else None
  }

  function EventOf(c: Call): AuditEvent {
    match c
    case Record(_, _, _, _) => Created
    case Review(_, _, _, _) => Reviewed
    case Execute(_, _, _) => Executed
    case Outcome(_, _, _) => Measured
  }

  function PutDecision(id: DecisionId, s: State, status: string): Statement<Tables> {
    Statement((t: Tables) => t.(decisions := t.decisions[id := Decision(s, status)]), false)
  }

  /** Two endpoints spell the status out. */
  function StatusFor(c: Call, s: State): string {
    match c
    case Execute(_, _, _) => "completed"
    case Outcome(_, _, _) => "measured"
    case _ => Lower(NameOf(s))
  }

  function AddOutcome(id: DecisionId): Statement<Tables> {
    Statement((t: Tables) => t.(outcomes := t.outcomes + [id]), false)
  }

  /** The one statement inside the swallowing block. */
  function AddAudit(event: AuditEvent, id: DecisionId): Statement<Tables> {
    Statement((t: Tables) => t.(audit := t.audit + [(event, id)]), true)
  }

  function LockRow(): Statement<Tables> {
    Statement((t: Tables) => t, false)
  }

  /** The statements of a call that gets past its guards, in order. */
  function Statements(c: Call, id: DecisionId, s: State): seq<Statement<Tables>> {
    var put := PutDecision(id, s, StatusFor(c, s));
    match c
    case Record(_, _, _, _) => [put, AddAudit(Created, id)]
    case Outcome(_, _, _) => [LockRow(), AddOutcome(id), put, AddAudit(Measured, id)]
    case _ => [LockRow(), put, AddAudit(EventOf(c), id)]
  }

  function Committed(t: Tables, id: DecisionId, s: State, c: Call): (Tables, Reply) {
    var e := Transact(t, Statements(c, id, s), c.world);
    (e.tables, if e.replied then Done(id, s) else ServerError)
  }

  /** An insert that reaches the server draws an id, whatever becomes of it. */
  function Step(d: Database, c: Call): (Database, Reply) {
    if !Permitted(c) then (d, Denied)
    else if c.Record? then
      var (t, reply) := Committed(d.tables, d.nextId, InitialState(c.lifecycle, c.status, c.role), c);
      (Database(t, if c.world.At(0).ClientRaises? then d.nextId else d.nextId + 1), reply)
    else if !c.world.At(0).Fine? then (d, ServerError)
    else if c.id !in d.tables.decisions then (d, NotFound)
    else
      var current := d.tables.decisions[c.id].state;
      match TargetOf(current, c)
      case None => (d, WrongState(current))
      case Some(s) =>
        var (t, reply) := Committed(d.tables, c.id, s, c);
        (d.(tables := t), reply)
  }

  function Run(calls: seq<Call>): Database {
    if calls == [] then EmptyDatabase() else Step(Run(calls[..|calls| - 1]), calls[|calls| - 1]).0
  }

  function Written(t: Tables, id: DecisionId, s: State, c: Call): Tables {
    Tables(
      t.decisions[id := Decision(s, StatusFor(c, s))],
      if c.Outcome? then t.outcomes + [id] else t.outcomes,
      if c.world.At(AuditPlace(c)).Fine? then t.audit + [(EventOf(c), id)] else t.audit)
  }

  /** The place of the audit insert, the last of the statements. */
  function AuditPlace(c: Call): nat {
    match c
    case Record(_, _, _, _) => 1
    case Outcome(_, _, _) => 3
    case _ => 2
  }

  predicate WritesGoThrough(c: Call) {
    !c.world.commitRaises && forall k :: 0 <= k < AuditPlace(c) ==> c.world.At(k).Fine?
  }

  lemma TwoEffects(t: Tables, a: Statement<Tables>, b: Statement<Tables>, w: World)
    ensures var one := if w.At(0).Fine? then a.effect(t) else t;
            Effects(t, [a, b], w) == if w.At(1).Fine? then b.effect(one) else one
  {
    assert [a, b][..1] == [a] && [a][..0] == [];
    assert Effects(t, [a], w) == if w.At(0).Fine? then a.effect(t) else t;
  }

  lemma ThreeEffects(t: Tables, a: Statement<Tables>, b: Statement<Tables>, c: Statement<Tables>, w: World)
    ensures var two := Effects(t, [a, b], w);
            Effects(t, [a, b, c], w) == if w.At(2).Fine? then c.effect(two) else two
  {
    assert [a, b, c][..2] == [a, b];
  }

  lemma FourEffects(t: Tables, a: Statement<Tables>, b: Statement<Tables>, c: Statement<Tables>,
                    d: Statement<Tables>, w: World)
    ensures var three := Effects(t, [a, b, c], w);
            Effects(t, [a, b, c, d], w) == if w.At(3).Fine? then d.effect(three) else three
  {
    assert [a, b, c, d][..3] == [a, b, c];
  }

  lemma EffectsAreWritten(t: Tables, id: DecisionId, s: State, c: Call)
    requires WritesGoThrough(c)
    ensures Effects(t, Statements(c, id, s), c.world) == Written(t, id, s, c)
  {
    hide Effects, StatusFor;
    var put := PutDecision(id, s, StatusFor(c, s));
    match c {
      case Record(_, _, _, w) => TwoEffects(t, put, AddAudit(Created, id), w);
      case Outcome(_, _, w) =>
        TwoEffects(t, LockRow(), AddOutcome(id), w);
        ThreeEffects(t, LockRow(), AddOutcome(id), put, w);
        FourEffects(t, LockRow(), AddOutcome(id), put, AddAudit(Measured, id), w);
      case _ =>
        TwoEffects(t, LockRow(), put, c.world);
        ThreeEffects(t, LockRow(), put, AddAudit(EventOf(c), id), c.world);
    }
  }

  lemma OnlyAuditCanBeRefused(c: Call, id: DecisionId, s: State)
    ensures (forall k: nat :: !Escapes(Statements(c, id, s), c.world, k)) <==>
            forall k :: 0 <= k < AuditPlace(c) ==> c.world.At(k).Fine?
    ensures WritesGoThrough(c) ==>
              (Refused(c.world, |Statements(c, id, s)|) <==> c.world.At(AuditPlace(c)).ServerRefuses?)
  {
    hide StatusFor;
    var st := Statements(c, id, s);
    assert |st| == AuditPlace(c) + 1;
    assert forall k :: 0 <= k < |st| ==> (st[k].guarded <==> k == AuditPlace(c));
    if k :| 0 <= k < AuditPlace(c) && !c.world.At(k).Fine? {
      assert Escapes(st, c.world, k);
    }
  }

  /** A call that gets past its guards answers exactly when all its own writes and the commit go
      through, and then stores them exactly when the server did not refuse the audit row. */
  lemma CommittedIff(t: Tables, id: DecisionId, s: State, c: Call)
    ensures var (after, reply) := Committed(t, id, s, c);
            && reply == (if WritesGoThrough(c) then Done(id, s) else ServerError)
            && after == if WritesGoThrough(c) && !c.world.At(AuditPlace(c)).ServerRefuses?
                        then Written(t, id, s, c) else t
  {
    ReplyIff(t, Statements(c, id, s), c.world);
    OnlyAuditCanBeRefused(c, id, s);
    hide Statements, Transact, Effects, Refused, Escapes, Written, AuditPlace;
    if WritesGoThrough(c) {
      EffectsAreWritten(t, id, s, c);
    }
  }

  /** The answer of an endpoint is true of the tables exactly when the server did not refuse the
      audit row: that exception is swallowed, yet the transaction it aborted is rolled back. */
  lemma AnswerIsTrueIff(d: Database, c: Call)
    requires Step(d, c).1.Done? && Fresh(d)
    ensures var (after, reply) := Step(d, c);
            var refused := c.world.At(AuditPlace(c)).ServerRefuses?;
            && (!refused <==>
                 reply.id in after.tables.decisions && after.tables.decisions[reply.id].state == reply.state)
            && (refused ==> after.tables == d.tables)
  {
    StepIs(d, c);
    hide Step, StatusFor, AuditPlace, WritesGoThrough, InitialState;
  }

  /** A step that answers, spelled out. */
  lemma StepIs(d: Database, c: Call)
    ensures var (after, reply) := Step(d, c);
            && d.nextId <= after.nextId
            && (!reply.Done? ==> after.tables == d.tables)
            && (reply.Done? ==>
                 && Permitted(c) && WritesGoThrough(c)
                 && (if c.Record? then
                       && reply.id == d.nextId && reply.state == InitialState(c.lifecycle, c.status, c.role)
                       && after.nextId == d.nextId + 1
                     else
                       && reply.id == c.id && c.id in d.tables.decisions
                       && TargetOf(d.tables.decisions[c.id].state, c) == Some(reply.state))
                 && after.tables == if c.world.At(AuditPlace(c)).ServerRefuses? then d.tables
                                    else Written(d.tables, reply.id, reply.state, c))
  {
    hide Committed, Written, InitialState, Lower;
    if c.Record? {
      CommittedIff(d.tables, d.nextId, InitialState(c.lifecycle, c.status, c.role), c);
    } else if c.id in d.tables.decisions && TargetOf(d.tables.decisions[c.id].state, c).Some? {
      CommittedIff(d.tables, c.id, TargetOf(d.tables.decisions[c.id].state, c).value, c);
    }
  }

  // ---------------------------------------------------------------- who may do what, and what it does

  /** Who is entitled to approve, and who to carry out: the requirement, role by role. */
  predicate Approver(r: Role) {
    r in {SuperAdmin, Management, ProductionAdmin, EquipmentAdmin, ExplorationAdmin}
  }

  predicate Operator(r: Role) {
    r in {SuperAdmin, Management, ProductionAdmin, EquipmentAdmin, MinePlanner}
  }

  function StatusText(s: State): string {
    match s
    case DRAFT => "draft"
    case SIMULATED => "simulated"
    case READY_FOR_REVIEW => "ready_for_review"
    case APPROVED => "approved"
    case REJECTED => "rejected"
    case EXECUTING => "executing"
    case COMPLETED => "completed"
    case MEASURED => "measured"
    case LEARNED => "learned"
  }

  /** Nothing goes wrong at any statement nor at COMMIT. */
  ghost predicate Untroubled(w: World) {
    !w.commitRaises && forall k :: w.At(k).Fine?
  }

  /** The call goes through: the decision is in state `s` with the matching status, an outcome row is
      there if it is MEASURED by this call, and the audit row says what happened. */
  ghost predicate GoesThrough(d: Database, c: Call, id: DecisionId, s: State, event: AuditEvent) {
    var (after, reply) := Step(d, c);
    && reply == Done(id, s)
    && after.tables.decisions == d.tables.decisions[id := Decision(s, StatusText(s))]
    && after.tables.outcomes == d.tables.outcomes + (if c.Outcome? then [id] else [])
    && after.tables.audit == d.tables.audit + [(event, id)]
  }

  ghost predicate TurnedDown(d: Database, c: Call, reply: Reply) {
    Step(d, c) == (d, reply)
  }

  lemma Through(d: Database, c: Call)
    requires Untroubled(c.world)
    ensures Step(d, c).1.Done? ==> GoesThrough(d, c, Step(d, c).1.id, Step(d, c).1.state, EventOf(c))
    ensures Step(d, c).1 != ServerError
    ensures Step(d, c).1.Done? ==> Step(d, c).0.nextId == if c.Record? then d.nextId + 1 else d.nextId
    ensures !Step(d, c).1.Done? ==> Step(d, c).0 == d
    ensures !c.Record? && Permitted(c) && c.id in d.tables.decisions ==>
              var target := TargetOf(d.tables.decisions[c.id].state, c);
              Step(d, c).1 ==
              if target.Some? then Done(c.id, target.value) else WrongState(d.tables.decisions[c.id].state)
  {
    hide Lower, InitialState, NameOf, StatusFor, Statements, Transact;
    StepIs(d, c);
    if c.Record? {
      CommittedIff(d.tables, d.nextId, InitialState(c.lifecycle, c.status, c.role), c);
    } else if c.id in d.tables.decisions && TargetOf(d.tables.decisions[c.id].state, c).Some? {
      CommittedIff(d.tables, c.id, TargetOf(d.tables.decisions[c.id].state, c).value, c);
    }
    if Step(d, c).1.Done? {
      StatusFits(c, Step(d, c).1.state);
    }
  }

  /** Two words are alike in capitals exactly if they are in small letters. */
  lemma CasesAgree(a: string, b: string)
    ensures Upper(a) == Upper(b) <==> Lower(a) == Lower(b)
  {
    if Upper(a) == Upper(b) {
      assert |Upper(a)| == |a| && |Upper(b)| == |b|;
      forall i | 0 <= i < |a|
        ensures Lower(a)[i] == Lower(b)[i]
      {
        assert Upper(a)[i] == Upper(b)[i];
      }
    }
    if Lower(a) == Lower(b) {
      assert |Lower(a)| == |a| && |Lower(b)| == |b|;
      forall i | 0 <= i < |a|
        ensures Upper(a)[i] == Upper(b)[i]
      {
        assert Lower(a)[i] == Lower(b)[i];
      }
    }
  }

  /** A lifecycle state is recognised in any spelling. */
  lemma SpelledAs(word: string, s: State)
    ensures Upper(word) == NameOf(s) <==> Lower(word) == StatusText(s)
  {
    hide Lower;
    CasesAgree(word, NameOf(s));
    NamesLower(s);
    NamesUpper(s);
  }

  lemma NamesUpper(s: State)
    ensures Upper(NameOf(s)) == NameOf(s)
  {
  }

  /** Creating: any signed-in user; asked for APPROVED, only an approver gets it, others a review;
      other states than the three open ones become a review as well. */
  lemma RecordIs(d: Database, lifecycle: string, status: Option<string>, role: Role, w: World)
    requires Untroubled(w)
    ensures var c := Record(lifecycle, status, role, w);
            var asked := Lower(lifecycle) == "approved" || (status.Some? && Lower(status.value) == "approved");
            if role == Guest then TurnedDown(d, c, Denied)
            else if asked && Approver(role) then GoesThrough(d, c, d.nextId, APPROVED, Created)
            else if asked then GoesThrough(d, c, d.nextId, READY_FOR_REVIEW, Created)
            else if Lower(lifecycle) == "draft" then GoesThrough(d, c, d.nextId, DRAFT, Created)
            else if Lower(lifecycle) == "simulated" then GoesThrough(d, c, d.nextId, SIMULATED, Created)
            else GoesThrough(d, c, d.nextId, READY_FOR_REVIEW, Created)
  {
    hide Lower, Upper, Committed, GoesThrough;
    SpelledAs(lifecycle, APPROVED);
    SpelledAs(lifecycle, DRAFT);
    SpelledAs(lifecycle, SIMULATED);
    var c := Record(lifecycle, status, role, w);
    Through(d, c);
    StepIs(d, c);
  }

  /** The three calls on a decision that is there or not: by whom, from which states, to which. */
  lemma CallsAre(d: Database, id: DecisionId, action: string, role: Role, w: World)
    requires Untroubled(w)
    ensures var (there, review) := (id in d.tables.decisions, Review(id, action, role, w));
            if !Approver(role) then TurnedDown(d, review, Denied)
            else if !there then TurnedDown(d, review, NotFound)
            else if d.tables.decisions[id].state !in {DRAFT, SIMULATED, READY_FOR_REVIEW} then
              TurnedDown(d, review, WrongState(d.tables.decisions[id].state))
            else GoesThrough(d, review, id, if Lower(action) == "approve" then APPROVED else REJECTED, Reviewed)
    ensures var (there, execute) := (id in d.tables.decisions, Call.Execute(id, role, w));
            if !Operator(role) then TurnedDown(d, execute, Denied)
            else if !there then TurnedDown(d, execute, NotFound)
            else if d.tables.decisions[id].state != APPROVED then
              TurnedDown(d, execute, WrongState(d.tables.decisions[id].state))
            else GoesThrough(d, execute, id, COMPLETED, Executed)
    ensures var (there, outcome) := (id in d.tables.decisions, Outcome(id, role, w));
            if !Operator(role) then TurnedDown(d, outcome, Denied)
            else if !there then TurnedDown(d, outcome, NotFound)
            else if d.tables.decisions[id].state !in {COMPLETED, APPROVED} then
              TurnedDown(d, outcome, WrongState(d.tables.decisions[id].state))
            else GoesThrough(d, outcome, id, MEASURED, Measured)
  {
    hide Lower, Committed, GoesThrough;
    Through(d, Review(id, action, role, w));
    Through(d, Call.Execute(id, role, w));
    Through(d, Outcome(id, role, w));
  }

  // ---------------------------------------------------------------- invariant over runs

  /** The id sequence is ahead of every stored id. */
  ghost predicate Fresh(d: Database) {
    forall id :: id in d.tables.decisions ==> id < d.nextId
  }

  function OutcomeRows(outcomes: seq<DecisionId>, id: DecisionId): nat {
    if outcomes == [] then 0
    else OutcomeRows(outcomes[..|outcomes| - 1], id) + (if outcomes[|outcomes| - 1] == id then 1 else 0)
  }

  ghost predicate DecisionOk(t: Tables, id: DecisionId) {
    if id in t.decisions then
      var d := t.decisions[id];
      && !d.state.EXECUTING? && !d.state.LEARNED?
      && d.status == StatusText(d.state)
      && OutcomeRows(t.outcomes, id) == if d.state.MEASURED? then 1 else 0
    else
      OutcomeRows(t.outcomes, id) == 0
  }

  ghost predicate Consistent(d: Database) {
    Fresh(d) && forall id :: DecisionOk(d.tables, id)
  }

  lemma StatusFits(c: Call, s: State)
    requires c.Execute? ==> s == COMPLETED
    requires c.Outcome? ==> s == MEASURED
    ensures StatusFor(c, s) == StatusText(s)
  {
    NamesLower(s);
  }

  lemma NamesLower(s: State)
    ensures Lower(NameOf(s)) == StatusText(s)
  {
  }

  lemma OneMoreOutcome(outcomes: seq<DecisionId>, id: DecisionId, i: DecisionId)
    ensures OutcomeRows(outcomes + [id], i) == OutcomeRows(outcomes, i) + (if i == id then 1 else 0)
  {
    assert (outcomes + [id])[..|outcomes|] == outcomes;
  }

  lemma WrittenKeeps(t: Tables, id: DecisionId, s: State, c: Call, i: DecisionId)
    requires DecisionOk(t, i) && !s.EXECUTING? && !s.LEARNED?
    requires i == id ==> OutcomeRows(t.outcomes, id) == 0
    requires c.Outcome? <==> s == MEASURED
    requires c.Execute? ==> s == COMPLETED
    ensures DecisionOk(Written(t, id, s, c), i)
  {
    hide Lower, NameOf, StatusFor, OutcomeRows;
    StatusFits(c, s);
    OneMoreOutcome(t.outcomes, id, i);
  }

  lemma StepKeeps(d: Database, c: Call)
    requires Consistent(d)
    ensures Consistent(Step(d, c).0)
  {
    hide Lower, NameOf, InitialState, Step, StatusFor, OutcomeRows;
    StepIs(d, c);
    InitialStates(c);
    var (after, reply) := Step(d, c);
    if after.tables != d.tables {
      forall i: DecisionId
        ensures DecisionOk(after.tables, i)
      {
        assert DecisionOk(d.tables, i);
        WrittenKeeps(d.tables, reply.id, reply.state, c, i);
      }
    }
  }

  lemma InitialStates(c: Call)
    ensures c.Record? ==>
              var s := InitialState(c.lifecycle, c.status, c.role);
              && (s == APPROVED || IsOpen(s))
              && (s == APPROVED <==> AsksApproved(c.lifecycle, c.status) && MayApprove(c.role))
  {
    hide Lower, Upper;
  }

  /** In every reachable state `status` is the lower-cased state, and a decision has exactly
      one outcome row if it is MEASURED and none otherwise. */
  lemma {:induction false} RunKeeps(calls: seq<Call>)
    ensures Consistent(Run(calls))
  {
    if calls != [] {
      RunKeeps(calls[..|calls| - 1]);
      StepKeeps(Run(calls[..|calls| - 1]), calls[|calls| - 1]);
    }
  }

  // ---------------------------------------------------------------- the lifecycle underneath

  /** The edges one call of this API takes in a single step. */
  function PathOf(source: State, target: State): seq<(State, State)> {
    match (source, target)
    case (DRAFT, APPROVED) => [(DRAFT, SIMULATED), (SIMULATED, READY_FOR_REVIEW), (READY_FOR_REVIEW, APPROVED)]
    case (SIMULATED, APPROVED) => [(SIMULATED, READY_FOR_REVIEW), (READY_FOR_REVIEW, APPROVED)]
    case (APPROVED, COMPLETED) => [(APPROVED, EXECUTING), (EXECUTING, COMPLETED)]
    case (APPROVED, MEASURED) => [(APPROVED, EXECUTING), (EXECUTING, COMPLETED), (COMPLETED, MEASURED)]
    case _ => [(source, target)]
  }

  lemma ReplayOne(s: State, t: State)
    requires CanTransition(s, t)
    ensures Replay(s, [(s, t)]) == Some(t)
  {
    assert [(s, t)][..0] == [];
  }

  lemma ReplayTwo(s: State, t: State, u: State)
    requires CanTransition(s, t) && CanTransition(t, u)
    ensures Replay(s, [(s, t), (t, u)]) == Some(u)
  {
    ReplayOne(s, t);
    assert [(s, t), (t, u)][..1] == [(s, t)];
  }

  lemma ReplayThree(s: State, t: State, u: State, v: State)
    requires CanTransition(s, t) && CanTransition(t, u) && CanTransition(u, v)
    ensures Replay(s, [(s, t), (t, u), (u, v)]) == Some(v)
  {
    ReplayTwo(s, t, u);
    assert [(s, t), (t, u), (u, v)][..2] == [(s, t), (t, u)];
  }

  /** Every compound step is a non-empty path of permitted edges. */
  lemma StepIsPath(current: State, c: Call)
    requires !c.Record? && TargetOf(current, c).Some?
    ensures var target := TargetOf(current, c).value;
            |PathOf(current, target)| > 0 && Replay(current, PathOf(current, target)) == Some(target)
  {
    hide Replay, Lower;
    var target := TargetOf(current, c).value;
    match (current, target) {
      case (DRAFT, APPROVED) => ReplayThree(DRAFT, SIMULATED, READY_FOR_REVIEW, APPROVED);
      case (SIMULATED, APPROVED) => ReplayTwo(SIMULATED, READY_FOR_REVIEW, APPROVED);
      case (APPROVED, COMPLETED) => ReplayTwo(APPROVED, EXECUTING, COMPLETED);
      case (APPROVED, MEASURED) => ReplayThree(APPROVED, EXECUTING, COMPLETED, MEASURED);
      case _ => ReplayOne(current, target);
    }
  }

  // ---------------------------------------------------------------- history of one decision

  /** A state the decision was found in after a call, and who made that call. */
  type Visit = (State, Role)

  /** The states a decision went through during a run, read off the tables after each call. */
  function Visited(calls: seq<Call>, id: DecisionId): seq<Visit> {
    if calls == [] then []
    else
      var prefix, c := calls[..|calls| - 1], calls[|calls| - 1];
      var before, after := Run(prefix).tables.decisions, Run(calls).tables.decisions;
      var earlier := Visited(prefix, id);
      if id in after && (id !in before || before[id].state != after[id].state)
      then earlier + [(after[id].state, c.role)]
      else earlier
  }

  predicate Born(v: Visit) {
    IsOpen(v.0) || (v.0 == APPROVED && Approver(v.1))
  }

  predicate Succeeds(source: State, v: Visit) {
    || (IsOpen(source) && (v.0 == APPROVED || v.0 == REJECTED) && Approver(v.1))
    || (source == APPROVED && v.0 == COMPLETED && Operator(v.1))
    || ((source == APPROVED || source == COMPLETED) && v.0 == MEASURED && Operator(v.1))
  }

  /** A complete history: created open or, by an approver, APPROVED; then each state from the
      one before, by someone with the right to make that step. */
  predicate Lawful(visits: seq<Visit>) {
    |visits| > 0 &&
    var n := |visits| - 1;
    if n == 0 then Born(visits[0]) else Lawful(visits[..n]) && Succeeds(visits[n - 1].0, visits[n])
  }

  ghost predicate HistoryOk(calls: seq<Call>, id: DecisionId) {
    var d := Run(calls).tables.decisions;
    var v := Visited(calls, id);
    if id in d then Lawful(v) && v[|v| - 1].0 == d[id].state else v == []
  }

  lemma TargetSucceeds(current: State, c: Call)
    requires !c.Record? && Permitted(c) && TargetOf(current, c).Some?
    ensures Succeeds(current, (TargetOf(current, c).value, c.role)) && TargetOf(current, c).value != current
  {
    hide Lower;
  }

  lemma LawfulGrows(visits: seq<Visit>, v: Visit)
    requires Lawful(visits) && Succeeds(visits[|visits| - 1].0, v)
    ensures Lawful(visits + [v])
  {
    hide Succeeds, Born;
    assert (visits + [v])[..|visits|] == visits;
  }

  lemma {:induction false} HistoryIsLawful(calls: seq<Call>, id: DecisionId)
    ensures HistoryOk(calls, id)
  {
    hide Lower, NameOf, InitialState, Lawful, Step;
    if calls != [] {
      var prefix, c := calls[..|calls| - 1], calls[|calls| - 1];
      HistoryIsLawful(prefix, id);
      RunKeeps(prefix);
      var d := Run(prefix);
      StepIs(d, c);
      var after := Step(d, c).0.tables.decisions;
      if after == d.tables.decisions {
      } else if c.Record? {
        LawfulStart(c);
        assert d.nextId !in d.tables.decisions;
        assert Visited(prefix, d.nextId) == [] by {
          HistoryIsLawful(prefix, d.nextId);
        }
        var first := (InitialState(c.lifecycle, c.status, c.role), c.role);
        assert [] + [first] == [first];
      } else if c.id == id {
        var current := d.tables.decisions[id].state;
        TargetSucceeds(current, c);
        LawfulGrows(Visited(prefix, id), (TargetOf(current, c).value, c.role));
      }
    }
  }

  lemma LawfulStart(c: Call)
    requires c.Record?
    ensures Lawful([(InitialState(c.lifecycle, c.status, c.role), c.role)])
  {
    hide InitialState;
    InitialStates(c);
  }

  /** A history written out edge by edge. */
  function Expand(visits: seq<Visit>): seq<(State, State)> {
    if |visits| < 2 then []
    else
      var n := |visits| - 1;
      Expand(visits[..n]) + PathOf(visits[n - 1].0, visits[n].0)
  }

  lemma {:induction false} LawfulReplays(visits: seq<Visit>)
    requires Lawful(visits)
    ensures Replay(visits[0].0, Expand(visits)) == Some(visits[|visits| - 1].0)
  {
    var n := |visits| - 1;
    if n == 0 {
      assert Expand(visits) == [];
    } else {
      var prefix := visits[..n];
      assert prefix[n - 1] == visits[n - 1] && prefix[0] == visits[0];
      var before, target := visits[n - 1].0, visits[n].0;
      LawfulReplays(prefix);
      PathReplays(before, target);
      ReplayJoin(visits[0].0, Expand(prefix), PathOf(before, target));
    }
  }

  lemma PathReplays(source: State, target: State)
    requires (IsOpen(source) && (target == APPROVED || target == REJECTED))
             || (source == APPROVED && target == COMPLETED)
             || ((source == APPROVED || source == COMPLETED) && target == MEASURED)
    ensures Replay(source, PathOf(source, target)) == Some(target)
  {
    var action := if target == APPROVED then "approve" else "reject";
    assert Lower("approve") == "approve";
    assert Lower("reject") != "approve" by {
      assert |Lower("reject")| == 6;
    }
    StepIsPath(source,
      if target == COMPLETED then Call.Execute(0, SuperAdmin, World([], false))
      else if target == MEASURED then Outcome(0, SuperAdmin, World([], false))
      else Review(0, action, SuperAdmin, World([], false)));
  }

  /** In every run, the whole life of a decision is one trail of permitted edges from the state
      it was created in to the state it is in. */
  lemma LifeIsATrail(calls: seq<Call>, id: DecisionId)
    requires id in Run(calls).tables.decisions
    ensures var v := Visited(calls, id);
            && Lawful(v)
            && Replay(v[0].0, Expand(v)) == Some(Run(calls).tables.decisions[id].state)
  {
    HistoryIsLawful(calls, id);
    LawfulReplays(Visited(calls, id));
  }

  // ---------------------------------------------------------------- what the audit table says of it

  function EventsOf(audit: seq<(AuditEvent, DecisionId)>, id: DecisionId): seq<AuditEvent> {
    if audit == [] then []
    else
      var earlier := EventsOf(audit[..|audit| - 1], id);
      if audit[|audit| - 1].1 == id then earlier + [audit[|audit| - 1].0] else earlier
  }

  /** A history as audit events: created, then reviewed, executed or measured. */
  function Told(visits: seq<Visit>): seq<AuditEvent> {
    if visits == [] then []
    else if |visits| == 1 then [Created]
    else
      Told(visits[..|visits| - 1]) +
      match visits[|visits| - 1].0
      case COMPLETED => [Executed]
      case MEASURED => [Measured]
      case _ => [Reviewed]
  }

  lemma OneMoreEvent(audit: seq<(AuditEvent, DecisionId)>, event: AuditEvent, id: DecisionId, i: DecisionId)
    ensures EventsOf(audit + [(event, id)], i) == EventsOf(audit, i) + (if i == id then [event] else [])
  {
    assert (audit + [(event, id)])[..|audit|] == audit;
  }

  /** In every run in which no audit insert has trouble, the audit rows of a decision tell its whole
      life, in order, and there are none for one that does not exist. */
  lemma {:induction false} AuditTellsLife(calls: seq<Call>, id: DecisionId)
    requires forall c :: c in calls ==> c.world.At(AuditPlace(c)).Fine?
    ensures EventsOf(Run(calls).tables.audit, id) == Told(Visited(calls, id))
  {
    hide NameOf, InitialState, Step, EventsOf, Told;
    if calls == [] {
      NothingTold(id);
    } else {
      var prefix, c := calls[..|calls| - 1], calls[|calls| - 1];
      AuditTellsLife(prefix, id);
      HistoryIsLawful(prefix, id);
      RunKeeps(prefix);
      var d := Run(prefix);
      assert c in calls;
      StepIs(d, c);
      var (after, reply) := Step(d, c);
      if reply.Done? {
        OneMoreEvent(d.tables.audit, EventOf(c), reply.id, id);
        if reply.id == id {
          if !c.Record? {
            TargetSucceeds(d.tables.decisions[id].state, c);
          } else {
            assert id !in d.tables.decisions;
          }
          OneMoreTold(Visited(prefix, id), c, reply.state);
        }
      }
    }
  }

  lemma NothingTold(id: DecisionId)
    ensures EventsOf([], id) == [] && Told([]) == []
  {
  }

  lemma OneMoreTold(visits: seq<Visit>, c: Call, s: State)
    requires visits == [] <==> c.Record?
    requires !c.Record? ==> Permitted(c) && exists current :: TargetOf(current, c) == Some(s)
    ensures Told(visits + [(s, c.role)]) == Told(visits) + [EventOf(c)]
  {
    hide Lower;
    assert (visits + [(s, c.role)])[..|visits|] == visits;
  }

  ghost predicate ApprovedBefore(visits: seq<Visit>) {
    exists i :: 0 <= i < |visits| - 1 && visits[i].0 == APPROVED && Approver(visits[i].1)
  }

  function Depth(s: State): nat {
    match s
    case APPROVED => 2
    case REJECTED => 2
    case COMPLETED => 3
    case MEASURED => 4
    case _ => 1
  }

  /** However far back: an approved decision says who approved it, and no history is long. */
  lemma {:induction false} LawfulFacts(visits: seq<Visit>)
    requires Lawful(visits)
    ensures |visits| <= Depth(visits[|visits| - 1].0)
    ensures visits[|visits| - 1].0 == APPROVED ==> Approver(visits[|visits| - 1].1)
    ensures Underway(visits[|visits| - 1].0) ==> ApprovedBefore(visits)
  {
    var n := |visits| - 1;
    if n > 0 {
      var prefix := visits[..n];
      LawfulFacts(prefix);
      assert prefix[n - 1] == visits[n - 1];
      if ApprovedBefore(prefix) {
        var i :| 0 <= i < n - 1 && prefix[i].0 == APPROVED && Approver(prefix[i].1);
        assert visits[i] == prefix[i];
      }
    }
  }

  /** A COMPLETED or MEASURED decision was APPROVED earlier in the run, by someone who may
      approve, and no decision ever changes state more than three times. */
  lemma WorkWasApproved(calls: seq<Call>, id: DecisionId)
    requires id in Run(calls).tables.decisions
    ensures |Visited(calls, id)| <= 4
    ensures Underway(Run(calls).tables.decisions[id].state) ==> ApprovedBefore(Visited(calls, id))
  {
    HistoryIsLawful(calls, id);
    LawfulFacts(Visited(calls, id));
  }

  // ---------------------------------------------------------------- the code

  /** The endpoints, statement by statement; what a statement raises outside the swallowing
      block ends the call. */
  class Router {
    var tables: Tables
    var nextId: nat

    ghost function Contents(): Database
      reads this
    {
      Database(tables, nextId)
    }

    constructor ()
      ensures Contents() == EmptyDatabase()
    {
      tables, nextId := Tables(map[], [], []), 1;
    }

    /** Leaving the `with transaction()` block, normally or not. */
    method Leave(tx: Tx<Tables>, w: World, id: DecisionId, s: State) returns (r: Reply)
      modifies this`tables
      ensures var e := Close(old(tables), tx, w);
              tables == e.tables && r == if e.replied then Done(id, s) else ServerError
    {
      if tx.raised || w.commitRaises {
        return ServerError;
      }
      if !tx.aborted {
        tables := tx.tables;
      }
      return Done(id, s);
    }

    method RecordDecision(lifecycle: string, status: Option<string>, role: Role, w: World) returns (r: Reply)
      modifies this
      ensures (Contents(), r) == Step(old(Contents()), Record(lifecycle, status, role, w))
    {
      hide Lower, Upper, NameOf, Transactions.Execute;
      if role == Guest {
        return Denied;
      }
      var state := PickState(lifecycle, status, role);
      var id := nextId;
      if !w.At(0).ClientRaises? {
        nextId := nextId + 1;
      }
      var tx := Transactions.Execute(Opened(tables), PutDecision(id, state, Lower(NameOf(state))), w.At(0));
      tx := Transactions.Execute(tx, AddAudit(Created, id), w.At(1));
      AllOfTwo(tables, PutDecision(id, state, Lower(NameOf(state))), AddAudit(Created, id), w);
      r := Leave(tx, w, id, state);
    }

    method PickState(lifecycle: string, status: Option<string>, role: Role) returns (state: State)
      ensures state == InitialState(lifecycle, status, role)
    {
      var named := Upper(lifecycle);
      if status.Some? && Lower(status.value) == "approved" {
        named := "APPROVED";
      }
      if named == "APPROVED" {
        state := if MayApprove(role) then APPROVED else READY_FOR_REVIEW;
      } else if named == "DRAFT" {
        state := DRAFT;
      } else if named == "SIMULATED" {
        state := SIMULATED;
      } else {
        state := READY_FOR_REVIEW;
      }
    }

    method ReviewDecision(id: DecisionId, action: string, role: Role, w: World) returns (r: Reply)
      modifies this`tables
      ensures (Contents(), r) == Step(old(Contents()), Review(id, action, role, w))
    {
      hide Lower, NameOf, Transactions.Execute;
      if !MayApprove(role) {
        return Denied;
      }
      var tx := Transactions.Execute(Opened(tables), LockRow(), w.At(0));
      Locked(tables, w);
      if tx.raised {
        return ServerError;
      }
      if id !in tables.decisions {
        return NotFound;
      }
      var current := tables.decisions[id].state;
      if !IsOpen(current) {
        return WrongState(current);
      }
      var target := if Lower(action) == "approve" then APPROVED else REJECTED;
      tx := Transactions.Execute(tx, PutDecision(id, target, Lower(NameOf(target))), w.At(1));
      tx := Transactions.Execute(tx, AddAudit(Reviewed, id), w.At(2));
      AllOfThree(tables, LockRow(), PutDecision(id, target, Lower(NameOf(target))), AddAudit(Reviewed, id), w);
      r := Leave(tx, w, id, target);
    }

    method ExecuteDecision(id: DecisionId, role: Role, w: World) returns (r: Reply)
      modifies this`tables
      ensures (Contents(), r) == Step(old(Contents()), Call.Execute(id, role, w))
    {
      hide Lower, NameOf, Transactions.Execute;
      if !MayOperate(role) {
        return Denied;
      }
      var tx := Transactions.Execute(Opened(tables), LockRow(), w.At(0));
      Locked(tables, w);
      if tx.raised {
        return ServerError;
      }
      if id !in tables.decisions {
        return NotFound;
      }
      var current := tables.decisions[id].state;
      if current != APPROVED {
        return WrongState(current);
      }
      tx := Transactions.Execute(tx, PutDecision(id, COMPLETED, "completed"), w.At(1));
      tx := Transactions.Execute(tx, AddAudit(Executed, id), w.At(2));
      AllOfThree(tables, LockRow(), PutDecision(id, COMPLETED, "completed"), AddAudit(Executed, id), w);
      r := Leave(tx, w, id, COMPLETED);
    }

    method RecordOutcome(id: DecisionId, role: Role, w: World) returns (r: Reply)
      modifies this`tables
      ensures (Contents(), r) == Step(old(Contents()), Outcome(id, role, w))
    {
      hide Lower, NameOf, Transactions.Execute;
      if !MayOperate(role) {
        return Denied;
      }
      var tx := Transactions.Execute(Opened(tables), LockRow(), w.At(0));
      Locked(tables, w);
      if tx.raised {
        return ServerError;
      }
      if id !in tables.decisions {
        return NotFound;
      }
      var current := tables.decisions[id].state;
      if current != COMPLETED && current != APPROVED {
        return WrongState(current);
      }
      tx := Transactions.Execute(tx, AddOutcome(id), w.At(1));
      tx := Transactions.Execute(tx, PutDecision(id, MEASURED, "measured"), w.At(2));
      AllOfThree(tables, LockRow(), AddOutcome(id), PutDecision(id, MEASURED, "measured"), w);
      AllOfFour(tables, LockRow(), AddOutcome(id), PutDecision(id, MEASURED, "measured"), AddAudit(Measured, id), w);
      tx := Transactions.Execute(tx, AddAudit(Measured, id), w.At(3));
      r := Leave(tx, w, id, MEASURED);
    }
  }

  lemma Locked(t: Tables, w: World)
    ensures var tx := Transactions.Execute(Opened(t), LockRow(), w.At(0));
            tx.raised <==> !w.At(0).Fine?
  {
  }

  lemma AllOfTwo(t: Tables, a: Statement<Tables>, b: Statement<Tables>, w: World)
    ensures All(t, [a, b], w) == Transactions.Execute(Transactions.Execute(Opened(t), a, w.At(0)), b, w.At(1))
  {
    hide Transactions.Execute;
    assert [a, b][..1] == [a] && [a][..0] == [];
    assert All(t, [a], w) == Transactions.Execute(Opened(t), a, w.At(0));
  }

  lemma AllOfThree(t: Tables, a: Statement<Tables>, b: Statement<Tables>, c: Statement<Tables>, w: World)
    ensures All(t, [a, b, c], w) ==
            Transactions.Execute(Transactions.Execute(Transactions.Execute(Opened(t), a, w.At(0)), b, w.At(1)), c,
              w.At(2))
  {
    hide Transactions.Execute;
    AllOfTwo(t, a, b, w);
    assert [a, b, c][..2] == [a, b];
  }

  lemma AllOfFour(t: Tables, a: Statement<Tables>, b: Statement<Tables>, c: Statement<Tables>,
                  d: Statement<Tables>, w: World)
    ensures All(t, [a, b, c, d], w) == Transactions.Execute(All(t, [a, b, c], w), d, w.At(3))
  {
    hide Transactions.Execute;
    assert [a, b, c, d][..3] == [a, b, c];
  }
}
