/** The decision lifecycle: its states, its permitted edges, and what any legal trail implies. */
module Lifecycle {
  import opened Basics

  datatype State =
    | DRAFT | SIMULATED | READY_FOR_REVIEW | APPROVED | REJECTED
    | EXECUTING | COMPLETED | MEASURED | LEARNED

  function Transitions(s: State): set<State> {
    match s
    case DRAFT => {SIMULATED, REJECTED}
    case SIMULATED => {READY_FOR_REVIEW, DRAFT, REJECTED}
    case READY_FOR_REVIEW => {APPROVED, REJECTED, DRAFT}
    case APPROVED => {EXECUTING, REJECTED}
    case REJECTED => {DRAFT}
    case EXECUTING => {COMPLETED}
    case COMPLETED => {MEASURED}
    case MEASURED => {LEARNED}
    case LEARNED => {}
  }

  predicate CanTransition(current: State, target: State) {
    target in Transitions(current)
  }

  /** Follows a list of (from, to) moves, each a permitted edge starting where the last ended. */
  function Replay(start: State, moves: seq<(State, State)>): Option<State> {
    if moves == [] then Some(start)
    else
      match Replay(start, moves[..|moves| - 1])
      case Some(s) =>
        var (source, target) := moves[|moves| - 1];
        if source == s && CanTransition(source, target) then Some(target) else None
      case None => None
  }

  predicate IsDecision(s: State) {
    s.APPROVED? || s.REJECTED?
  }

  /** Work has started: nothing returns from here to review. */
  predicate Underway(s: State) {
    s.EXECUTING? || s.COMPLETED? || s.MEASURED? || s.LEARNED?
  }

  function Remaining(s: State): nat {
    match s
    case EXECUTING => 3
    case COMPLETED => 2
    case MEASURED => 1
    case _ => 0
  }

  function LastDecision(moves: seq<(State, State)>): Option<State> {
    if moves == [] then None
    else if IsDecision(moves[|moves| - 1].1) then Some(moves[|moves| - 1].1)
    else LastDecision(moves[..|moves| - 1])
  }

  function TimesEntered(moves: seq<(State, State)>, s: State): nat {
    if moves == [] then 0
    else TimesEntered(moves[..|moves| - 1], s) + (if moves[|moves| - 1].1 == s then 1 else 0)
  }

  /** What has been entered so far when work has or has not started. */
  ghost predicate EntriesFit(moves: seq<(State, State)>, s: State) {
    forall u :: Underway(u) ==>
      TimesEntered(moves, u) == if Underway(s) && Remaining(u) >= Remaining(s) then 1 else 0
  }

  /** Any trail from a state before execution: a state that is underway was entered exactly
      once, as was each one before it, none after it - and the last word on approval was yes. */
  lemma {:induction false} TrailFacts(start: State, moves: seq<(State, State)>, s: State)
    requires !Underway(start) && start != APPROVED && Replay(start, moves) == Some(s)
    ensures EntriesFit(moves, s)
    ensures Underway(s) || s == APPROVED ==> LastDecision(moves) == Some(APPROVED)
    ensures s == REJECTED && start != REJECTED ==> LastDecision(moves) == Some(REJECTED)
  {
    if moves != [] {
      var prefix := moves[..|moves| - 1];
      TrailFacts(start, prefix, Replay(start, prefix).value);
    }
  }

  lemma {:induction false} ReplayJoin(start: State, a: seq<(State, State)>, b: seq<(State, State)>)
    requires Replay(start, a).Some?
    ensures Replay(start, a + b) == Replay(Replay(start, a).value, b)
  {
    if b == [] {
      assert a + b == a;
    } else {
      ReplayJoin(start, a, b[..|b| - 1]);
      assert (a + b)[..|a + b| - 1] == a + b[..|b| - 1];
    }
  }

  /** From EXECUTING on, every move brings the end one step closer: at most three remain. */
  lemma {:induction false} FewMovesLeft(s: State, moves: seq<(State, State)>)
    requires Underway(s) && Replay(s, moves).Some?
    ensures Underway(Replay(s, moves).value)
    ensures Remaining(Replay(s, moves).value) + |moves| == Remaining(s)
  {
    if moves != [] {
      FewMovesLeft(s, moves[..|moves| - 1]);
    }
  }

  // ---------------------------------------------------------------- where a decision can get to

  /** The fourteen permitted edges. */
  lemma EdgesAre(s: State, t: State)
    ensures CanTransition(s, t) <==> (s, t) in {
              (DRAFT, SIMULATED), (DRAFT, REJECTED),
              (SIMULATED, READY_FOR_REVIEW), (SIMULATED, DRAFT), (SIMULATED, REJECTED),
              (READY_FOR_REVIEW, APPROVED), (READY_FOR_REVIEW, REJECTED), (READY_FOR_REVIEW, DRAFT),
              (APPROVED, EXECUTING), (APPROVED, REJECTED), (REJECTED, DRAFT),
              (EXECUTING, COMPLETED), (COMPLETED, MEASURED), (MEASURED, LEARNED)}
  {
  }

  /** Some trail of permitted edges leads from `s` to `t`. */
  ghost predicate Reaches(s: State, t: State) {
    exists moves :: Replay(s, moves) == Some(t)
  }

  lemma Onward(s: State, t: State, u: State)
    requires Reaches(s, t) && CanTransition(t, u)
    ensures Reaches(s, u)
  {
    var moves :| Replay(s, moves) == Some(t);
    assert (moves + [(t, u)])[..|moves|] == moves;
    assert Replay(s, moves + [(t, u)]) == Some(u);
  }

  lemma Through(s: State, t: State, u: State)
    requires Reaches(s, t) && Reaches(t, u)
    ensures Reaches(s, u)
  {
    var a :| Replay(s, a) == Some(t);
    var b :| Replay(t, b) == Some(u);
    ReplayJoin(s, a, b);
  }

  lemma AllFromDraft(t: State)
    ensures Reaches(DRAFT, t)
  {
    assert Replay(DRAFT, []) == Some(DRAFT);
    hide Reaches, Replay;
    Onward(DRAFT, DRAFT, REJECTED);
    Onward(DRAFT, DRAFT, SIMULATED);
    Onward(DRAFT, SIMULATED, READY_FOR_REVIEW);
    Onward(DRAFT, READY_FOR_REVIEW, APPROVED);
    Onward(DRAFT, APPROVED, EXECUTING);
    Onward(DRAFT, EXECUTING, COMPLETED);
    Onward(DRAFT, COMPLETED, MEASURED);
    Onward(DRAFT, MEASURED, LEARNED);
  }

  /** From a state before execution every state can be reached; from then on only the later ones:
      approval can be withdrawn until work starts, and not after. */
  lemma ReachesIff(s: State, t: State)
    ensures Reaches(s, t) <==> !Underway(s) || (Underway(t) && Remaining(t) <= Remaining(s))
  {
    if Reaches(s, t) && Underway(s) {
      var moves :| Replay(s, moves) == Some(t);
      FewMovesLeft(s, moves);
    }
    assert Replay(s, []) == Some(s);
    assert Reaches(s, s);
    hide Reaches, Replay;
    if s.SIMULATED? || s.READY_FOR_REVIEW? || s.REJECTED? {
      Onward(s, s, DRAFT);
    } else if s.APPROVED? {
      Onward(s, s, REJECTED);
      Onward(s, REJECTED, DRAFT);
    } else if s.EXECUTING? {
      Onward(s, s, COMPLETED);
      Onward(s, COMPLETED, MEASURED);
      Onward(s, MEASURED, LEARNED);
    } else if s.COMPLETED? {
      Onward(s, s, MEASURED);
      Onward(s, MEASURED, LEARNED);
    } else if s.MEASURED? {
      Onward(s, s, LEARNED);
    }
    if !Underway(s) {
      AllFromDraft(t);
      Through(s, DRAFT, t);
    }
  }
}
