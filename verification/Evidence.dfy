/** Grading how well supported an answer is: a weighted score, then hard caps. Scores and
    weights are exact reals. */
module Evidence {
  import opened Basics

  datatype Quality = UNAVAILABLE | LOW | MEDIUM | HIGH {
    function Rank(): nat {
      match this
      case UNAVAILABLE => 0
      case LOW => 1
      case MEDIUM => 2
      case HIGH => 3
    }
  }

  datatype Factor = Factor(key: string, score: real, weight: real) {
    function Contribution(): real {
      score * weight
    }
  }

  // ---------------------------------------------------------------- weighted score

  function TotalWeight(fs: seq<Factor>): real {
    if fs == [] then 0.0 else TotalWeight(fs[..|fs| - 1]) + fs[|fs| - 1].weight
  }

  function Contributions(fs: seq<Factor>): real {
    if fs == [] then 0.0
    else Contributions(fs[..|fs| - 1]) + fs[|fs| - 1].Contribution()
  }

  function WeightedScore(fs: seq<Factor>): real {
    if TotalWeight(fs) <= 0.0 then 0.0 else Contributions(fs) / TotalWeight(fs)
  }

  function ThresholdGrade(score: real): Quality {
    if score >= 0.82 then HIGH
    else if score >= 0.55 then MEDIUM
    else if score >= 0.25 then LOW
    else UNAVAILABLE
  }

  /** `{f.key: f for f in factors}`: the last factor with a key wins. */
  function ByKey(fs: seq<Factor>, key: string): Option<Factor> {
    if fs == [] then None
    else if fs[|fs| - 1].key == key then Some(fs[|fs| - 1])
    else ByKey(fs[..|fs| - 1], key)
  }

  // ---------------------------------------------------------------- caps

  datatype Why = NoModel | NotChampion | DataExpired | DataOld | ConstraintsUnchecked | InputsSubstituted

  function CapOf(why: Why): Quality {
    if why.NoModel? || why.DataExpired? then LOW else MEDIUM
  }

  predicate ScoreAtMost(f: Option<Factor>, bound: real) {
    f.Some? && f.value.score <= bound
  }

  predicate ScoreBelow(f: Option<Factor>, bound: real) {
    f.Some? && f.value.score < bound
  }

  /** The reason holds of the factors, whatever else does. */
  predicate Triggered(fs: seq<Factor>, why: Why) {
    match why
    case NoModel => ScoreAtMost(ByKey(fs, "model"), 0.0)
    case NotChampion => ScoreBelow(ByKey(fs, "model"), 0.6)
    case DataExpired => ScoreAtMost(ByKey(fs, "freshness"), 0.0)
    case DataOld => ScoreBelow(ByKey(fs, "freshness"), 0.5)
    case ConstraintsUnchecked => ScoreBelow(ByKey(fs, "constraints"), 1.0)
    case InputsSubstituted => ScoreBelow(ByKey(fs, "completeness"), 0.75)
  }

  /** The grade is the lowest of the threshold grade and every triggered cap: a statement in
      which no order of caps appears. */
  ghost predicate IsGrade(fs: seq<Factor>, q: Quality) {
    if fs == [] then q == UNAVAILABLE
    else
      var base := ThresholdGrade(WeightedScore(fs));
      && q.Rank() <= base.Rank()
      && (forall why :: Triggered(fs, why) ==> q.Rank() <= CapOf(why).Rank())
      && (q == base || exists why :: Triggered(fs, why) && q == CapOf(why))
  }

  lemma GradeIsUnique(fs: seq<Factor>, q: Quality, r: Quality)
    requires IsGrade(fs, q) && IsGrade(fs, r)
    ensures q == r
  {
    hide Triggered, WeightedScore, ThresholdGrade;
  }

  /** The caps that would lower a grade, applied one after the other. */
  function Limiting(grade: Quality, whys: seq<Why>): seq<Why> {
    if whys == [] then []
    else
      var earlier := Limiting(grade, whys[..|whys| - 1]);
      var why := whys[|whys| - 1];
      if After(grade, earlier).Rank() > CapOf(why).Rank() then earlier + [why] else earlier
  }

  function After(grade: Quality, limiters: seq<Why>): Quality {
    if limiters == [] then grade else CapOf(limiters[|limiters| - 1])
  }

  /** One more reason tried, if the factor is low enough for it; `hard` shuts out `soft`. */
  function Trying(tried: seq<Why>, f: Option<Factor>, hard: Why, bound: real, soft: Why): seq<Why> {
    if ScoreAtMost(f, 0.0) then tried + [hard]
    else if ScoreBelow(f, bound) then tried + [soft]
    else tried
  }

  function TryingSoft(tried: seq<Why>, f: Option<Factor>, bound: real, soft: Why): seq<Why> {
    if ScoreBelow(f, bound) then tried + [soft] else tried
  }

  /** The caps tried, in the order of the code. */
  function Tried(fs: seq<Factor>): seq<Why> {
    var model := Trying([], ByKey(fs, "model"), NoModel, 0.6, NotChampion);
    var freshness := Trying(model, ByKey(fs, "freshness"), DataExpired, 0.5, DataOld);
    var constraints := TryingSoft(freshness, ByKey(fs, "constraints"), 1.0, ConstraintsUnchecked);
    TryingSoft(constraints, ByKey(fs, "completeness"), 0.75, InputsSubstituted)
  }

  predicate CappedBy(whys: seq<Why>, q: Quality) {
    exists why :: why in whys && q == CapOf(why)
  }

  lemma {:induction false} LimitingIsLowest(grade: Quality, whys: seq<Why>)
    ensures var q := After(grade, Limiting(grade, whys));
            && q.Rank() <= grade.Rank()
            && (forall why :: why in whys ==> q.Rank() <= CapOf(why).Rank())
            && (Limiting(grade, whys) == [] <==> q == grade)
            && (q != grade ==> CappedBy(whys, q))
  {
    if whys != [] {
      var shorter, last := whys[..|whys| - 1], whys[|whys| - 1];
      LimitingIsLowest(grade, shorter);
      hide CapOf;
      assert whys == shorter + [last];
      assert forall why :: why in whys <==> why in shorter || why == last;
      assert CappedBy(shorter, After(grade, Limiting(grade, shorter))) ==>
               CappedBy(whys, After(grade, Limiting(grade, shorter)));
    }
  }

  lemma TryingHas(tried: seq<Why>, f: Option<Factor>, hard: Why, bound: real, soft: Why)
    requires bound > 0.0 && CapOf(hard) == LOW && CapOf(soft) == MEDIUM
    ensures forall w :: w in tried ==> w in Trying(tried, f, hard, bound, soft)
    ensures forall w :: w in Trying(tried, f, hard, bound, soft) ==>
              w in tried || (w == hard && ScoreAtMost(f, 0.0)) || (w == soft && ScoreBelow(f, bound))
    ensures ScoreAtMost(f, 0.0) ==> hard in Trying(tried, f, hard, bound, soft)
    ensures ScoreBelow(f, bound) ==>
              hard in Trying(tried, f, hard, bound, soft) || soft in Trying(tried, f, hard, bound, soft)
  {
  }

  lemma TryingSoftHas(tried: seq<Why>, f: Option<Factor>, bound: real, soft: Why)
    ensures forall w :: w in TryingSoft(tried, f, bound, soft) <==> w in tried || (w == soft && ScoreBelow(f, bound))
  {
  }

  predicate Covered(whys: seq<Why>, why: Why) {
    exists w :: w in whys && CapOf(w).Rank() <= CapOf(why).Rank()
  }

  lemma TriedSuffices(fs: seq<Factor>)
    ensures forall why :: why in Tried(fs) ==> Triggered(fs, why)
    ensures forall why :: Triggered(fs, why) ==> Covered(Tried(fs), why)
  {
    var model := Trying([], ByKey(fs, "model"), NoModel, 0.6, NotChampion);
    var freshness := Trying(model, ByKey(fs, "freshness"), DataExpired, 0.5, DataOld);
    var constraints := TryingSoft(freshness, ByKey(fs, "constraints"), 1.0, ConstraintsUnchecked);
    TryingHas([], ByKey(fs, "model"), NoModel, 0.6, NotChampion);
    TryingHas(model, ByKey(fs, "freshness"), DataExpired, 0.5, DataOld);
    TryingSoftHas(freshness, ByKey(fs, "constraints"), 1.0, ConstraintsUnchecked);
    TryingSoftHas(constraints, ByKey(fs, "completeness"), 0.75, InputsSubstituted);
    hide ByKey, Trying, TryingSoft, ScoreAtMost, ScoreBelow;
    forall why | Triggered(fs, why)
      ensures Covered(Tried(fs), why)
    {
      match why {
        case NotChampion => assert NoModel in Tried(fs) || NotChampion in Tried(fs);
        case DataOld => assert DataExpired in Tried(fs) || DataOld in Tried(fs);
        case _ => assert why in Tried(fs);
      }
    }
  }

  /** Trying the caps one by one, in this or any order, ends at the lowest of them all. */
  lemma TryingGivesTheGrade(fs: seq<Factor>)
    requires fs != []
    ensures var base := ThresholdGrade(WeightedScore(fs));
            var limiters := Limiting(base, Tried(fs));
            IsGrade(fs, After(base, limiters)) && (limiters == [] <==> After(base, limiters) == base)
  {
    TriedSuffices(fs);
    LimitingIsLowest(ThresholdGrade(WeightedScore(fs)), Tried(fs));
    hide Triggered, Tried, Limiting, After, ThresholdGrade, WeightedScore, Quality.Rank;
  }

  // ---------------------------------------------------------------- the code

  /** The closure inside `assess`: it lowers the grade and notes why, or does nothing. */
  method Cap(grade: Quality, limiters: seq<Why>, why: Why, ghost base: Quality, ghost tried: seq<Why>)
    returns (newGrade: Quality, newLimiters: seq<Why>)
    requires limiters == Limiting(base, tried) && grade == After(base, limiters)
    ensures newLimiters == Limiting(base, tried + [why]) && newGrade == After(base, newLimiters)
  {
    newGrade, newLimiters := grade, limiters;
    assert (tried + [why])[..|tried|] == tried;
    if grade.Rank() > CapOf(why).Rank() {
      newGrade := CapOf(why);
      newLimiters := limiters + [why];
    }
  }

  /** Either the harder of two caps or the softer one. */
  method CapFactor(grade: Quality, limiters: seq<Why>, f: Option<Factor>, hard: Why, bound: real, soft: Why,
                   ghost base: Quality, ghost tried: seq<Why>)
    returns (newGrade: Quality, newLimiters: seq<Why>)
    requires limiters == Limiting(base, tried) && grade == After(base, limiters)
    ensures newLimiters == Limiting(base, Trying(tried, f, hard, bound, soft)) && newGrade == After(base, newLimiters)
  {
    newGrade, newLimiters := grade, limiters;
    if f.Some? && f.value.score <= 0.0 {
      newGrade, newLimiters := Cap(grade, limiters, hard, base, tried);
    } else if f.Some? && f.value.score < bound {
      newGrade, newLimiters := Cap(grade, limiters, soft, base, tried);
    }
  }

  method CapSoft(grade: Quality, limiters: seq<Why>, f: Option<Factor>, bound: real, soft: Why,
                 ghost base: Quality, ghost tried: seq<Why>)
    returns (newGrade: Quality, newLimiters: seq<Why>)
    requires limiters == Limiting(base, tried) && grade == After(base, limiters)
    ensures newLimiters == Limiting(base, TryingSoft(tried, f, bound, soft)) && newGrade == After(base, newLimiters)
  {
    newGrade, newLimiters := grade, limiters;
    if f.Some? && f.value.score < bound {
      newGrade, newLimiters := Cap(grade, limiters, soft, base, tried);
    }
  }

  /** `None` for the limiters stands for the single note that nothing was measured. */
  method Assess(fs: seq<Factor>) returns (quality: Quality, limiters: Option<seq<Why>>)
    ensures IsGrade(fs, quality)
    ensures limiters.None? <==> fs == []
    ensures fs != [] ==>
              limiters.value == Limiting(ThresholdGrade(WeightedScore(fs)), Tried(fs)) &&
              (limiters.value == [] <==> quality == ThresholdGrade(WeightedScore(fs)))
  {
    if fs == [] {
      return UNAVAILABLE, None;
    }
    TryingGivesTheGrade(fs);
    var base := ThresholdGrade(WeightedScore(fs));
    var grade, notes := base, [];
    hide IsGrade, ThresholdGrade, WeightedScore, ByKey, Trying, TryingSoft;
    ghost var tried := [];
    var model := ByKey(fs, "model");
    grade, notes := CapFactor(grade, notes, model, NoModel, 0.6, NotChampion, base, tried);
    tried := Trying(tried, model, NoModel, 0.6, NotChampion);
    var freshness := ByKey(fs, "freshness");
    grade, notes := CapFactor(grade, notes, freshness, DataExpired, 0.5, DataOld, base, tried);
    tried := Trying(tried, freshness, DataExpired, 0.5, DataOld);
    var constraints := ByKey(fs, "constraints");
    grade, notes := CapSoft(grade, notes, constraints, 1.0, ConstraintsUnchecked, base, tried);
    tried := TryingSoft(tried, constraints, 1.0, ConstraintsUnchecked);
    var completeness := ByKey(fs, "completeness");
    grade, notes := CapSoft(grade, notes, completeness, 0.75, InputsSubstituted, base, tried);
    return grade, Some(notes);
  }

  /** Every note lowered the grade strictly, so there are never more than two. */
  lemma {:induction false} LimitersDescend(grade: Quality, whys: seq<Why>)
    ensures var l := Limiting(grade, whys);
            && (forall i :: 0 <= i < |l| ==> l[i] in whys && CapOf(l[i]).Rank() < After(grade, l[..i]).Rank())
            && |l| <= grade.Rank() - After(grade, l).Rank()
            && |l| <= 2
  {
    if whys != [] {
      var earlier, l := Limiting(grade, whys[..|whys| - 1]), Limiting(grade, whys);
      LimitersDescend(grade, whys[..|whys| - 1]);
      hide Limiting;
      if l != earlier {
        assert l[..|earlier|] == earlier;
        assert forall i :: 0 <= i <= |earlier| ==> l[..i] == earlier[..i];
      }
    }
  }

  // ---------------------------------------------------------------- order of the factors

  predicate OneFactorPerKey(fs: seq<Factor>) {
    forall f, g :: f in fs && g in fs && f.key == g.key ==> f == g
  }

  lemma {:induction false} ByKeyFinds(fs: seq<Factor>, key: string)
    ensures ByKey(fs, key).Some? ==> ByKey(fs, key).value in fs && ByKey(fs, key).value.key == key
    ensures ByKey(fs, key).None? ==> forall f :: f in fs ==> f.key != key
  {
    if fs != [] {
      ByKeyFinds(fs[..|fs| - 1], key);
      assert fs == fs[..|fs| - 1] + [fs[|fs| - 1]];
    }
  }

  lemma {:induction false} SumsWithout(fs: seq<Factor>, i: nat)
    requires i < |fs|
    ensures TotalWeight(fs) == TotalWeight(fs[..i] + fs[i + 1..]) + fs[i].weight
    ensures Contributions(fs) == Contributions(fs[..i] + fs[i + 1..]) + fs[i].Contribution()
  {
    hide Factor.Contribution;
    var n := |fs| - 1;
    var rest := fs[..i] + fs[i + 1..];
    if i == n {
      assert rest == fs[..n];
    } else {
      SumsWithout(fs[..n], i);
      assert rest[..n - 1] == fs[..n][..i] + fs[..n][i + 1..];
      assert rest[n - 1] == fs[n];
    }
  }

  lemma RemoveOne(fs: seq<Factor>, i: nat)
    requires i < |fs|
    ensures multiset(fs[..i] + fs[i + 1..]) == multiset(fs) - multiset{fs[i]}
  {
    assert fs == fs[..i] + [fs[i]] + fs[i + 1..];
  }

  lemma Find(fs: seq<Factor>, gs: seq<Factor>, x: Factor) returns (i: nat)
    requires multiset(fs) == multiset(gs) && x in fs
    ensures i < |gs| && gs[i] == x
  {
    assert x in multiset(fs);
    i :| i < |gs| && gs[i] == x;
  }

  lemma {:induction false} SumsIgnoreOrder(fs: seq<Factor>, gs: seq<Factor>)
    requires multiset(fs) == multiset(gs)
    ensures TotalWeight(fs) == TotalWeight(gs) && Contributions(fs) == Contributions(gs)
    decreases |fs|
  {
    assert |multiset(fs)| == |fs| && |multiset(gs)| == |gs|;
    if fs == [] {
      assert gs == [];
    } else {
      hide TotalWeight, Contributions, Factor.Contribution;
      var i := Find(fs, gs, fs[0]);
      var rest, others := fs[..0] + fs[0 + 1..], gs[..i] + gs[i + 1..];
      assert multiset(rest) == multiset(others) by {
        RemoveOne(fs, 0);
        RemoveOne(gs, i);
      }
      SumsIgnoreOrder(rest, others);
      SumsWithout(fs, 0);
      SumsWithout(gs, i);
    }
  }

  lemma SameByKey(fs: seq<Factor>, gs: seq<Factor>, key: string)
    requires multiset(fs) == multiset(gs) && OneFactorPerKey(fs)
    ensures ByKey(fs, key) == ByKey(gs, key)
  {
    ByKeyFinds(fs, key);
    ByKeyFinds(gs, key);
    forall f
      ensures f in fs <==> f in gs
    {
      assert f in multiset(fs) <==> f in multiset(gs);
    }
  }

  /** Listing the factors in another order changes neither the grade nor a single note. */
  lemma OrderDoesNotMatter(fs: seq<Factor>, gs: seq<Factor>, q: Quality)
    requires multiset(fs) == multiset(gs) && OneFactorPerKey(fs) && IsGrade(fs, q)
    ensures IsGrade(gs, q) && Tried(fs) == Tried(gs) && WeightedScore(fs) == WeightedScore(gs)
  {
    SumsIgnoreOrder(fs, gs);
    assert |multiset(fs)| == |fs| && |multiset(gs)| == |gs|;
    SameByKey(fs, gs, "model");
    SameByKey(fs, gs, "freshness");
    SameByKey(fs, gs, "constraints");
    SameByKey(fs, gs, "completeness");
    hide ByKey, ThresholdGrade, OneFactorPerKey, Trying, TryingSoft, Contributions, TotalWeight;
    assert forall why :: Triggered(fs, why) == Triggered(gs, why);
    hide Triggered, WeightedScore;
  }

  // ---------------------------------------------------------------- monotone

  /** Same keys and weights, no weight negative, no score lower. */
  predicate Raised(fs: seq<Factor>, gs: seq<Factor>) {
    && |fs| == |gs|
    && forall i :: 0 <= i < |fs| ==>
         fs[i].key == gs[i].key && 0.0 <= fs[i].weight == gs[i].weight && fs[i].score <= gs[i].score
  }

  lemma ProductMonotone(x: real, y: real, w: real)
    requires x <= y && 0.0 <= w
    ensures x * w <= y * w
  {
    assert 0.0 <= (y - x) * w;
  }

  lemma QuotientMonotone(x: real, y: real, w: real)
    requires x <= y && 0.0 < w
    ensures x / w <= y / w
  {
    ProductMonotone(x, y, 1.0 / w);
    assert x * (1.0 / w) == x / w && y * (1.0 / w) == y / w;
  }

  lemma {:induction false} SumsMonotone(fs: seq<Factor>, gs: seq<Factor>)
    requires Raised(fs, gs)
    ensures TotalWeight(fs) == TotalWeight(gs) && Contributions(fs) <= Contributions(gs)
  {
    if fs != [] {
      var n := |fs| - 1;
      SumsMonotone(fs[..n], gs[..n]);
      ProductMonotone(fs[n].score, gs[n].score, fs[n].weight);
    }
  }

  lemma ScoreMonotone(fs: seq<Factor>, gs: seq<Factor>)
    requires Raised(fs, gs)
    ensures WeightedScore(fs) <= WeightedScore(gs)
  {
    SumsMonotone(fs, gs);
    if TotalWeight(fs) > 0.0 {
      QuotientMonotone(Contributions(fs), Contributions(gs), TotalWeight(fs));
    }
  }

  lemma {:induction false} ByKeyMonotone(fs: seq<Factor>, gs: seq<Factor>, key: string)
    requires Raised(fs, gs)
    ensures ByKey(fs, key).Some? <==> ByKey(gs, key).Some?
    ensures ByKey(fs, key).Some? ==> ByKey(fs, key).value.score <= ByKey(gs, key).value.score
  {
    if fs != [] {
      ByKeyMonotone(fs[..|fs| - 1], gs[..|gs| - 1], key);
    }
  }

  /** A reason that holds after raising scores held before. */
  lemma TriggersShrink(fs: seq<Factor>, gs: seq<Factor>, why: Why)
    requires Raised(fs, gs) && Triggered(gs, why)
    ensures Triggered(fs, why)
  {
    ByKeyMonotone(fs, gs, "model");
    ByKeyMonotone(fs, gs, "freshness");
    ByKeyMonotone(fs, gs, "constraints");
    ByKeyMonotone(fs, gs, "completeness");
  }

  /** Better scores never lower the grade, in spite of the caps. */
  lemma GradeMonotone(fs: seq<Factor>, gs: seq<Factor>, q: Quality, r: Quality)
    requires Raised(fs, gs) && IsGrade(fs, q) && IsGrade(gs, r)
    ensures q.Rank() <= r.Rank()
  {
    if fs != [] {
      ScoreMonotone(fs, gs);
      if r != ThresholdGrade(WeightedScore(gs)) {
        var why :| Triggered(gs, why) && r == CapOf(why);
        TriggersShrink(fs, gs, why);
      }
    }
  }

  // ---------------------------------------------------------------- the five measured factors

  datatype Freshness = LIVE | RECENT | STALE | EXPIRED

  function FromAge(seconds: Option<real>): Freshness {
    if seconds.None? || seconds.value < 0.0 then EXPIRED
    else if seconds.value < 900.0 then LIVE
    else if seconds.value < 7200.0 then RECENT
    else if seconds.value < 86400.0 then STALE
    else EXPIRED
  }

  function FreshnessFactor(f: Freshness): Factor {
    Factor("freshness", match f case LIVE => 1.0 case RECENT => 0.75 case STALE => 0.35 case EXPIRED => 0.0, 1.4)
  }

  function Clamped(x: real): real {
    if x < 0.0 then 0.0 else if x > 1.0 then 1.0 else x
  }

  function CompletenessFactor(present: int, required: int): Factor {
    Factor("completeness", if required <= 0 then 0.0 else Clamped(present as real / required as real), 1.2)
  }

  datatype Serving = NoneServing | Synced | Unsynced | Unreported

  function ModelFactor(s: Serving): Factor {
    Factor("model", match s case NoneServing => 0.0 case Synced => 1.0 case Unsynced => 0.55 case Unreported => 0.7,
      1.5)
  }

  function HistoricalFactor(cases: int): Factor {
    Factor("history", if cases <= 0 then 0.0 else if cases < 3 then 0.3 else if cases < 12 then 0.7 else 1.0, 0.8)
  }

  function ConstraintFactor(evaluated: int, relevant: int): Factor {
    Factor("constraints", if relevant <= 0 then 1.0 else Clamped(evaluated as real / relevant as real), 1.3)
  }

  datatype Measured = Measured(
    age: Option<real>, present: int, required: int, serving: Serving, cases: int, evaluated: int, relevant: int)

  function FactorsOf(m: Measured): seq<Factor> {
    [FreshnessFactor(FromAge(m.age)), CompletenessFactor(m.present, m.required), ModelFactor(m.serving),
     HistoricalFactor(m.cases), ConstraintFactor(m.evaluated, m.relevant)]
  }

  predicate NoOlder(a: Option<real>, b: Option<real>) {
    a.Some? && a.value >= 0.0 ==> b.Some? && 0.0 <= b.value <= a.value
  }

  function ServingRank(s: Serving): nat {
    match s
    case NoneServing => 0
    case Unsynced => 1
    case Unreported => 2
    case Synced => 3
  }

  /** Fresher data, more of the same inputs, a better serving state, more cases, more of the
      same constraints checked. */
  predicate AtLeast(m: Measured, n: Measured) {
    && NoOlder(m.age, n.age) && m.present <= n.present && m.required == n.required
    && ServingRank(m.serving) <= ServingRank(n.serving) && m.cases <= n.cases
    && m.evaluated <= n.evaluated && m.relevant == n.relevant
  }

  lemma RatioMonotone(x: int, y: int, d: int)
    requires x <= y && d > 0
    ensures Clamped(x as real / d as real) <= Clamped(y as real / d as real)
  {
    QuotientMonotone(x as real, y as real, d as real);
  }

  /** From raw measurements to grade: better support never gives a worse grade. */
  lemma MoreSupportNeverHurts(m: Measured, n: Measured, q: Quality, r: Quality)
    requires AtLeast(m, n) && IsGrade(FactorsOf(m), q) && IsGrade(FactorsOf(n), r)
    ensures q.Rank() <= r.Rank()
  {
    if m.required > 0 {
      RatioMonotone(m.present, n.present, m.required);
    }
    if m.relevant > 0 {
      RatioMonotone(m.evaluated, n.evaluated, m.relevant);
    }
    assert Raised(FactorsOf(m), FactorsOf(n)) by {
      hide Clamped;
    }
    GradeMonotone(FactorsOf(m), FactorsOf(n), q, r);
  }

  // ---------------------------------------------------------------- the grade from raw measurements

  /** Points out of 6.2, factor by factor. */
  function FreshnessPoints(age: Option<real>): real {
    if age.None? || age.value < 0.0 || age.value >= 86400.0 then 0.0
    else if age.value < 900.0 then 1.4
    else if age.value < 7200.0 then 1.05
    else 0.49
  }

  function ModelPoints(s: Serving): real {
    if s == Synced then 1.5 else if s == Unreported then 1.05 else if s == Unsynced then 0.825 else 0.0
  }

  function HistoryPoints(cases: int): real {
    if cases >= 12 then 0.8 else if cases >= 3 then 0.56 else if cases >= 1 then 0.24 else 0.0
  }

  function CompletenessPoints(present: int, required: int): real {
    if required <= 0 || present <= 0 then 0.0
    else if present >= required then 1.2
    else 1.2 * (present as real / required as real)
  }

  function ConstraintPoints(evaluated: int, relevant: int): real {
    if relevant <= 0 || evaluated >= relevant then 1.3
    else if evaluated <= 0 then 0.0
    else 1.3 * (evaluated as real / relevant as real)
  }

  function Points(m: Measured): real {
    FreshnessPoints(m.age) + CompletenessPoints(m.present, m.required) + ModelPoints(m.serving)
    + HistoryPoints(m.cases) + ConstraintPoints(m.evaluated, m.relevant)
  }

  lemma RatioAgainst(p: int, d: int, a: int, b: int)
    requires d > 0 && b > 0
    ensures p as real / d as real >= a as real / b as real <==> b * p >= a * d
  {
    var x, y := p as real / d as real, a as real / b as real;
    var n := d as real * b as real;
    assert x * n == p as real * b as real && y * n == a as real * d as real;
    assert (b * p) as real == p as real * b as real && (a * d) as real == a as real * d as real;
    if x >= y {
      ProductMonotone(y, x, n);
    } else {
      assert (y - x) * n > 0.0;
    }
  }

  lemma ClampedShare(p: int, d: int)
    requires d > 0
    ensures Clamped(p as real / d as real) ==
            if p <= 0 then 0.0 else if p >= d then 1.0 else p as real / d as real
  {
    RatioAgainst(p, d, 0, 1);
    RatioAgainst(p, d, 1, 1);
  }

  lemma FivePoints(m: Measured)
    ensures FreshnessFactor(FromAge(m.age)).Contribution() == FreshnessPoints(m.age)
    ensures CompletenessFactor(m.present, m.required).Contribution() == CompletenessPoints(m.present, m.required)
    ensures ModelFactor(m.serving).Contribution() == ModelPoints(m.serving)
    ensures HistoricalFactor(m.cases).Contribution() == HistoryPoints(m.cases)
    ensures ConstraintFactor(m.evaluated, m.relevant).Contribution() == ConstraintPoints(m.evaluated, m.relevant)
  {
    if m.required > 0 {
      ClampedShare(m.present, m.required);
    }
    if m.relevant > 0 {
      ClampedShare(m.evaluated, m.relevant);
    }
    hide Clamped;
  }

  lemma FirstOf(fs: seq<Factor>, n: nat, key: string)
    requires n < |fs|
    ensures TotalWeight(fs[..n + 1]) == TotalWeight(fs[..n]) + fs[n].weight
    ensures Contributions(fs[..n + 1]) == Contributions(fs[..n]) + fs[n].Contribution()
    ensures ByKey(fs[..n + 1], key) == if fs[n].key == key then Some(fs[n]) else ByKey(fs[..n], key)
  {
    assert fs[..n + 1][..n] == fs[..n];
  }

  lemma FiveFactors(fs: seq<Factor>, key: string)
    requires |fs| == 5
    ensures TotalWeight(fs) == fs[0].weight + fs[1].weight + fs[2].weight + fs[3].weight + fs[4].weight
    ensures Contributions(fs) == fs[0].Contribution() + fs[1].Contribution() + fs[2].Contribution()
                                 + fs[3].Contribution() + fs[4].Contribution()
    ensures ByKey(fs, key) ==
            if fs[4].key == key then Some(fs[4]) else if fs[3].key == key then Some(fs[3])
            else if fs[2].key == key then Some(fs[2]) else if fs[1].key == key then Some(fs[1])
            else if fs[0].key == key then Some(fs[0]) else None
  {
    FirstOf(fs, 0, key);
    FirstOf(fs, 1, key);
    FirstOf(fs, 2, key);
    FirstOf(fs, 3, key);
    FirstOf(fs, 4, key);
    hide Factor.Contribution;
    assert fs[..5] == fs && fs[..0] == [];
  }

  lemma ScoreIsPoints(m: Measured)
    ensures WeightedScore(FactorsOf(m)) == Points(m) / 6.2
  {
    hide Factor.Contribution, TotalWeight, Contributions, Clamped, FromAge;
    FiveFactors(FactorsOf(m), "model");
    FivePoints(m);
    assert TotalWeight(FactorsOf(m)) == 6.2;
  }

  lemma FactorsByKey(m: Measured)
    ensures var fs := FactorsOf(m);
            && ByKey(fs, "model") == Some(ModelFactor(m.serving))
            && ByKey(fs, "freshness") == Some(FreshnessFactor(FromAge(m.age)))
            && ByKey(fs, "constraints") == Some(ConstraintFactor(m.evaluated, m.relevant))
            && ByKey(fs, "completeness") == Some(CompletenessFactor(m.present, m.required))
  {
    FiveFactors(FactorsOf(m), "model");
    FiveFactors(FactorsOf(m), "freshness");
    FiveFactors(FactorsOf(m), "constraints");
    FiveFactors(FactorsOf(m), "completeness");
    hide FromAge, Clamped, ByKey;
  }

  /** The lowest caps, in raw terms. */
  predicate LowCap(m: Measured) {
    m.serving == NoneServing || m.age.None? || m.age.value < 0.0 || m.age.value >= 86400.0
  }

  /** Nothing caps the grade: a model that may be the champion, data under two hours old, every
      constraint checked, three quarters of the inputs there. */
  predicate Uncapped(m: Measured) {
    && (m.serving == Synced || m.serving == Unreported)
    && m.age.Some? && 0.0 <= m.age.value < 7200.0
    && (m.relevant <= 0 || m.evaluated >= m.relevant)
    && m.required > 0 && 4 * m.present >= 3 * m.required
  }

  lemma CapsAre(m: Measured, q: Quality)
    requires IsGrade(FactorsOf(m), q)
    ensures var base := ThresholdGrade(Points(m) / 6.2);
            q == if base.Rank() >= 1 && LowCap(m) then LOW
                 else if base == HIGH && !Uncapped(m) then MEDIUM
                 else base
  {
    ScoreIsPoints(m);
    FactorsByKey(m);
    if m.required > 0 {
      ClampedShare(m.present, m.required);
      RatioAgainst(m.present, m.required, 3, 4);
    }
    if m.relevant > 0 {
      ClampedShare(m.evaluated, m.relevant);
      RatioAgainst(m.evaluated, m.relevant, 1, 1);
    }
    hide ByKey, WeightedScore, FactorsOf, Clamped, Points;
    var fs := FactorsOf(m);
    assert LowCap(m) <==> Triggered(fs, NoModel) || Triggered(fs, DataExpired);
    assert Uncapped(m) ==> forall why :: !Triggered(fs, why);
    assert !Uncapped(m) ==>
             Triggered(fs, NotChampion) || Triggered(fs, DataOld) || Triggered(fs, ConstraintsUnchecked)
             || Triggered(fs, InputsSubstituted);
    hide Triggered, Uncapped, LowCap, ThresholdGrade;
  }

  /** What it takes beyond the caps: a champion on live data needs no more; otherwise past cases and
      inputs have to make up for it. */
  predicate Ample(m: Measured)
    requires m.age.Some?
  {
    var live := m.age.value < 900.0;
    if m.serving == Synced && live then true
    else if m.serving == Synced then m.cases >= 3 || (m.cases >= 1 && 600 * m.present >= 497 * m.required)
    else if live then m.cases >= 3 || (m.cases >= 1 && 600 * m.present >= 547 * m.required)
    else m.cases >= 12 || (m.cases >= 3 && 300 * m.present >= 281 * m.required)
  }

  lemma AmpleIff(m: Measured)
    requires Uncapped(m)
    ensures Points(m) >= 5.084 <==> Ample(m)
  {
    RatioAgainst(m.present, m.required, 3, 4);
    RatioAgainst(m.present, m.required, 497, 600);
    RatioAgainst(m.present, m.required, 547, 600);
    RatioAgainst(m.present, m.required, 281, 300);
    RatioAgainst(m.present, m.required, 1, 1);
    var share := if m.present >= m.required then 1.0 else m.present as real / m.required as real;
    assert CompletenessPoints(m.present, m.required) == 1.2 * share;
    hide CompletenessPoints;
  }

  /** The whole grading, from measurements to grade, as exact conditions on the measurements. */
  lemma GradeFromMeasurements(m: Measured, q: Quality)
    requires IsGrade(FactorsOf(m), q)
    ensures q == HIGH <==> Uncapped(m) && Ample(m)
    ensures q == UNAVAILABLE <==> Points(m) < 1.55
    ensures q == LOW <==> Points(m) >= 1.55 && (Points(m) < 3.41 || LowCap(m))
  {
    CapsAre(m, q);
    if Uncapped(m) {
      AmpleIff(m);
    }
    hide IsGrade, Points, Ample;
  }

  // ---------------------------------------------------------------- the notes

  /** The notes, by cases: the first cap that bites is noted, and a cap to LOW after one to MEDIUM. */
  lemma NotesAre(fs: seq<Factor>)
    ensures var base := ThresholdGrade(WeightedScore(fs));
            var (noModel, expired) := (Triggered(fs, NoModel), Triggered(fs, DataExpired));
            Limiting(base, Tried(fs)) ==
            if base.Rank() <= 1 then []
            else if noModel then [NoModel]
            else if base == HIGH && Triggered(fs, NotChampion) then
              [NotChampion] + (if expired then [DataExpired] else [])
            else if expired then [DataExpired]
            else if base == MEDIUM then []
            else if Triggered(fs, DataOld) then [DataOld]
            else if Triggered(fs, ConstraintsUnchecked) then [ConstraintsUnchecked]
            else if Triggered(fs, InputsSubstituted) then [InputsSubstituted]
            else []
  {
    hide Limiting, After, WeightedScore, ThresholdGrade, ByKey, Trying, TryingSoft;
    var base := ThresholdGrade(WeightedScore(fs));
    var model := Trying([], ByKey(fs, "model"), NoModel, 0.6, NotChampion);
    var freshness := Trying(model, ByKey(fs, "freshness"), DataExpired, 0.5, DataOld);
    var constraints := TryingSoft(freshness, ByKey(fs, "constraints"), 1.0, ConstraintsUnchecked);
    AllNoted(base);
    TryingNotes(base, [], ByKey(fs, "model"), NoModel, 0.6, NotChampion);
    TryingNotes(base, model, ByKey(fs, "freshness"), DataExpired, 0.5, DataOld);
    TryingSoftNotes(base, freshness, ByKey(fs, "constraints"), 1.0, ConstraintsUnchecked);
    TryingSoftNotes(base, constraints, ByKey(fs, "completeness"), 0.75, InputsSubstituted);
  }

  function Noted(grade: Quality, notes: seq<Why>, why: Why): seq<Why> {
    if After(grade, notes).Rank() > CapOf(why).Rank() then notes + [why] else notes
  }

  /** Nothing is noted at first, and what has been noted is noted. */
  lemma AllNoted(grade: Quality)
    ensures Limiting(grade, []) == [] && After(grade, []) == grade
    ensures forall notes, why :: After(grade, notes + [why]) == CapOf(why)
  {
  }

  lemma TryingNotes(grade: Quality, tried: seq<Why>, f: Option<Factor>, hard: Why, bound: real, soft: Why)
    ensures var notes := Limiting(grade, tried);
            Limiting(grade, Trying(tried, f, hard, bound, soft)) ==
            if ScoreAtMost(f, 0.0) then Noted(grade, notes, hard)
            else if ScoreBelow(f, bound) then Noted(grade, notes, soft)
            else notes
  {
    assert (tried + [hard])[..|tried|] == tried && (tried + [soft])[..|tried|] == tried;
  }

  lemma TryingSoftNotes(grade: Quality, tried: seq<Why>, f: Option<Factor>, bound: real, soft: Why)
    ensures var notes := Limiting(grade, tried);
            Limiting(grade, TryingSoft(tried, f, bound, soft)) ==
            if ScoreBelow(f, bound) then Noted(grade, notes, soft) else notes
  {
    assert (tried + [soft])[..|tried|] == tried;
  }
}
