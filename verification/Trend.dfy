/** The trend claim on equipment telemetry: a least-squares slope compared with a tenth of the
    spread. In exact arithmetic the verdict depends only on a weighted sum of increments, and
    for monotone series the ten-percent rule never hides a trend until there are 60 readings. */
module Trend {
  import opened Basics

  datatype Verdict = Rising | Falling | Flat

  // ---------------------------------------------------------------- the computation

  function Present(rows: seq<Option<real>>): seq<real> {
    if rows == [] then []
    else (if rows[0].Some? then [rows[0].value] else []) + Present(rows[1..])
  }

  function Sum(v: seq<real>, k: nat): real
    requires k <= |v|
  {
    if k == 0 then 0.0 else Sum(v, k - 1) + v[k - 1]
  }

  /** Sum over the first `k` positions of (i - meanX) * (v[i] - meanY). */
  function CrossSum(v: seq<real>, k: nat, meanX: real, meanY: real): real
    requires k <= |v|
  {
    if k == 0 then 0.0
    else CrossSum(v, k - 1, meanX, meanY) + ((k - 1) as real - meanX) * (v[k - 1] - meanY)
  }

  /** Sum over the first `k` positions of (i - meanX) squared. */
  function SquareSum(k: nat, meanX: real): real {
    if k == 0 then 0.0
    else SquareSum(k - 1, meanX) + ((k - 1) as real - meanX) * ((k - 1) as real - meanX)
  }

  function Largest(v: seq<real>): real
    requires v != []
  {
    if |v| == 1 then v[0]
    else
      var m := Largest(v[..|v| - 1]);
      if v[|v| - 1] > m then v[|v| - 1] else m
  }

  function Smallest(v: seq<real>): real
    requires v != []
  {
    if |v| == 1 then v[0]
    else
      var m := Smallest(v[..|v| - 1]);
      if v[|v| - 1] < m then v[|v| - 1] else m
  }

  function Abs(x: real): real {
    if x < 0.0 then -x else x
  }

  /** The comparison at the end: slope times length against a tenth of the spread. */
  function Judge(num: real, den: real, n: real, range: real): Verdict
    requires den != 0.0
  {
    var slope := num / den;
    var spread := if range == 0.0 then 0.000000001 else range;
    if Abs(slope) * n < spread * 0.10 then Flat
    else if slope > 0.0 then Rising
    else Falling
  }

  function TrendOf(v: seq<real>): Verdict {
    if |v| < 4 then Flat
    else
      var n := |v| as real;
      var meanX := (n - 1.0) / 2.0;
      var meanY := Sum(v, |v|) / n;
      var num := CrossSum(v, |v|, meanX, meanY);
      var den := SquareSum(|v|, meanX);
      if den == 0.0 then Flat else Judge(num, den, n, Largest(v) - Smallest(v))
  }

  function TrendFor(rows: seq<Option<real>>): Verdict {
    TrendOf(Present(rows))
  }

  /** A missing reading anywhere makes no difference; readings without gaps are taken as they are. */
  lemma {:induction false} MissingIsDropped(before: seq<Option<real>>, rest: seq<Option<real>>)
    ensures Present(before + [None] + rest) == Present(before + rest)
    ensures (forall i :: 0 <= i < |before| ==> before[i].Some?) ==>
              |Present(before)| == |before| && forall i :: 0 <= i < |before| ==> Present(before)[i] == before[i].value
  {
    if before == [] {
      assert [] + [None] + rest == [None] + rest && [] + rest == rest;
    } else {
      MissingIsDropped(before[1..], rest);
      assert (before + [None] + rest)[1..] == before[1..] + [None] + rest;
      assert (before + rest)[1..] == before[1..] + rest;
    }
  }

  // ---------------------------------------------------------------- the reference form

  /** Increment number `j` weighted by j(n-j)/2, summed over 1 <= j < k. */
  function Pull(v: seq<real>, k: nat): real
    requires 1 <= k <= |v|
  {
    if k == 1 then 0.0
    else Pull(v, k - 1) + Weight(k - 1, |v|) * (v[k - 1] - v[k - 2])
  }

  function Weight(j: nat, n: nat): real {
    j as real * (n as real - j as real) / 2.0
  }

  // ---------------------------------------------------------------- closed forms

  lemma {:induction false} SquareSumClosed(k: nat, m: real)
    ensures var x := k as real;
            SquareSum(k, m) == x * (x - 1.0) * (2.0 * x - 1.0) / 6.0 - m * x * (x - 1.0) + x * m * m
  {
    if k > 0 {
      SquareSumClosed(k - 1, m);
      SquareStep(k as real, m);
      assert (k - 1) as real == k as real - 1.0;
    }
  }

  lemma SquareStep(x: real, m: real)
    ensures var y := x - 1.0;
            x * (x - 1.0) * (2.0 * x - 1.0) / 6.0 - m * x * (x - 1.0) + x * m * m
            == y * (y - 1.0) * (2.0 * y - 1.0) / 6.0 - m * y * (y - 1.0) + y * m * m + (y - m) * (y - m)
  {
  }

  /** The denominator is n(n^2-1)/12. */
  lemma Denominator(n: nat)
    ensures var x := n as real; SquareSum(n, (x - 1.0) / 2.0) == x * (x * x - 1.0) / 12.0
  {
    SquareSumClosed(n, (n as real - 1.0) / 2.0);
  }

  /** Partial sums of the centred positions: -k(n-k)/2, so they vanish at the end and the
      mean of the readings plays no role. */
  lemma {:induction false} CrossSumClosed(v: seq<real>, k: nat, meanY: real)
    requires 1 <= k <= |v|
    ensures var n := |v|;
            var meanX := (n as real - 1.0) / 2.0;
            CrossSum(v, k, meanX, meanY) == Pull(v, k) - Weight(k, n) * (v[k - 1] - meanY)
  {
    if k == 1 {
      CrossBase(v, meanY);
    } else {
      CrossSumClosed(v, k - 1, meanY);
      CrossStep(v, k, meanY);
    }
  }

  lemma CrossBase(v: seq<real>, meanY: real)
    requires v != []
    ensures CrossSum(v, 1, (|v| as real - 1.0) / 2.0, meanY) == Pull(v, 1) - Weight(1, |v|) * (v[0] - meanY)
  {
    hide Weight;
    WeightEnds(|v|);
    var m, d := (|v| as real - 1.0) / 2.0, v[0] - meanY;
    assert CrossSum(v, 1, m, meanY) == CrossSum(v, 0, m, meanY) + (0.0 - m) * d;
    assert (0.0 - m) * d == -(m * d);
  }

  lemma CrossStep(v: seq<real>, k: nat, meanY: real)
    requires 2 <= k <= |v|
    requires CrossSum(v, k - 1, (|v| as real - 1.0) / 2.0, meanY) ==
             Pull(v, k - 1) - Weight(k - 1, |v|) * (v[k - 2] - meanY)
    ensures CrossSum(v, k, (|v| as real - 1.0) / 2.0, meanY) == Pull(v, k) - Weight(k, |v|) * (v[k - 1] - meanY)
  {
    hide Weight;
    var n, meanX := |v|, (|v| as real - 1.0) / 2.0;
    var c := (k - 1) as real - meanX;
    WeightStep(k, n);
    Regroup(Pull(v, k - 1), Weight(k - 1, n), Weight(k, n), v[k - 2], v[k - 1], meanY, c);
  }

  lemma WeightEnds(n: nat)
    ensures Weight(1, n) == (n as real - 1.0) / 2.0 && Weight(n, n) == 0.0
  {
  }

  lemma WeightStep(k: nat, n: nat)
    requires k >= 1
    ensures (k - 1) as real - (n as real - 1.0) / 2.0 == Weight(k - 1, n) - Weight(k, n)
  {
    var x, y := k as real, n as real;
    assert (k - 1) as real == x - 1.0;
    assert Weight(k - 1, n) == (x - 1.0) * (y - x + 1.0) / 2.0;
    assert (x - 1.0) * (y - x + 1.0) == x * (y - x) + x - (y - x) - 1.0;
  }

  lemma Regroup(p: real, w: real, w': real, a: real, b: real, m: real, c: real)
    requires c == w - w'
    ensures p - w * (a - m) + c * (b - m) == p + w * (b - a) - w' * (b - m)
  {
    assert c * (b - m) == w * (b - m) - w' * (b - m);
    assert w * (b - a) == w * (b - m) - w * (a - m);
  }

  /** The numerator of the slope is the weighted sum of increments. */
  lemma Numerator(v: seq<real>, meanY: real)
    requires v != []
    ensures CrossSum(v, |v|, (|v| as real - 1.0) / 2.0, meanY) == Pull(v, |v|)
  {
    CrossSumClosed(v, |v|, meanY);
    WeightEnds(|v|);
  }

  // ---------------------------------------------------------------- the exact verdict

  lemma {:induction false} Extremes(v: seq<real>)
    requires v != []
    ensures forall i :: 0 <= i < |v| ==> Smallest(v) <= v[i] <= Largest(v)
    ensures Smallest(v) in v && Largest(v) in v
  {
    if |v| > 1 {
      var u := v[..|v| - 1];
      Extremes(u);
      assert v == u + [v[|v| - 1]];
    }
  }

  ghost predicate Constant(v: seq<real>) {
    forall i, j :: 0 <= i < |v| && 0 <= j < |v| ==> v[i] == v[j]
  }

  lemma {:induction false} ConstantPull(v: seq<real>, k: nat)
    requires 1 <= k <= |v| && Constant(v)
    ensures Pull(v, k) == 0.0
  {
    if k > 1 {
      ConstantPull(v, k - 1);
    }
  }

  /** The verdict on any series of at least four readings: compare the weighted sum of
      increments, 120-fold, with the spread times n^2 - 1. A constant series is flat. */
  lemma ExactVerdict(v: seq<real>)
    requires |v| >= 4
    ensures var n := |v| as real;
            var bar := (Largest(v) - Smallest(v)) * (n * n - 1.0);
            && (Constant(v) ==> TrendOf(v) == Flat)
            && (!Constant(v) ==>
                  && (TrendOf(v) == Rising <==> 120.0 * Pull(v, |v|) >= bar)
                  && (TrendOf(v) == Falling <==> 120.0 * Pull(v, |v|) <= -bar))
  {
    hide SquareSum, CrossSum, Sum, Largest, Smallest, Pull, Judge, Constant;
    var n := |v| as real;
    Cube(n);
    Denominator(|v|);
    Numerator(v, Sum(v, |v|) / n);
    SpreadSign(v);
    var den := n * (n * n - 1.0) / 12.0;
    assert SquareSum(|v|, (n - 1.0) / 2.0) == den;
    assert CrossSum(v, |v|, (n - 1.0) / 2.0, Sum(v, |v|) / n) == Pull(v, |v|);
    assert TrendOf(v) == Judge(Pull(v, |v|), den, n, Largest(v) - Smallest(v));
    if Constant(v) {
      ConstantPull(v, |v|);
      JudgeConstant(n, n * (n * n - 1.0) / 12.0);
    } else {
      JudgeExact(Pull(v, |v|), n, n * (n * n - 1.0) / 12.0, Largest(v) - Smallest(v));
    }
  }

  lemma Cube(n: real)
    requires n >= 4.0
    ensures n * (n * n - 1.0) / 12.0 > 0.0
  {
    assert n * n >= 16.0;
    assert n * (n * n - 1.0) >= 4.0 * 15.0;
  }

  lemma SpreadSign(v: seq<real>)
    requires v != []
    ensures Largest(v) - Smallest(v) >= 0.0
    ensures Constant(v) <==> Largest(v) - Smallest(v) == 0.0
  {
    Extremes(v);
  }

  lemma JudgeConstant(n: real, den: real)
    requires den > 0.0
    ensures Judge(0.0, den, n, 0.0) == Flat
  {
    assert 0.0 / den == 0.0;
  }

  lemma JudgeExact(num: real, n: real, den: real, range: real)
    requires n >= 4.0 && den == n * (n * n - 1.0) / 12.0 && den > 0.0 && range > 0.0
    ensures Judge(num, den, n, range) == Rising <==> 120.0 * num >= range * (n * n - 1.0)
    ensures Judge(num, den, n, range) == Falling <==> 120.0 * num <= -(range * (n * n - 1.0))
  {
    SlopeBar(num, n, den, range);
  }

  /** |num/den| * n against a tenth of the range, with the denominator written out. */
  lemma SlopeBar(num: real, n: real, den: real, range: real)
    requires n >= 4.0 && den == n * (n * n - 1.0) / 12.0 && den > 0.0 && range > 0.0
    ensures var slope := num / den;
            && (slope > 0.0 <==> num > 0.0)
            && (slope < 0.0 <==> num < 0.0)
            && (Abs(slope) * n < range * 0.10 <==> 120.0 * Abs(num) < range * (n * n - 1.0))
            && range * (n * n - 1.0) > 0.0
  {
    var slope, q := num / den, n * n - 1.0;
    assert slope * den == num;
    assert n * n >= 16.0;
    assert q > 0.0;
    assert slope * n * q == 12.0 * num by {
      assert slope * n * q == slope * (n * q);
    }
    Scale(Abs(slope) * n, range * 0.10, q);
    assert Abs(slope) * n * q == 12.0 * Abs(num);
    assert range * 0.10 * q == range * q * 0.10;
    assert range * q > 0.0;
  }

  lemma Scale(a: real, b: real, q: real)
    requires q > 0.0
    ensures a < b <==> a * q < b * q
  {
  }

  // ---------------------------------------------------------------- monotone series

  ghost predicate WeaklyIncreasing(v: seq<real>) {
    forall i, j :: 0 <= i <= j < |v| ==> v[i] <= v[j]
  }

  ghost predicate WeaklyDecreasing(v: seq<real>) {
    forall i, j :: 0 <= i <= j < |v| ==> v[i] >= v[j]
  }

  lemma WeightFloor(j: nat, n: nat)
    requires 1 <= j < n
    ensures Weight(j, n) >= (n as real - 1.0) / 2.0
  {
    var x, y := j as real, n as real;
    MulFloor(x - 1.0, 0.0, y - x - 1.0);
    assert x * (y - x) == (x - 1.0) * (y - x - 1.0) + y - 1.0;
  }

  lemma {:induction false} PullFloor(v: seq<real>, k: nat)
    requires 1 <= k <= |v| && WeaklyIncreasing(v)
    ensures Pull(v, k) >= (|v| as real - 1.0) / 2.0 * (v[k - 1] - v[0])
  {
    hide Weight;
    var c := (|v| as real - 1.0) / 2.0;
    if k > 1 {
      PullFloor(v, k - 1);
      WeightFloor(k - 1, |v|);
      MulFloor(Weight(k - 1, |v|), c, v[k - 1] - v[k - 2]);
      assert c * (v[k - 1] - v[0]) == c * (v[k - 2] - v[0]) + c * (v[k - 1] - v[k - 2]);
    }
  }

  lemma MulFloor(a: real, b: real, d: real)
    requires a >= b && d >= 0.0
    ensures a * d >= b * d
    ensures b == 0.0 ==> a * d >= 0.0
  {
  }

  lemma IncreasingEnds(v: seq<real>)
    requires v != [] && WeaklyIncreasing(v)
    ensures Smallest(v) == v[0] && Largest(v) == v[|v| - 1]
  {
    Extremes(v);
  }

  /** Every weakly increasing, non-constant series of 4 to 59 readings is called rising. */
  lemma RisingIsSeen(v: seq<real>)
    requires 4 <= |v| <= 59 && WeaklyIncreasing(v) && !Constant(v)
    ensures TrendOf(v) == Rising
  {
    hide TrendOf, Pull, Largest, Smallest;
    var n, d := |v| as real, v[|v| - 1] - v[0];
    ExactVerdict(v);
    PullFloor(v, |v|);
    IncreasingEnds(v);
    BarMet(n, d, Pull(v, |v|));
  }

  /** The floor on the weighted sum clears the bar for lengths up to 59 ... */
  lemma BarMet(n: real, d: real, pull: real)
    requires 1.0 <= n <= 59.0 && d >= 0.0 && pull >= (n - 1.0) / 2.0 * d
    ensures 120.0 * pull >= d * (n * n - 1.0)
  {
    var q := (n - 1.0) * d;
    MulFloor(n - 1.0, 0.0, d);
    Factor(n, d);
    Halve(n, d);
    Met(n, q, pull, d * (n * n - 1.0));
  }

  lemma Met(n: real, q: real, pull: real, bar: real)
    requires n <= 59.0 && q >= 0.0 && pull >= q / 2.0 && bar == (n + 1.0) * q
    ensures 120.0 * pull >= bar
  {
    MulFloor(60.0, n + 1.0, q);
  }

  /** ... and a single step at the end meets the floor exactly, so longer series miss the bar. */
  lemma BarTight(n: real, d: real, pull: real)
    requires n > 1.0 && d > 0.0 && pull == (n - 1.0) / 2.0 * d
    ensures 120.0 * pull >= d * (n * n - 1.0) <==> n <= 59.0
    ensures -(d * (n * n - 1.0)) < 120.0 * pull
  {
    var q := (n - 1.0) * d;
    Positive(n - 1.0, d);
    Factor(n, d);
    Halve(n, d);
    Tight(n, q, pull, d * (n * n - 1.0));
  }

  lemma Tight(n: real, q: real, pull: real, bar: real)
    requires n > 1.0 && q > 0.0 && pull == q / 2.0 && bar == (n + 1.0) * q
    ensures 120.0 * pull >= bar <==> n <= 59.0
    ensures -bar < 120.0 * pull
  {
    Scale(60.0, n + 1.0, q);
    Positive(n + 1.0, q);
  }

  lemma Halve(n: real, d: real)
    ensures (n - 1.0) / 2.0 * d == (n - 1.0) * d / 2.0
  {
  }

  lemma Factor(n: real, d: real)
    ensures d * (n * n - 1.0) == (n + 1.0) * ((n - 1.0) * d)
  {
    assert (n + 1.0) * (n - 1.0) == n * n - 1.0;
    assert (n + 1.0) * ((n - 1.0) * d) == ((n + 1.0) * (n - 1.0)) * d;
  }

  function Negate(v: seq<real>): seq<real> {
    seq(|v|, i requires 0 <= i < |v| => -v[i])
  }

  lemma {:induction false} NegatePull(v: seq<real>, k: nat)
    requires 1 <= k <= |v|
    ensures Pull(Negate(v), k) == -Pull(v, k)
  {
    hide Weight;
    if k > 1 {
      NegatePull(v, k - 1);
      var w, d := Weight(k - 1, |v|), v[k - 1] - v[k - 2];
      assert Negate(v)[k - 1] - Negate(v)[k - 2] == -d;
      assert w * -d == -(w * d);
    }
  }

  /** Turning a series upside down turns the verdict upside down. */
  lemma NegateVerdict(v: seq<real>)
    ensures TrendOf(Negate(v)) == match TrendOf(v) case Rising => Falling case Falling => Rising case Flat => Flat
  {
    if |v| >= 4 {
      var u := Negate(v);
      Extremes(v);
      Extremes(u);
      assert Largest(u) == -Smallest(v) && Smallest(u) == -Largest(v) by {
        var i :| 0 <= i < |v| && v[i] == Smallest(v);
        var j :| 0 <= j < |v| && v[j] == Largest(v);
        assert u[i] == -Smallest(v) && u[j] == -Largest(v);
        var k :| 0 <= k < |u| && u[k] == Smallest(u);
        var l :| 0 <= l < |u| && u[l] == Largest(u);
        assert u[k] == -v[k] && u[l] == -v[l];
      }
      assert Constant(u) <==> Constant(v) by {
        SpreadSign(u);
        SpreadSign(v);
      }
      NegatePull(v, |v|);
      NegateFinish(v, u);
    }
  }

  lemma NegateFinish(v: seq<real>, u: seq<real>)
    requires |v| >= 4 && |u| == |v|
    requires Pull(u, |u|) == -Pull(v, |v|) && Largest(u) - Smallest(u) == Largest(v) - Smallest(v)
    requires Constant(u) <==> Constant(v)
    ensures TrendOf(u) == match TrendOf(v) case Rising => Falling case Falling => Rising case Flat => Flat
  {
    hide TrendOf, Pull, Largest, Smallest, Constant;
    ExactVerdict(v);
    ExactVerdict(u);
    SpreadSign(v);
    var n, d := |v| as real, Largest(v) - Smallest(v);
    if !Constant(v) {
      assert n * n >= 16.0;
      assert d * (n * n - 1.0) > 0.0;
    }
  }

  /** Every weakly decreasing, non-constant series of 4 to 59 readings is called falling. */
  lemma FallingIsSeen(v: seq<real>)
    requires 4 <= |v| <= 59 && WeaklyDecreasing(v) && !Constant(v)
    ensures TrendOf(v) == Falling
  {
    hide TrendOf;
    var u := Negate(v);
    assert WeaklyIncreasing(u);
    assert !Constant(u) by {
      var i, j :| 0 <= i < |v| && 0 <= j < |v| && v[i] != v[j];
      assert u[i] != u[j];
    }
    RisingIsSeen(u);
    NegateVerdict(v);
  }

  /** All readings equal but the last, which is `h` higher. */
  function StepAtEnd(n: nat, a: real, h: real): seq<real>
    requires n >= 1
  {
    seq(n - 1, _ => a) + [a + h]
  }

  lemma {:induction false} StepPull(n: nat, a: real, h: real, k: nat)
    requires 1 <= k <= n && n >= 2
    ensures Pull(StepAtEnd(n, a, h), k) == if k == n then (n as real - 1.0) / 2.0 * h else 0.0
  {
    hide Weight;
    if k > 1 {
      StepPull(n, a, h, k - 1);
      WeightNearEnd(n);
    }
  }

  lemma WeightNearEnd(n: nat)
    requires n >= 1
    ensures Weight(n - 1, n) == (n as real - 1.0) / 2.0
  {
    assert (n - 1) as real == n as real - 1.0;
  }

  /** 59 is the last safe length: a single step at the end of n >= 4 readings is reported
      exactly when n is at most 59. */
  lemma StepAtEndVerdict(n: nat, a: real, h: real)
    requires n >= 4 && h > 0.0
    ensures TrendOf(StepAtEnd(n, a, h)) == if n <= 59 then Rising else Flat
  {
    hide TrendOf, Pull, Largest, Smallest;
    var v, x := StepAtEnd(n, a, h), n as real;
    assert v[0] != v[n - 1];
    IncreasingEnds(v);
    ExactVerdict(v);
    StepPull(n, a, h, n);
    BarTight(x, h, Pull(v, n));
  }

  lemma Positive(a: real, b: real)
    requires a > 0.0 && b > 0.0
    ensures a * b > 0.0
  {
  }

  // ---------------------------------------------------------------- the 30-row window

  lemma {:induction false} PresentIsShort(rows: seq<Option<real>>)
    ensures |Present(rows)| <= |rows|
  {
    if rows != [] {
      PresentIsShort(rows[1..]);
    }
  }

  /** On the window that feeds it - at most 30 rows, missing readings dropped - a monotone,
      non-constant feature with at least four readings always gets its trend. */
  lemma WindowTrend(rows: seq<Option<real>>)
    requires |rows| <= 30
    ensures var v := Present(rows);
            && (|v| < 4 || Constant(v) ==> TrendFor(rows) == Flat)
            && (|v| >= 4 && !Constant(v) && WeaklyIncreasing(v) ==> TrendFor(rows) == Rising)
            && (|v| >= 4 && !Constant(v) && WeaklyDecreasing(v) ==> TrendFor(rows) == Falling)
  {
    hide TrendOf;
    var v := Present(rows);
    PresentIsShort(rows);
    if |v| < 4 {
      FewReadings(v);
    } else if Constant(v) {
      ExactVerdict(v);
    } else {
      if WeaklyIncreasing(v) {
        RisingIsSeen(v);
      }
      if WeaklyDecreasing(v) {
        FallingIsSeen(v);
      }
    }
  }

  lemma FewReadings(v: seq<real>)
    requires |v| < 4
    ensures TrendOf(v) == Flat
  {
  }
}
