/** Weighted least squares of the analytics kernel, over exact reals. The exponential is an unknown
    positive function: any positive weights will do. */
module Regression {

  import opened Wrappers

  datatype Point = Point(time: int, usage: real)

  datatype Line = Line(slopePerHour: real, intercept: real, origin: int, r2: real)

  const MS_PER_HOUR := 3600000.0

  // --- products ---

  /** w * d * e for a weight and two deviations. */
  function Term(w: real, d: real, e: real): real { w * d * e }

  lemma TermPositive(w: real, d: real)
    requires w > 0.0 && d > 0.0
    ensures Term(w, d, d) > 0.0
  {
    Product(w, d);
    Product(w * d, d);
  }

  lemma TermEven(w: real, d: real)
    ensures Term(w, d, d) == Term(w, -d, -d)
  {
    assert w * d * d == w * (-d) * (-d);
  }

  lemma TermSign(w: real, d: real)
    requires w > 0.0
    ensures d != 0.0 ==> Term(w, d, d) > 0.0
    ensures d == 0.0 ==> Term(w, d, d) == 0.0
  {
    if d > 0.0 {
      TermPositive(w, d);
    } else if d < 0.0 {
      TermEven(w, d);
      TermPositive(w, -d);
    }
  }

  lemma Product(a: real, b: real)
    requires a > 0.0 && b > 0.0
    ensures a * b > 0.0
  {
  }

  lemma SameProduct(a: real, b: real, t: real)
    requires a * t == b * t && t > 0.0
    ensures a == b
  {
    var d := a - b;
    assert d * t == a * t - b * t;
    if d > 0.0 {
      Product(d, t);
    } else if d < 0.0 {
      Product(-d, t);
    }
  }

  function Times(k: real, x: real): real { k * x }

  lemma TimesAdds(k: real, x: real, y: real)
    ensures Times(k, x + y) == Times(k, x) + Times(k, y)
  {
  }

  lemma Distributes(k: real, x: real, y: real)
    ensures k * (x + y) == k * x + k * y
  {
  }

  // --- sums over the first n points ---

  function Sum(ws: seq<real>, n: nat): real
    requires n <= |ws|
  {
    if n == 0 then 0.0 else Sum(ws, n - 1) + ws[n - 1]
  }

  /** Sum of w * u. */
  function WeightedSum(ws: seq<real>, us: seq<real>, n: nat): real
    requires n <= |ws| == |us|
  {
    if n == 0 then 0.0 else WeightedSum(ws, us, n - 1) + Term(ws[n - 1], us[n - 1], 1.0)
  }

  /** Sum of w * (u - ub). */
  function DeviationSum(ws: seq<real>, us: seq<real>, ub: real, n: nat): real
    requires n <= |ws| == |us|
  {
    if n == 0 then 0.0 else DeviationSum(ws, us, ub, n - 1) + Term(ws[n - 1], us[n - 1] - ub, 1.0)
  }

  /** Sum of w * (u - ub) * (v - vb). */
  function CrossSum(ws: seq<real>, us: seq<real>, ub: real, vs: seq<real>, vb: real, n: nat): real
    requires n <= |ws| == |us| == |vs|
  {
    if n == 0 then 0.0
    else CrossSum(ws, us, ub, vs, vb, n - 1) + Term(ws[n - 1], us[n - 1] - ub, vs[n - 1] - vb)
  }

  /** How far a point lies above the line y = a * x + b. */
  function Residual(x: real, y: real, a: real, b: real): real { y - (a * x + b) }

  function ErrorSum(ws: seq<real>, xs: seq<real>, ys: seq<real>, a: real, b: real, n: nat): real
    requires n <= |ws| == |xs| == |ys|
  {
    if n == 0 then 0.0
    else
      ErrorSum(ws, xs, ys, a, b, n - 1)
      + Term(ws[n - 1], Residual(xs[n - 1], ys[n - 1], a, b), Residual(xs[n - 1], ys[n - 1], a, b))
  }

  /** The weighted sum of squared residuals. */
  function SquaredError(ws: seq<real>, xs: seq<real>, ys: seq<real>, a: real, b: real): real
    requires |ws| == |xs| == |ys|
  {
    ErrorSum(ws, xs, ys, a, b, |ws|)
  }

  predicate Positive(ws: seq<real>) { forall i :: 0 <= i < |ws| ==> ws[i] > 0.0 }

  predicate Constant(us: seq<real>) { forall i :: 0 <= i < |us| ==> us[i] == us[0] }

  lemma {:induction false} SumPositive(ws: seq<real>, n: nat)
    requires n <= |ws| && Positive(ws)
    ensures Sum(ws, n) >= 0.0 && (n > 0 ==> Sum(ws, n) > 0.0)
  {
    if n == 0 {
    } else {
      SumPositive(ws, n - 1);
    }
  }

  lemma {:induction false} SquaresSign(ws: seq<real>, us: seq<real>, ub: real, n: nat)
    requires n <= |ws| == |us| && Positive(ws)
    ensures CrossSum(ws, us, ub, us, ub, n) >= 0.0
    ensures (forall i :: 0 <= i < n ==> us[i] == ub) ==> CrossSum(ws, us, ub, us, ub, n) == 0.0
    ensures (exists i :: 0 <= i < n && us[i] != ub) ==> CrossSum(ws, us, ub, us, ub, n) > 0.0
  {
    hide Term;
    if n == 0 {
    } else {
      SquaresSign(ws, us, ub, n - 1);
      TermSign(ws[n - 1], us[n - 1] - ub);
    }
  }

  lemma {:induction false} ErrorNonNegative(ws: seq<real>, xs: seq<real>, ys: seq<real>, a: real, b: real, n: nat)
    requires n <= |ws| == |xs| == |ys| && Positive(ws)
    ensures ErrorSum(ws, xs, ys, a, b, n) >= 0.0
  {
    hide Term, Residual;
    if n == 0 {
    } else {
      ErrorNonNegative(ws, xs, ys, a, b, n - 1);
      TermSign(ws[n - 1], Residual(xs[n - 1], ys[n - 1], a, b));
    }
  }

  // --- means ---

  function Mean(ws: seq<real>, us: seq<real>): (m: real)
    requires |ws| == |us| && Positive(ws) && us != []
    ensures m * Sum(ws, |ws|) == WeightedSum(ws, us, |ws|)
  {
    SumPositive(ws, |ws|);
    WeightedSum(ws, us, |ws|) / Sum(ws, |ws|)
  }

  lemma DeviationTerm(w: real, u: real, ub: real)
    ensures Term(w, u - ub, 1.0) == Term(w, u, 1.0) - Times(ub, w)
  {
  }

  lemma {:induction false} DeviationIs(ws: seq<real>, us: seq<real>, ub: real, n: nat)
    requires n <= |ws| == |us|
    ensures DeviationSum(ws, us, ub, n) == WeightedSum(ws, us, n) - Times(ub, Sum(ws, n))
  {
    if n == 0 {
    } else {
      hide Term, Times;
      DeviationIs(ws, us, ub, n - 1);
      DeviationTerm(ws[n - 1], us[n - 1], ub);
      TimesAdds(ub, Sum(ws, n - 1), ws[n - 1]);
    }
  }

  lemma MeanDeviationIsZero(ws: seq<real>, us: seq<real>)
    requires |ws| == |us| && Positive(ws) && us != []
    ensures DeviationSum(ws, us, Mean(ws, us), |ws|) == 0.0
  {
    hide Mean, Sum, WeightedSum, DeviationSum;
    DeviationIs(ws, us, Mean(ws, us), |ws|);
  }

  /** Sxx, or SStot. */
  function Spread(ws: seq<real>, us: seq<real>): real
    requires |ws| == |us| && Positive(ws) && us != []
  {
    CrossSum(ws, us, Mean(ws, us), us, Mean(ws, us), |ws|)
  }

  /** Sxy. */
  function CoSpread(ws: seq<real>, us: seq<real>, vs: seq<real>): real
    requires |ws| == |us| == |vs| && Positive(ws) && us != []
  {
    CrossSum(ws, us, Mean(ws, us), vs, Mean(ws, vs), |ws|)
  }

  lemma {:induction false} ConstantSum(ws: seq<real>, us: seq<real>, c: real, n: nat)
    requires n <= |ws| == |us| && forall i :: 0 <= i < n ==> us[i] == c
    ensures WeightedSum(ws, us, n) == Times(c, Sum(ws, n))
  {
    if n == 0 {
    } else {
      ConstantSum(ws, us, c, n - 1);
      TimesAdds(c, Sum(ws, n - 1), ws[n - 1]);
      assert Term(ws[n - 1], c, 1.0) == Times(c, ws[n - 1]);
    }
  }

  lemma ConstantMean(ws: seq<real>, us: seq<real>)
    requires |ws| == |us| && Positive(ws) && us != [] && Constant(us)
    ensures Mean(ws, us) == us[0]
  {
    hide Mean, Sum, WeightedSum;
    ConstantSum(ws, us, us[0], |ws|);
    SumPositive(ws, |ws|);
    SameProduct(Mean(ws, us), us[0], Sum(ws, |ws|));
  }

  /** The spread is zero exactly when all values coincide. */
  lemma SpreadZero(ws: seq<real>, us: seq<real>)
    requires |ws| == |us| && Positive(ws) && us != []
    ensures Constant(us) ==> Spread(ws, us) == 0.0
    ensures !Constant(us) ==> Spread(ws, us) > 0.0
    ensures Spread(ws, us) >= 0.0
  {
    hide Mean, CrossSum;
    SquaresSign(ws, us, Mean(ws, us), |ws|);
    if Constant(us) {
      ConstantMean(ws, us);
    } else {
      var i :| 0 <= i < |us| && us[i] != us[0];
      assert us[i] != Mean(ws, us) || us[0] != Mean(ws, us);
    }
  }

  // --- the shape of the squared error ---

  /** The coefficients of the six sums for a line of slope `a` that passes `c` below the centre. */
  ghost predicate Coefficients(a: real, b: real, xb: real, yb: real, c: real,
                               k1: real, k2: real, k3: real, k4: real, k5: real) {
    && c == yb - a * xb - b
    && k1 == -2.0 * a && k2 == a * a && k3 == c * c && k4 == 2.0 * c && k5 == -2.0 * a * c
  }

  lemma SquareExpands(w: real, dx: real, dy: real, a: real, c: real)
    ensures Term(w, dy - a * dx + c, dy - a * dx + c)
         == Term(w, dy, dy) + Times(-2.0 * a, Term(w, dx, dy)) + Times(a * a, Term(w, dx, dx))
            + Times(c * c, w) + Times(2.0 * c, Term(w, dy, 1.0)) + Times(-2.0 * a * c, Term(w, dx, 1.0))
  {
    var e := dy - a * dx;
    assert w * (e + c) * (e + c) == w * e * e + 2.0 * c * (w * e) + c * c * w;
    assert w * e * e == w * dy * dy - 2.0 * a * (w * dx * dy) + a * a * (w * dx * dx);
    assert 2.0 * c * (w * e) == 2.0 * c * (w * dy) - 2.0 * a * c * (w * dx);
  }

  lemma ResidualCentred(x: real, y: real, a: real, b: real, xb: real, yb: real, c: real)
    requires c == yb - a * xb - b
    ensures Residual(x, y, a, b) == (y - yb) - a * (x - xb) + c
  {
    Distributes(a, x - xb, xb);
  }

  lemma ResidualTerm(w: real, a: real, b: real, x: real, y: real, xb: real, yb: real, c: real,
                     k1: real, k2: real, k3: real, k4: real, k5: real)
    requires Coefficients(a, b, xb, yb, c, k1, k2, k3, k4, k5)
    ensures Term(w, Residual(x, y, a, b), Residual(x, y, a, b))
         == Term(w, y - yb, y - yb) + Times(k1, Term(w, x - xb, y - yb)) + Times(k2, Term(w, x - xb, x - xb))
            + Times(k3, w) + Times(k4, Term(w, y - yb, 1.0)) + Times(k5, Term(w, x - xb, 1.0))
  {
    hide Term, Times, Residual;
    var r, dx, dy := Residual(x, y, a, b), x - xb, y - yb;
    ResidualCentred(x, y, a, b, xb, yb, c);
    assert r == dy - a * dx + c;
    SquareExpands(w, dx, dy, a, c);
    assert Term(w, r, r) == Term(w, dy - a * dx + c, dy - a * dx + c);
    assert Times(k1, Term(w, dx, dy)) == Times(-2.0 * a, Term(w, dx, dy));
    assert Times(k2, Term(w, dx, dx)) == Times(a * a, Term(w, dx, dx));
    assert Times(k3, w) == Times(c * c, w);
    assert Times(k4, Term(w, dy, 1.0)) == Times(2.0 * c, Term(w, dy, 1.0));
    assert Times(k5, Term(w, dx, 1.0)) == Times(-2.0 * a * c, Term(w, dx, 1.0));
  }

  /** The error of any line, written with sums around any centre. */
  lemma {:induction false} ErrorAround(ws: seq<real>, xs: seq<real>, ys: seq<real>, a: real, b: real, xb: real, yb: real,
                                       c: real, k1: real, k2: real, k3: real, k4: real, k5: real, n: nat)
    requires n <= |ws| == |xs| == |ys| && Coefficients(a, b, xb, yb, c, k1, k2, k3, k4, k5)
    ensures ErrorSum(ws, xs, ys, a, b, n)
         == CrossSum(ws, ys, yb, ys, yb, n)
            + Times(k1, CrossSum(ws, xs, xb, ys, yb, n)) + Times(k2, CrossSum(ws, xs, xb, xs, xb, n))
            + Times(k3, Sum(ws, n)) + Times(k4, DeviationSum(ws, ys, yb, n)) + Times(k5, DeviationSum(ws, xs, xb, n))
  {
    if n == 0 {
      return;
    }
    hide Term, Times, Residual, Coefficients;
    ErrorAround(ws, xs, ys, a, b, xb, yb, c, k1, k2, k3, k4, k5, n - 1);
    var w, dx, dy := ws[n - 1], xs[n - 1] - xb, ys[n - 1] - yb;
    ResidualTerm(w, a, b, xs[n - 1], ys[n - 1], xb, yb, c, k1, k2, k3, k4, k5);
    TimesAdds(k1, CrossSum(ws, xs, xb, ys, yb, n - 1), Term(w, dx, dy));
    TimesAdds(k2, CrossSum(ws, xs, xb, xs, xb, n - 1), Term(w, dx, dx));
    TimesAdds(k3, Sum(ws, n - 1), w);
    TimesAdds(k4, DeviationSum(ws, ys, yb, n - 1), Term(w, dy, 1.0));
    TimesAdds(k5, DeviationSum(ws, xs, xb, n - 1), Term(w, dx, 1.0));
  }

  /** Around the weighted means the mixed sums vanish: the error of any line depends on its slope and
      on how far it passes from the point of means. */
  lemma ErrorExpands(ws: seq<real>, xs: seq<real>, ys: seq<real>, a: real, b: real, c: real)
    requires |ws| == |xs| == |ys| && Positive(ws) && xs != []
    requires c == Mean(ws, ys) - a * Mean(ws, xs) - b
    ensures SquaredError(ws, xs, ys, a, b)
         == Spread(ws, ys) + (-2.0 * a) * CoSpread(ws, xs, ys) + (a * a) * Spread(ws, xs) + (c * c) * Sum(ws, |ws|)
  {
    hide Sum, CrossSum, DeviationSum, ErrorSum, Mean;
    MeanDeviationIsZero(ws, xs);
    MeanDeviationIsZero(ws, ys);
    ErrorAround(ws, xs, ys, a, b, Mean(ws, xs), Mean(ws, ys), c, -2.0 * a, a * a, c * c, 2.0 * c, -2.0 * a * c, |ws|);
  }

  lemma CompleteSquare(xy: real, xx: real, m: real, a: real, d: real)
    requires m * xx == xy && d == a - m
    ensures (-2.0 * a) * xy + (a * a) * xx == Term(xx, d, d) - m * xy
  {
    assert xx * d * d == xx * a * a - 2.0 * a * (m * xx) + m * (m * xx);
  }

  lemma OffsetSquare(w: real, c: real)
    ensures (c * c) * w == Term(w, c, c)
  {
  }

  /** With m = xy / xx the least value is reached at a = m and c = 0 only. */
  lemma LeastValue(yy: real, xy: real, xx: real, w: real, m: real, a: real, c: real)
    requires m * xx == xy && xx > 0.0 && w > 0.0
    ensures a != m || c != 0.0 ==> yy + (-2.0 * a) * xy + (a * a) * xx + (c * c) * w > yy - m * xy
    ensures a == m && c == 0.0 ==> yy + (-2.0 * a) * xy + (a * a) * xx + (c * c) * w == yy - m * xy
  {
    hide Term;
    CompleteSquare(xy, xx, m, a, a - m);
    OffsetSquare(w, c);
    TermSign(xx, a - m);
    TermSign(w, c);
  }

  // --- the best line ---

  /** The intercept of the line of slope `m` through a point. */
  function Through(x: real, y: real, m: real): real { y - m * x }

  /** No line has a smaller error, and no other line has the same. */
  ghost predicate BestLine(ws: seq<real>, xs: seq<real>, ys: seq<real>, slope: real, intercept: real)
    requires |ws| == |xs| == |ys|
  {
    forall a: real, b: real ::
      && SquaredError(ws, xs, ys, slope, intercept) <= SquaredError(ws, xs, ys, a, b)
      && (SquaredError(ws, xs, ys, slope, intercept) == SquaredError(ws, xs, ys, a, b) ==> a == slope && b == intercept)
  }

  ghost predicate FittedSlope(ws: seq<real>, xs: seq<real>, ys: seq<real>, m: real) {
    && |ws| == |xs| == |ys| && Positive(ws) && xs != [] && !Constant(xs)
    && m * Spread(ws, xs) == CoSpread(ws, xs, ys)
  }

  /** Every line's error is above the least value, except for the fitted line, which attains it. */
  lemma ErrorOf(ws: seq<real>, xs: seq<real>, ys: seq<real>, m: real, a: real, b: real)
    requires FittedSlope(ws, xs, ys, m)
    ensures a != m || b != Through(Mean(ws, xs), Mean(ws, ys), m)
            ==> SquaredError(ws, xs, ys, a, b) > Spread(ws, ys) - m * CoSpread(ws, xs, ys)
    ensures a == m && b == Through(Mean(ws, xs), Mean(ws, ys), m)
            ==> SquaredError(ws, xs, ys, a, b) == Spread(ws, ys) - m * CoSpread(ws, xs, ys)
  {
    hide Sum, Mean, Spread, CoSpread, SquaredError;
    SpreadZero(ws, xs);
    SumPositive(ws, |ws|);
    var c := Mean(ws, ys) - a * Mean(ws, xs) - b;
    ErrorExpands(ws, xs, ys, a, b, c);
    LeastValue(Spread(ws, ys), CoSpread(ws, xs, ys), Spread(ws, xs), Sum(ws, |ws|), m, a, c);
  }

  /** The least squares line beats every other, for any positive weights and times that do not all coincide. */
  lemma LeastSquaresIsBest(ws: seq<real>, xs: seq<real>, ys: seq<real>, m: real)
    requires FittedSlope(ws, xs, ys, m)
    ensures BestLine(ws, xs, ys, m, Through(Mean(ws, xs), Mean(ws, ys), m))
  {
    hide Sum, Mean, Spread, CoSpread, SquaredError, Through;
    var q := Through(Mean(ws, xs), Mean(ws, ys), m);
    ErrorOf(ws, xs, ys, m, m, q);
    forall a: real, b: real
      ensures SquaredError(ws, xs, ys, m, q) <= SquaredError(ws, xs, ys, a, b)
      ensures SquaredError(ws, xs, ys, m, q) == SquaredError(ws, xs, ys, a, b) ==> a == m && b == q
    {
      ErrorOf(ws, xs, ys, m, a, b);
    }
  }

  /** R2 splits exactly: the residual error is SStot minus Sxy * Sxy / Sxx, so the explained fraction
      already lies between 0 and 1. */
  lemma VarianceSplits(ws: seq<real>, xs: seq<real>, ys: seq<real>, m: real)
    requires FittedSlope(ws, xs, ys, m)
    ensures Spread(ws, xs) > 0.0
    ensures var least := SquaredError(ws, xs, ys, m, Through(Mean(ws, xs), Mean(ws, ys), m));
            && least == Spread(ws, ys) - CoSpread(ws, xs, ys) * CoSpread(ws, xs, ys) / Spread(ws, xs)
            && 0.0 <= least <= Spread(ws, ys)
  {
    hide Sum, Mean, Spread, CoSpread, ErrorSum, Through;
    SpreadZero(ws, xs);
    ErrorOf(ws, xs, ys, m, m, Through(Mean(ws, xs), Mean(ws, ys), m));
    ErrorNonNegative(ws, xs, ys, m, Through(Mean(ws, xs), Mean(ws, ys), m), |ws|);
    ExplainedPart(m, Spread(ws, xs), CoSpread(ws, xs, ys));
  }

  lemma ExplainedPart(m: real, sxx: real, sxy: real)
    requires sxx > 0.0 && m * sxx == sxy
    ensures m * sxy == sxy * sxy / sxx && m * sxy >= 0.0
  {
    assert m == sxy / sxx;
    assert m * sxy == Term(sxx, m, m);
    TermSign(sxx, m);
  }

  /** The flat line through the weighted mean has error SStot. */
  lemma {:induction false} FlatError(ws: seq<real>, xs: seq<real>, ys: seq<real>, yb: real, n: nat)
    requires n <= |ws| == |xs| == |ys|
    ensures ErrorSum(ws, xs, ys, 0.0, yb, n) == CrossSum(ws, ys, yb, ys, yb, n)
  {
    hide Term;
    if n == 0 {
    } else {
      FlatError(ws, xs, ys, yb, n - 1);
      assert Residual(xs[n - 1], ys[n - 1], 0.0, yb) == ys[n - 1] - yb;
    }
  }

  // --- calculateWeightedRegression ---

  function Hours(points: seq<Point>): (xs: seq<real>)
    ensures |xs| == |points|
  {
    seq(|points|, i requires 0 <= i < |points| => (points[i].time - points[0].time) as real / MS_PER_HOUR)
  }

  function Usages(points: seq<Point>): (ys: seq<real>)
    ensures |ys| == |points|
  {
    seq(|points|, i requires 0 <= i < |points| => points[i].usage)
  }

  /** The exponent of a weight: how many half-lives `x` lies before the newest point, as a number of at most zero. */
  function Age(x: real, last: real, span: real): real
    requires span != 0.0
  {
    (x - last) / (span / 3.0)
  }

  /** The time span in hours, where zero counts as one. */
  function Span(xs: seq<real>): (span: real)
    requires xs != []
    ensures span != 0.0
  {
    if xs[|xs| - 1] - xs[0] == 0.0 then 1.0 else xs[|xs| - 1] - xs[0]
  }

  /** Weights decay towards the past. */
  function Weights(points: seq<Point>, exp: real -> real): (ws: seq<real>)
    requires points != []
    ensures |ws| == |points|
  {
    var xs := Hours(points);
    seq(|xs|, i requires 0 <= i < |xs| => exp(Age(xs[i], xs[|xs| - 1], Span(xs))))
  }

  ghost predicate PositiveExp(exp: real -> real) { forall x: real :: exp(x) > 0.0 }

  predicate SameTime(points: seq<Point>) { forall i :: 0 <= i < |points| ==> points[i].time == points[0].time }

  lemma HoursConstant(points: seq<Point>)
    ensures Constant(Hours(points)) <==> SameTime(points)
  {
    var xs := Hours(points);
    if Constant(xs) {
      forall i | 0 <= i < |points| ensures points[i].time == points[0].time {
        assert xs[i] == xs[0];
      }
    }
  }

  lemma WeightsPositive(points: seq<Point>, exp: real -> real)
    requires points != [] && PositiveExp(exp)
    ensures Positive(Weights(points, exp))
  {
  }

  ghost predicate Increasing(exp: real -> real) { forall x: real, y: real :: x <= y ==> exp(x) <= exp(y) }

  lemma AgeOrder(x: real, y: real, last: real, span: real)
    requires x <= y <= last && span > 0.0
    ensures Age(x, last, span) <= Age(y, last, span) <= 0.0
    ensures Age(last, last, span) == 0.0
  {
  }

  lemma OldestAge(x: real, last: real, span: real)
    requires span == last - x && span > 0.0
    ensures Age(x, last, span) == -3.0
  {
    Multiple(-3.0, span / 3.0);
    assert x - last == -3.0 * (span / 3.0);
  }

  lemma Multiple(k: real, q: real)
    requires q != 0.0
    ensures k * q / q == k
  {
  }

  /** In chronological data the newest point weighs exp(0), no point weighs more than a later one, and
      the oldest weighs exp(-3) whatever the span. */
  lemma WeightsDecay(points: seq<Point>, exp: real -> real, i: nat, j: nat)
    requires Increasing(exp) && i <= j < |points|
    requires forall p, q :: 0 <= p <= q < |points| ==> points[p].time <= points[q].time
    ensures Weights(points, exp)[i] <= Weights(points, exp)[j] <= exp(0.0)
    ensures Weights(points, exp)[|points| - 1] == exp(0.0)
    ensures !SameTime(points) ==> Weights(points, exp)[0] == exp(-3.0)
  {
    hide Age;
    var xs := Hours(points);
    var last := xs[|xs| - 1];
    assert xs[i] <= xs[j] <= last && xs[0] <= last;
    AgeOrder(xs[i], xs[j], last, Span(xs));
    if !SameTime(points) {
      var k :| 0 <= k < |points| && points[k].time != points[0].time;
      assert xs[0] < xs[k] <= last;
      OldestAge(xs[0], last, Span(xs));
    }
  }

  /** `r2` is the fraction of the flat line's error that the fitted line explains. */
  ghost predicate Explains(ws: seq<real>, xs: seq<real>, ys: seq<real>, line: Line)
    requires |ws| == |xs| == |ys| && Positive(ws) && xs != []
  {
    var flat := SquaredError(ws, xs, ys, 0.0, Mean(ws, ys));
    && 0.0 <= line.r2 <= 1.0
    && (flat > 0.0 ==> line.r2 * flat == flat - SquaredError(ws, xs, ys, line.slopePerHour, line.intercept))
    && (flat <= 0.0 ==> line.r2 == 0.0)
  }

  /** Math.max(0, Math.min(1, v)). */
  function Clamp(v: real): real {
    var capped := if v < 1.0 then v else 1.0;
    if capped > 0.0 then capped else 0.0
  }

  /** The clamp never changes the explained fraction. */
  lemma ClampIdle(res: real, tot: real)
    requires 0.0 <= res <= tot && tot > 0.0
    ensures Clamp(1.0 - res / tot) == 1.0 - res / tot
    ensures Clamp(1.0 - res / tot) * tot == tot - res
    ensures 0.0 <= Clamp(1.0 - res / tot) <= 1.0
  {
    var f := res / tot;
    assert f * tot == res;
    if f < 0.0 {
      Product(-f, tot);
    } else if f > 1.0 {
      Product(f - 1.0, tot);
    }
  }

  method WeightedMean(ws: seq<real>, us: seq<real>) returns (m: real)
    requires |ws| == |us| && Positive(ws) && us != []
    ensures m == Mean(ws, us)
  {
    hide Term;
    var sumW, acc := 0.0, 0.0;
    for i := 0 to |ws|
      invariant sumW == Sum(ws, i) && acc == WeightedSum(ws, us, i)
    {
      sumW := sumW + ws[i];
      acc := acc + Term(ws[i], us[i], 1.0);
    }
    SumPositive(ws, |ws|);
    m := acc / sumW;
  }

  method CrossSums(ws: seq<real>, xs: seq<real>, xBar: real, ys: seq<real>, yBar: real)
    returns (Sxy: real, Sxx: real, SStot: real)
    requires |ws| == |xs| == |ys|
    ensures Sxy == CrossSum(ws, xs, xBar, ys, yBar, |ws|)
    ensures Sxx == CrossSum(ws, xs, xBar, xs, xBar, |ws|)
    ensures SStot == CrossSum(ws, ys, yBar, ys, yBar, |ws|)
  {
    hide Term;
    Sxy, Sxx, SStot := 0.0, 0.0, 0.0;
    for i := 0 to |ws|
      invariant Sxy == CrossSum(ws, xs, xBar, ys, yBar, i)
      invariant Sxx == CrossSum(ws, xs, xBar, xs, xBar, i)
      invariant SStot == CrossSum(ws, ys, yBar, ys, yBar, i)
    {
      var dx, dy := xs[i] - xBar, ys[i] - yBar;
      Sxy := Sxy + Term(ws[i], dx, dy);
      Sxx := Sxx + Term(ws[i], dx, dx);
      SStot := SStot + Term(ws[i], dy, dy);
    }
  }

  method ResidualSum(ws: seq<real>, xs: seq<real>, ys: seq<real>, slope: real, intercept: real) returns (SSres: real)
    requires |ws| == |xs| == |ys|
    ensures SSres == SquaredError(ws, xs, ys, slope, intercept)
  {
    hide Term, Residual;
    SSres := 0.0;
    for i := 0 to |ws|
      invariant SSres == ErrorSum(ws, xs, ys, slope, intercept, i)
    {
      var residual := Residual(xs[i], ys[i], slope, intercept);
      SSres := SSres + Term(ws[i], residual, residual);
    }
  }

  lemma Quotient(p: real, q: real)
    requires q != 0.0
    ensures p / q * q == p
  {
  }

  method CalculateWeightedRegression(points: seq<Point>, exp: real -> real) returns (r: Option<Line>)
    requires PositiveExp(exp)
    ensures r.None? <==> |points| < 3 || SameTime(points)
    ensures r.Some? ==> points != [] && Positive(Weights(points, exp))
    ensures r.Some? ==>
              && r.value.origin == points[0].time
              && BestLine(Weights(points, exp), Hours(points), Usages(points), r.value.slopePerHour, r.value.intercept)
              && Explains(Weights(points, exp), Hours(points), Usages(points), r.value)
  {
    if |points| < 3 { return None; }
    var xs, ys, ws := Hours(points), Usages(points), Weights(points, exp);
    WeightsPositive(points, exp);
    HoursConstant(points);
    var fit := Fit(ws, xs, ys);
    if fit.None? { return None; }
    r := Some(Line(fit.value.0, fit.value.1, points[0].time, fit.value.2));
  }

  /** What the computed R2 says about the fitted line. */
  lemma FitExplains(ws: seq<real>, xs: seq<real>, ys: seq<real>, slope: real, r2: real)
    requires FittedSlope(ws, xs, ys, slope)
    requires var res, tot := SquaredError(ws, xs, ys, slope, Through(Mean(ws, xs), Mean(ws, ys), slope)), Spread(ws, ys);
             r2 == if tot > 0.0 then Clamp(1.0 - res / tot) else 0.0
    ensures Explains(ws, xs, ys, Line(slope, Through(Mean(ws, xs), Mean(ws, ys), slope), 0, r2))
  {
    hide Sum, Mean, CrossSum, CoSpread, ErrorSum, Through, Clamp;
    FlatError(ws, xs, ys, Mean(ws, ys), |ws|);
    VarianceSplits(ws, xs, ys, slope);
    if Spread(ws, ys) > 0.0 {
      ClampIdle(SquaredError(ws, xs, ys, slope, Through(Mean(ws, xs), Mean(ws, ys), slope)), Spread(ws, ys));
    }
  }

  /** The part of the regression that works on hours, usages and weights alone. */
  method Fit(ws: seq<real>, xs: seq<real>, ys: seq<real>) returns (r: Option<(real, real, real)>)
    requires |ws| == |xs| == |ys| && Positive(ws) && xs != []
    ensures r.None? <==> Constant(xs)
    ensures r.Some? ==> BestLine(ws, xs, ys, r.value.0, r.value.1)
    ensures r.Some? ==> Explains(ws, xs, ys, Line(r.value.0, r.value.1, 0, r.value.2))
  {
    hide Sum, Mean, CrossSum, ErrorSum, Constant, BestLine, Through, Clamp, Explains;
    var xBar := WeightedMean(ws, xs);
    var yBar := WeightedMean(ws, ys);
    var Sxy, Sxx, SStot := CrossSums(ws, xs, xBar, ys, yBar);
    SpreadZero(ws, xs);
    if Sxx == 0.0 { return None; }
    var slope := Sxy / Sxx;
    Quotient(Sxy, Sxx);
    var intercept := Through(xBar, yBar, slope);
    var SSres := ResidualSum(ws, xs, ys, slope, intercept);
    var r2 := if SStot > 0.0 then Clamp(1.0 - SSres / SStot) else 0.0;
    LeastSquaresIsBest(ws, xs, ys, slope);
    FitExplains(ws, xs, ys, slope, r2);
    r := Some((slope, intercept, r2));
  }
}
