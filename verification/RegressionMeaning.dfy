/** What the regression's weights, hours and sums are, said on the points' own times and usages. */
module RegressionMeaning {
  import opened Regression

  // --- hours and weights ---

  /** Hours count from the first point, 3600000 milliseconds each. */
  lemma HoursAt(points: seq<Point>, i: nat)
    requires i < |points|
    ensures Hours(points)[i] * 3600000.0 == (points[i].time - points[0].time) as real
    ensures Usages(points)[i] == points[i].usage
  {
    var ms := (points[i].time - points[0].time) as real;
    assert Hours(points)[i] == ms / 3600000.0;
  }

  lemma AgeIs(a: real, x: real, last: real, span: real)
    requires span != 0.0 && a * span == 3.0 * (x - last)
    ensures Age(x, last, span) == a
  {
    var third := span / 3.0;
    assert a * third == x - last;
    Multiple(a, third);
  }

  lemma InHours(a: real, whole: real, part: real)
    requires a * whole == 3.0 * part
    ensures a * (whole / 3600000.0) == 3.0 * (part / 3600000.0)
  {
  }

  /** Each point's weight is exp(a) for the `a` that is to -3 as the point's distance from the newest point is to
      the whole time between the first and the newest. Where these two coincide, the distance counts in hours. */
  lemma WeightsAt(points: seq<Point>, exp: real -> real, i: nat, a: real)
    requires i < |points|
    requires var first, last := points[0].time, points[|points| - 1].time;
             if last != first then a * (last - first) as real == 3.0 * (points[i].time - last) as real
             else a * 3600000.0 == 3.0 * (points[i].time - last) as real
    ensures Weights(points, exp)[i] == exp(a)
  {
    var first, last := points[0].time, points[|points| - 1].time;
    var xs := Hours(points);
    var n := |points| - 1;
    assert xs[i] - xs[n] == (points[i].time - last) as real / 3600000.0;
    assert xs[n] - xs[0] == (last - first) as real / 3600000.0;
    if last != first {
      InHours(a, (last - first) as real, (points[i].time - last) as real);
      assert (last - first) as real != 0.0;
    }
    AgeIs(a, xs[i], xs[n], Span(xs));
  }

  /** There is such an `a` for every point. */
  lemma HasExponent(points: seq<Point>, exp: real -> real, i: nat) returns (a: real)
    requires i < |points| && points[|points| - 1].time != points[0].time
    ensures a * (points[|points| - 1].time - points[0].time) as real
         == 3.0 * (points[i].time - points[|points| - 1].time) as real
    ensures Weights(points, exp)[i] == exp(a)
  {
    var span := (points[|points| - 1].time - points[0].time) as real;
    var part := 3.0 * (points[i].time - points[|points| - 1].time) as real;
    a := part / span;
    Quotient(part, span);
    WeightsAt(points, exp, i, a);
  }

  // --- sums ---

  lemma {:induction false} SumPrefix(ws: seq<real>, w: real, n: nat)
    requires n <= |ws|
    ensures Sum(ws + [w], n) == Sum(ws, n)
  {
    if n == 0 {
    } else {
      SumPrefix(ws, w, n - 1);
    }
  }

  /** A further weight adds itself. */
  lemma SumSnoc(ws: seq<real>, w: real)
    ensures Sum(ws + [w], |ws| + 1) == Sum(ws, |ws|) + w
  {
    SumPrefix(ws, w, |ws|);
  }

  lemma {:induction false} WeightedPrefix(ws: seq<real>, us: seq<real>, w: real, u: real, n: nat)
    requires n <= |ws| == |us|
    ensures WeightedSum(ws + [w], us + [u], n) == WeightedSum(ws, us, n)
  {
    hide Term;
    if n == 0 {
    } else {
      WeightedPrefix(ws, us, w, u, n - 1);
    }
  }

  /** A further point adds its weight times its value. */
  lemma WeightedSumSnoc(ws: seq<real>, us: seq<real>, w: real, u: real)
    requires |ws| == |us|
    ensures WeightedSum(ws + [w], us + [u], |ws| + 1) == WeightedSum(ws, us, |ws|) + w * u
  {
    WeightedPrefix(ws, us, w, u, |ws|);
    assert Term(w, u, 1.0) == w * u;
    hide Term;
  }

  lemma {:induction false} ErrorPrefix(ws: seq<real>, xs: seq<real>, ys: seq<real>, w: real, x: real, y: real,
                                       a: real, b: real, n: nat)
    requires n <= |ws| == |xs| == |ys|
    ensures ErrorSum(ws + [w], xs + [x], ys + [y], a, b, n) == ErrorSum(ws, xs, ys, a, b, n)
  {
    hide Term, Residual;
    if n == 0 {
    } else {
      ErrorPrefix(ws, xs, ys, w, x, y, a, b, n - 1);
    }
  }

  /** A further point adds its weight times the square of its distance from the line; no points, no error. */
  lemma SquaredErrorSnoc(ws: seq<real>, xs: seq<real>, ys: seq<real>, w: real, x: real, y: real, a: real, b: real)
    requires |ws| == |xs| == |ys|
    ensures SquaredError(ws + [w], xs + [x], ys + [y], a, b)
         == SquaredError(ws, xs, ys, a, b) + w * (y - (a * x + b)) * (y - (a * x + b))
    ensures SquaredError([], [], [], a, b) == 0.0
  {
    ErrorPrefix(ws, xs, ys, w, x, y, a, b, |ws|);
  }

  /** The mean times the total weight is the weighted sum, and nothing else is. */
  lemma MeanBalances(ws: seq<real>, us: seq<real>, m: real)
    requires |ws| == |us| && Positive(ws) && us != []
    ensures m == Mean(ws, us) <==> m * Sum(ws, |ws|) == WeightedSum(ws, us, |ws|)
  {
    SumPositive(ws, |ws|);
    var mean := Mean(ws, us);
    hide Mean, Sum, WeightedSum;
    if m * Sum(ws, |ws|) == WeightedSum(ws, us, |ws|) {
      SameProduct(m, mean, Sum(ws, |ws|));
    }
  }
}
