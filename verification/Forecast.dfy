/** Threshold forecasts, extrapolated trend lines and nearest-rank percentiles. */
module Forecast {

  import opened Wrappers
  import opened Regression

  // --- forecastThreshold ---

  datatype Prediction = Prediction(eta: real, hoursRemaining: real, threshold: real, slopePerHour: real, insufficientData: bool)

  function DataSpanHours(points: seq<Point>): real {
    if |points| < 2 then 0.0 else (points[|points| - 1].time - points[0].time) as real / MS_PER_HOUR
  }

  /** Starting from the newest reading and rising with the least squares slope, usage reaches the threshold
      after exactly `hours`: not in the past and not beyond ten times the time the data spans. */
  ghost predicate Crosses(points: seq<Point>, exp: real -> real, threshold: real, now: int, slope: real, hours: real)
    requires points != []
  {
    var latest := points[|points| - 1];
    && slope > 0.0
    && (exists intercept: real :: BestLine(Weights(points, exp), Hours(points), Usages(points), slope, intercept))
    && latest.usage < threshold
    && Rise(latest.usage, slope, hours) == threshold
    && latest.time as real + hours * MS_PER_HOUR >= now as real
    && hours <= DataSpanHours(points) * 10.0
  }

  /** The same on the points' own times: 3600000 milliseconds an hour, and ten times the time the data spans. */
  lemma CrossesMeans(points: seq<Point>, exp: real -> real, threshold: real, now: int, slope: real, hours: real)
    requires |points| >= 2
    ensures var first, last := points[0].time, points[|points| - 1];
            Crosses(points, exp, threshold, now, slope, hours) <==>
              && slope > 0.0
              && (exists intercept: real :: BestLine(Weights(points, exp), Hours(points), Usages(points), slope, intercept))
              && last.usage < threshold
              && last.usage + slope * hours == threshold
              && last.time as real + hours * 3600000.0 >= now as real
              && hours * 3600000.0 <= 10.0 * (last.time - first) as real
  {
    hide BestLine;
  }

  /** The least time for a forecast is 21600000 milliseconds, six hours, and 86400000 for a confident one. */
  lemma SpanMeans(points: seq<Point>)
    requires points != []
    ensures DataSpanHours(points) >= 6.0 <==> points[|points| - 1].time - points[0].time >= 21600000
    ensures DataSpanHours(points) < 24.0 <==> points[|points| - 1].time - points[0].time < 86400000
  {
  }

  function Rise(value: real, slope: real, hours: real): real { value + slope * hours }

  ghost predicate CanRegress(points: seq<Point>) { |points| >= 3 && !SameTime(points) }

  lemma BestIsUnique(ws: seq<real>, xs: seq<real>, ys: seq<real>, s: real, b: real, s': real, b': real)
    requires |ws| == |xs| == |ys| && BestLine(ws, xs, ys, s, b) && BestLine(ws, xs, ys, s', b')
    ensures s == s' && b == b'
  {
    hide SquaredError;
    assert SquaredError(ws, xs, ys, s, b) <= SquaredError(ws, xs, ys, s', b');
    assert SquaredError(ws, xs, ys, s', b') <= SquaredError(ws, xs, ys, s, b);
  }

  /** There is at most one least squares slope, so at most one crossing. */
  lemma OneCrossing(points: seq<Point>, exp: real -> real, threshold: real, now: int, s: real, h: real, s': real, h': real)
    requires points != []
    requires Crosses(points, exp, threshold, now, s, h) && Crosses(points, exp, threshold, now, s', h')
    ensures s == s' && h == h'
  {
    var b: real :| BestLine(Weights(points, exp), Hours(points), Usages(points), s, b);
    var b': real :| BestLine(Weights(points, exp), Hours(points), Usages(points), s', b');
    BestIsUnique(Weights(points, exp), Hours(points), Usages(points), s, b, s', b');
    RiseDetermines(points[|points| - 1].usage, s, h, h');
  }

  lemma QuotientRises(value: real, threshold: real, slope: real)
    requires slope > 0.0
    ensures Rise(value, slope, (threshold - value) / slope) == threshold
  {
    Quotient(threshold - value, slope);
  }

  lemma RiseDetermines(value: real, slope: real, h: real, h': real)
    requires slope > 0.0 && Rise(value, slope, h) == Rise(value, slope, h')
    ensures h == h'
  {
    SameProduct(h, h', slope);
  }

  lemma ForecastMeans(points: seq<Point>, exp: real -> real, threshold: real, now: int)
    ensures points != [] ==> (DataSpanHours(points) >= 6.0 <==> points[|points| - 1].time - points[0].time >= 21600000)
    ensures points != [] ==> (DataSpanHours(points) < 24.0 <==> points[|points| - 1].time - points[0].time < 86400000)
    ensures forall slope: real, hours: real ::
              points != [] && DataSpanHours(points) >= 6.0 && Crosses(points, exp, threshold, now, slope, hours) ==>
                var first, last := points[0].time, points[|points| - 1];
                && last.usage < threshold && last.usage + slope * hours == threshold
                && last.time as real + hours * 3600000.0 >= now as real
                && hours * 3600000.0 <= 10.0 * (last.time - first) as real
  {
    if points != [] {
      SpanMeans(points);
      hide DataSpanHours;
      forall slope: real, hours: real | DataSpanHours(points) >= 6.0 && Crosses(points, exp, threshold, now, slope, hours) {
        CrossesMeans(points, exp, threshold, now, slope, hours);
      }
    }
  }

  method ForecastThreshold(points: seq<Point>, threshold: real, now: int, exp: real -> real)
    returns (r: Option<Prediction>)
    requires PositiveExp(exp)
    ensures r.Some? ==>
              && points != []
              && Crosses(points, exp, threshold, now, r.value.slopePerHour, r.value.hoursRemaining)
              && r.value.eta == points[|points| - 1].time as real + r.value.hoursRemaining * MS_PER_HOUR
              && r.value.threshold == threshold
              && (r.value.insufficientData <==> DataSpanHours(points) < 24.0)
    ensures r.Some? <==>
            && CanRegress(points)
            && DataSpanHours(points) >= 6.0
            && exists slope: real, hours: real :: Crosses(points, exp, threshold, now, slope, hours)
    ensures r.Some? ==>
              && points[|points| - 1].time - points[0].time >= 21600000
              && (r.value.insufficientData <==> points[|points| - 1].time - points[0].time < 86400000)
              && r.value.eta == points[|points| - 1].time as real + r.value.hoursRemaining * 3600000.0 >= now as real
              && r.value.hoursRemaining * 3600000.0 <= 10.0 * (points[|points| - 1].time - points[0].time) as real
              && points[|points| - 1].usage < threshold
              && points[|points| - 1].usage + r.value.slopePerHour * r.value.hoursRemaining == threshold
  {
    ForecastMeans(points, exp, threshold, now);
    hide BestLine, Weights, Hours, Usages, Rise, DataSpanHours;
    if points == [] { return None; }
    var span := DataSpanHours(points);
    if span < 6.0 { return None; }
    var regression := CalculateWeightedRegression(points, exp);
    if regression.None? { return None; }
    var slope := regression.value.slopePerHour;
    OnlySlope(points, exp, threshold, now, slope, regression.value.intercept);
    if slope <= 0.0 { return None; }
    var latest := points[|points| - 1];
    if latest.usage >= threshold { return None; }
    var hours := (threshold - latest.usage) / slope;
    QuotientRises(latest.usage, threshold, slope);
    OnlyHours(points, exp, threshold, now, slope, hours);
    var eta := latest.time as real + hours * MS_PER_HOUR;
    if eta < now as real { return None; }
    if hours > span * 10.0 { return None; }
    assert Crosses(points, exp, threshold, now, slope, hours);
    r := Some(Prediction(eta, hours, threshold, slope, span < 24.0));
  }

  /** A crossing can only use the fitted slope. */
  lemma OnlySlope(points: seq<Point>, exp: real -> real, threshold: real, now: int, slope: real, intercept: real)
    requires points != [] && BestLine(Weights(points, exp), Hours(points), Usages(points), slope, intercept)
    ensures forall s: real, h: real :: Crosses(points, exp, threshold, now, s, h) ==> s == slope
  {
    forall s: real, h: real | Crosses(points, exp, threshold, now, s, h) ensures s == slope {
      var b: real :| BestLine(Weights(points, exp), Hours(points), Usages(points), s, b);
      BestIsUnique(Weights(points, exp), Hours(points), Usages(points), s, b, slope, intercept);
    }
  }

  lemma OnlyHours(points: seq<Point>, exp: real -> real, threshold: real, now: int, slope: real, hours: real)
    requires points != [] && slope > 0.0 && Rise(points[|points| - 1].usage, slope, hours) == threshold
    ensures forall h: real :: Crosses(points, exp, threshold, now, slope, h) ==> h == hours
  {
    forall h: real | Crosses(points, exp, threshold, now, slope, h) ensures h == hours {
      RiseDetermines(points[|points| - 1].usage, slope, h, hours);
    }
  }

  // --- buildTrendLine ---

  datatype TrendPoint = TrendPoint(timestamp: real, trendValue: real)

  /** The k-th position, counting from `first` in equal steps. */
  function At(first: real, step: real, k: nat): real { first + k as real * step }

  lemma AtNext(first: real, step: real, k: nat)
    ensures At(first, step, k + 1) == At(first, step, k) + step
  {
  }

  function StepsBound(first: real, step: real, end: real): int
    requires step > 0.0
  {
    ((end - first) / step).Floor + 1
  }

  /** Only finitely many steps fit before the end. */
  lemma StepsFit(first: real, step: real, end: real, k: nat)
    requires step > 0.0 && At(first, step, k) < end
    ensures k < StepsBound(first, step, end)
  {
    Quotient(end - first, step);
    LessFactor(k as real, (end - first) / step, step);
  }

  lemma LessFactor(k: real, q: real, step: real)
    requires step > 0.0 && k * step < q * step
    ensures k < q
  {
    var d := k - q;
    assert d * step == k * step - q * step;
    if d > 0.0 {
      Product(d, step);
    }
  }

  function TrendAt(regression: Line, t: real): (p: TrendPoint)
    ensures p.timestamp == t && p.trendValue >= 0.0
  {
    var v := regression.slopePerHour * ((t - regression.origin as real) / MS_PER_HOUR) + regression.intercept;
    TrendPoint(t, if v > 0.0 then v else 0.0)
  }

  /** The value of the trend at a time is the line's value there, and zero where the line is below zero. */
  lemma TrendOnLine(regression: Line, t: real, hours: real)
    requires hours * 3600000.0 == t - regression.origin as real
    ensures var v := regression.slopePerHour * hours + regression.intercept;
            TrendAt(regression, t).trendValue == if v >= 0.0 then v else 0.0
  {
    assert (t - regression.origin as real) / MS_PER_HOUR == hours;
  }

  /** Evenly spaced positions from `first`, all before `end` except the last one, which is `end` itself. */
  ghost predicate CoversUpTo(line: seq<TrendPoint>, first: real, step: real, end: real) {
    && line != []
    && line[|line| - 1].timestamp == end <= At(first, step, |line| - 1)
    && forall k :: 0 <= k < |line| - 1 ==> line[k].timestamp == At(first, step, k) < end
  }

  lemma BeforeEnd(b: seq<TrendPoint>, first: real, step: real, end: real, k: nat)
    requires CoversUpTo(b, first, step, end) && k < |b| - 1
    ensures At(first, step, k) < end
  {
    assert b[k].timestamp == At(first, step, k);
  }

  lemma CoverReaches(a: seq<TrendPoint>, b: seq<TrendPoint>, first: real, step: real, end: real)
    requires CoversUpTo(a, first, step, end) && CoversUpTo(b, first, step, end)
    ensures |b| <= |a|
  {
    var k: nat := |a| - 1;
    if |a| < |b| {
      BeforeEnd(b, first, step, end, k);
    }
  }

  /** Only one list of timestamps covers the range. */
  lemma OneCover(a: seq<TrendPoint>, b: seq<TrendPoint>, first: real, step: real, end: real)
    requires CoversUpTo(a, first, step, end) && CoversUpTo(b, first, step, end)
    ensures |a| == |b| && forall k :: 0 <= k < |a| ==> a[k].timestamp == b[k].timestamp
  {
    CoverReaches(a, b, first, step, end);
    CoverReaches(b, a, first, step, end);
  }

  /** Where the trend line ends: beyond the newest point by a fraction of the time span. */
  function ExtendTo(points: seq<Point>, fraction: real): real
    requires points != []
  {
    var first, last := points[0].time as real, points[|points| - 1].time as real;
    last + (last - first) * fraction
  }

  function StepOf(points: seq<Point>): real
    requires |points| >= 2
  {
    (points[|points| - 1].time - points[0].time) as real / (|points| - 1) as real
  }

  /** The line's points are as far apart as those of the data are on average, and it goes on for the given
      fraction of the time that the data spans. */
  lemma StepsOfData(points: seq<Point>, fraction: real)
    requires |points| >= 2
    ensures var first, last := points[0].time as real, points[|points| - 1].time as real;
            && StepOf(points) * (|points| - 1) as real == last - first
            && ExtendTo(points, fraction) - last == fraction * (last - first)
  {
    Quotient((points[|points| - 1].time - points[0].time) as real, (|points| - 1) as real);
  }

  /** Where the line ends: beyond the newest point for a positive fraction of chronological data, and not before
      the oldest one for a fraction of -1 or more. Out of order, the loop does not even start above a fraction
      somewhat below -1. */
  lemma Horizon(points: seq<Point>, fraction: real)
    requires |points| >= 2
    ensures var first, last := points[0].time as real, points[|points| - 1].time as real;
            && (first <= last && fraction >= 0.0 ==> last <= ExtendTo(points, fraction))
            && (first <= last && fraction >= -1.0 ==> first <= ExtendTo(points, fraction))
            && (first < last ==> StepOf(points) > 0.0)
            && (first == last ==> StepOf(points) == 0.0 && ExtendTo(points, fraction) == first)
            && (first > last ==> (ExtendTo(points, fraction) + StepOf(points) < first <==> fraction > NoReturn(points)))
            && (first > last ==> StepOf(points) < 0.0)
  {
    var d := points[|points| - 1].time as real - points[0].time as real;
    HorizonSign(d, fraction);
    HorizonSign(d, fraction + 1.0);
    assert d * (fraction + 1.0) == d * fraction + d;
    StepSign(d, (|points| - 1) as real);
    BackwardSign(d, fraction, (|points| - 1) as real);
  }

  /** The extrapolation fraction from which on data out of order is extended for ever. */
  function NoReturn(points: seq<Point>): real
    requires |points| >= 2
  {
    -1.0 - 1.0 / (|points| - 1) as real
  }

  lemma BackwardSign(d: real, fraction: real, n: real)
    requires n >= 1.0
    ensures d < 0.0 ==> (d + d * fraction + d / n < 0.0 <==> fraction > -1.0 - 1.0 / n)
  {
    var factor := 1.0 + fraction + 1.0 / n;
    DivideByTimes(d, n);
    assert d * factor == d + d * fraction + d * (1.0 / n);
    if d < 0.0 {
      NegativeTimes(d, factor);
    }
  }

  lemma DivideByTimes(d: real, n: real)
    requires n >= 1.0
    ensures d / n == d * (1.0 / n)
  {
    Quotient(d, n);
    Quotient(1.0, n);
    assert d * (1.0 / n) * n == d * (1.0 / n * n);
    SameProduct(d / n, d * (1.0 / n), n);
  }

  lemma NegativeTimes(d: real, factor: real)
    requires d < 0.0
    ensures d * factor < 0.0 <==> factor > 0.0
  {
    if factor > 0.0 {
      Product(-d, factor);
    } else if factor < 0.0 {
      Product(-d, -factor);
    }
  }

  lemma HorizonSign(d: real, fraction: real)
    ensures d == 0.0 ==> d * fraction == 0.0
    ensures d >= 0.0 && fraction >= 0.0 ==> d * fraction >= 0.0
    ensures d < 0.0 && fraction >= 0.0 ==> d * fraction <= 0.0
  {
  }

  lemma StepSign(d: real, n: real)
    requires n >= 1.0
    ensures d > 0.0 ==> d / n > 0.0
    ensures d == 0.0 ==> d / n == 0.0
    ensures d < 0.0 ==> d <= d / n < 0.0
  {
    assert d / n * n == d;
  }

  method BuildTrendLine(points: seq<Point>, regression: Line, fraction: real) returns (result: seq<TrendPoint>)
    requires |points| < 2 || points[0].time <= points[|points| - 1].time || fraction > NoReturn(points)
    ensures |points| < 2 || points[|points| - 1].time < points[0].time ==> result == []
    ensures |points| >= 2 && points[0].time <= points[|points| - 1].time ==>
              var first, end := points[0].time as real, ExtendTo(points, fraction);
              && (fraction >= 0.0 ==> points[|points| - 1].time as real <= end)
              && (fraction >= -1.0 ==> first <= end)
              && if first <= end then CoversUpTo(result, first, StepOf(points), end)
                 else result == if first <= end + StepOf(points) then [TrendAt(regression, end)] else []
    ensures forall k :: 0 <= k < |result| ==> result[k] == TrendAt(regression, result[k].timestamp)
  {
    result := [];
    if |points| < 2 { return; }
    var first, last := points[0].time as real, points[|points| - 1].time as real;
    var extendTo, step := ExtendTo(points, fraction), StepOf(points);
    Horizon(points, fraction);
    hide TrendAt, At, ExtendTo, StepOf, StepsBound;
    var t := first;
    AtZero(first, step);
    while t <= extendTo + step
      invariant t == At(first, step, |result|)
      invariant forall k :: 0 <= k < |result| ==> result[k].timestamp == At(first, step, k) < extendTo
      invariant forall k :: 0 <= k < |result| ==> result[k] == TrendAt(regression, result[k].timestamp)
      invariant result != [] ==> step > 0.0 && t < extendTo + step && first < extendTo
      decreases if step > 0.0 then StepsBound(first, step, extendTo) - |result| else 0
    {
      var tClamped := if t < extendTo then t else extendTo;
      result := result + [TrendAt(regression, tClamped)];
      if tClamped >= extendTo {
        return;
      }
      StepsFit(first, step, extendTo, |result| - 1);
      AtNext(first, step, |result| - 1);
      t := t + step;
    }
  }

  /** And from that fraction on the loop never stops: at every turn its condition holds, and the point is not
      at the end yet. */
  lemma NeverStops(points: seq<Point>, fraction: real, k: nat)
    requires |points| >= 2 && points[0].time > points[|points| - 1].time && fraction <= NoReturn(points)
    ensures var first, step, end := points[0].time as real, StepOf(points), ExtendTo(points, fraction);
            At(first, step, k) <= end + step && At(first, step, k) < end
  {
    Horizon(points, fraction);
    Downwards(points[0].time as real, StepOf(points), k);
  }

  lemma Downwards(first: real, step: real, k: nat)
    requires step < 0.0
    ensures At(first, step, k) <= first
  {
    assert k as real * step <= 0.0;
  }

  lemma AtZero(first: real, step: real)
    ensures At(first, step, 0) == first
  {
  }

  // --- calculatePercentile ---

  predicate Sorted(s: seq<real>) { forall i, j :: 0 <= i <= j < |s| ==> s[i] <= s[j] }

  /** Array.prototype.sort with a numeric comparison, as an unknown function. */
  ghost predicate SortFunction(sort: seq<real> -> seq<real>) {
    forall s :: Sorted(sort(s)) && multiset(sort(s)) == multiset(s)
  }

  predicate Under(x: real, v: real, strict: bool) { x < v || (!strict && x == v) }

  /** How many values lie below `v`, or at most at `v`. */
  function Count(s: seq<real>, v: real, strict: bool): (n: nat)
    ensures n <= |s|
  {
    if s == [] then 0 else Count(s[1..], v, strict) + if Under(s[0], v, strict) then 1 else 0
  }

  function Below(s: seq<real>, v: real): set<nat> { set k: nat | k < |s| && s[k] < v }

  function AtMost(s: seq<real>, v: real): set<nat> { set k: nat | k < |s| && s[k] <= v }

  lemma BelowSnoc(s: seq<real>, x: real, v: real)
    ensures |Below(s + [x], v)| == |Below(s, v)| + if x < v then 1 else 0
  {
    var all := s + [x];
    forall k: nat ensures k in Below(all, v) <==> k in Below(s, v) || (k == |s| && x < v) {
      assert k < |s| ==> all[k] == s[k];
    }
    OneMore(Below(all, v), Below(s, v), |s|, x < v);
  }

  lemma AtMostSnoc(s: seq<real>, x: real, v: real)
    ensures |AtMost(s + [x], v)| == |AtMost(s, v)| + if x <= v then 1 else 0
  {
    var all := s + [x];
    forall k: nat ensures k in AtMost(all, v) <==> k in AtMost(s, v) || (k == |s| && x <= v) {
      assert k < |s| ==> all[k] == s[k];
    }
    OneMore(AtMost(all, v), AtMost(s, v), |s|, x <= v);
  }

  lemma OneMore(a: set<nat>, b: set<nat>, n: nat, more: bool)
    requires n !in b && forall k: nat :: k in a <==> k in b || (k == n && more)
    ensures |a| == |b| + if more then 1 else 0
  {
    assert a == if more then b + {n} else b;
  }

  /** Counting from the front counts the positions. */
  lemma {:induction false} CountIs(s: seq<real>, v: real)
    ensures Count(s, v, true) == |Below(s, v)| && Count(s, v, false) == |AtMost(s, v)|
  {
    if s == [] {
      assert Below(s, v) == {} && AtMost(s, v) == {};
    } else {
      var front, last := s[..|s| - 1], s[|s| - 1];
      hide Below, AtMost, Count;
      CountIs(front, v);
      CountConcat(front, [last], v, true);
      CountConcat(front, [last], v, false);
      CountOne(last, v);
      BelowSnoc(front, last, v);
      AtMostSnoc(front, last, v);
      assert s == front + [last];
    }
  }

  lemma CountOne(x: real, v: real)
    ensures Count([x], v, true) == (if x < v then 1 else 0)
    ensures Count([x], v, false) == (if x <= v then 1 else 0)
  {
    assert [x][1..] == [];
  }

  lemma {:induction false} CountConcat(s: seq<real>, t: seq<real>, v: real, strict: bool)
    ensures Count(s + t, v, strict) == Count(s, v, strict) + Count(t, v, strict)
  {
    if s == [] {
      assert s + t == t;
    } else {
      assert (s + t)[1..] == s[1..] + t;
      CountConcat(s[1..], t, v, strict);
    }
  }

  lemma CutOut(t: seq<real>, k: nat)
    requires k < |t|
    ensures t == t[..k] + ([t[k]] + t[k + 1..])
    ensures multiset(t) == multiset(t[..k] + t[k + 1..]) + multiset{t[k]}
  {
    assert t == t[..k] + ([t[k]] + t[k + 1..]);
  }

  lemma Cancel(a: multiset<real>, b: multiset<real>, x: real)
    requires a + multiset{x} == b + multiset{x}
    ensures a == b
  {
    assert a == (a + multiset{x}) - multiset{x};
    assert b == (b + multiset{x}) - multiset{x};
  }

  /** Counting does not depend on the order. */
  lemma {:induction false} CountPermuted(s: seq<real>, t: seq<real>, v: real, strict: bool)
    requires multiset(s) == multiset(t)
    ensures Count(s, v, strict) == Count(t, v, strict)
  {
    if s == [] {
      assert |multiset(t)| == 0;
      return;
    }
    assert s[0] in multiset(t);
    var k :| 0 <= k < |t| && t[k] == s[0];
    CutOut(t, k);
    assert s == [s[0]] + s[1..];
    Cancel(multiset(s[1..]), multiset(t[..k] + t[k + 1..]), s[0]);
    CountPermuted(s[1..], t[..k] + t[k + 1..], v, strict);
    CountConcat(t[..k], t[k + 1..], v, strict);
    CountConcat(t[..k], [t[k]] + t[k + 1..], v, strict);
  }

  lemma {:induction false} CountAll(s: seq<real>, v: real, strict: bool)
    ensures (forall x :: x in s ==> Under(x, v, strict)) ==> Count(s, v, strict) == |s|
    ensures (forall x :: x in s ==> !Under(x, v, strict)) ==> Count(s, v, strict) == 0
  {
    if s == [] {
    } else {
      CountAll(s[1..], v, strict);
    }
  }

  /** In a sorted list at least k + 1 values are at most the k-th, and at most k are below it. */
  lemma RankInSorted(s: seq<real>, k: nat)
    requires Sorted(s) && k < |s|
    ensures Count(s, s[k], false) > k
    ensures Count(s, s[k], true) <= k
  {
    assert s == s[..k + 1] + s[k + 1..];
    CountConcat(s[..k + 1], s[k + 1..], s[k], false);
    CountAll(s[..k + 1], s[k], false);
    assert s == s[..k] + s[k..];
    CountConcat(s[..k], s[k..], s[k], true);
    CountAll(s[k..], s[k], true);
  }

  /** The position of the percentile in the sorted values, before it is rounded down. */
  function Limit(percentile: real, n: nat): (limit: real)
    requires percentile >= 0.0 && n > 0
    ensures limit >= 0.0
  {
    NonNegative(percentile, (n - 1) as real);
    percentile * (n - 1) as real
  }

  lemma NonNegative(a: real, b: real)
    requires a >= 0.0 && b >= 0.0
    ensures a * b >= 0.0
  {
  }

  function Rank(percentile: real, n: nat): (rank: nat)
    requires percentile >= 0.0 && n > 0
    ensures rank < n && rank as real <= Limit(percentile, n)
    ensures rank < n - 1 ==> Limit(percentile, n) < (rank + 1) as real
  {
    hide Limit;
    if n - 1 < Limit(percentile, n).Floor then n - 1 else Limit(percentile, n).Floor
  }

  /** The value of rank percentile * (n - 1): at most that many values lie below it, and more than that
      many do not lie above it (all of them, when it is the largest). */
  ghost predicate NearestRank(values: seq<real>, percentile: real, v: real)
    requires percentile >= 0.0
  {
    && v in values
    && Count(values, v, true) as real <= Limit(percentile, |values|)
    && (Count(values, v, false) as real > Limit(percentile, |values|) || Count(values, v, false) == |values|)
  }

  lemma RankIsNearest(sorted: seq<real>, percentile: real)
    requires Sorted(sorted) && sorted != [] && percentile >= 0.0
    ensures NearestRank(sorted, percentile, sorted[Rank(percentile, |sorted|)])
  {
    hide Limit, Count;
    RankInSorted(sorted, Rank(percentile, |sorted|));
  }

  lemma NearestPermuted(sorted: seq<real>, values: seq<real>, percentile: real, v: real)
    requires multiset(sorted) == multiset(values) && percentile >= 0.0 && NearestRank(sorted, percentile, v)
    ensures NearestRank(values, percentile, v)
  {
    hide Limit, Count;
    SameLength(sorted, values);
    CountPermuted(sorted, values, v, true);
    CountPermuted(sorted, values, v, false);
    assert v in multiset(values);
  }

  lemma SameLength(s: seq<real>, t: seq<real>)
    requires multiset(s) == multiset(t)
    ensures |s| == |t|
  {
    assert |multiset(s)| == |s|;
  }

  lemma NearestCounts(values: seq<real>, percentile: real, v: real)
    requires percentile >= 0.0 && NearestRank(values, percentile, v)
    ensures v in values
    ensures |Below(values, v)| as real <= percentile * (|values| - 1) as real
    ensures |AtMost(values, v)| as real > percentile * (|values| - 1) as real || |AtMost(values, v)| == |values|
  {
    CountIs(values, v);
  }

  /** `values[index]` outside the array is undefined. */
  datatype Percentile = Null | Undefined | Value(v: real)

  function RawIndex(percentile: real, n: nat): int
    requires n > 0
  {
    var index := (percentile * (n - 1) as real).Floor;
    if n - 1 < index then n - 1 else index
  }

  lemma RawIndexIs(percentile: real, n: nat)
    requires n > 0
    ensures percentile >= 0.0 ==> RawIndex(percentile, n) == Rank(percentile, n)
    ensures percentile < 0.0 ==> if n == 1 then RawIndex(percentile, n) == 0 else RawIndex(percentile, n) < 0
  {
    if percentile < 0.0 && n > 1 {
      NegativeProduct(percentile, (n - 1) as real);
    }
  }

  lemma NegativeProduct(a: real, b: real)
    requires a < 0.0 && b > 0.0
    ensures a * b < 0.0
  {
  }

  method CalculatePercentile(values: seq<real>, percentile: real, sort: seq<real> -> seq<real>) returns (r: Percentile)
    requires SortFunction(sort)
    ensures r.Null? <==> values == []
    ensures r.Undefined? <==> |values| > 1 && percentile < 0.0
    ensures r.Value? && percentile >= 0.0 ==> NearestRank(values, percentile, r.v)
    ensures r.Value? && percentile >= 0.0 ==>
              && r.v in values
              && |Below(values, r.v)| as real <= percentile * (|values| - 1) as real
              && (|AtMost(values, r.v)| as real > percentile * (|values| - 1) as real || |AtMost(values, r.v)| == |values|)
    ensures r.Value? && percentile < 0.0 ==> values == [r.v]
  {
    if values == [] { return Null; }
    var sorted := sort(values);
    SameLength(sorted, values);
    hide NearestRank, RawIndex;
    RawIndexIs(percentile, |sorted|);
    var index := RawIndex(percentile, |sorted|);
    if index < 0 { return Undefined; }
    if percentile >= 0.0 {
      RankIsNearest(sorted, percentile);
      NearestPermuted(sorted, values, percentile, sorted[index]);
      NearestCounts(values, percentile, sorted[index]);
    } else {
      OnlyValue(sorted, values);
    }
    r := Value(sorted[index]);
  }

  lemma OnlyValue(sorted: seq<real>, values: seq<real>)
    requires multiset(sorted) == multiset(values) && |sorted| == |values| == 1
    ensures values == sorted
  {
    assert sorted[0] in multiset(values);
  }
}
