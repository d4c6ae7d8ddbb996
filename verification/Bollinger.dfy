/** The sliding mean and the Bollinger bands of the analytics kernel, over exact reals. The square root
    is an unknown function that returns the non-negative root. */
module Bollinger {

  import opened Wrappers

  datatype Band = Band(upper: Option<real>, lower: Option<real>)

  function Mul(x: real, y: real): real { x * y }

  function Sq(x: real): real { Mul(x, x) }

  lemma SqSign(x: real)
    ensures Sq(x) >= 0.0
    ensures x != 0.0 ==> Sq(x) > 0.0
  {
    SqEven(x);
    if x > 0.0 {
      SqPositive(x);
    } else if x < 0.0 {
      SqPositive(-x);
    } else {
      assert Sq(0.0) == 0.0;
    }
  }

  lemma Product(a: real, b: real)
    requires a > 0.0 && b > 0.0
    ensures Mul(a, b) > 0.0
  {
  }

  lemma SqPositive(x: real)
    requires x > 0.0
    ensures Sq(x) > 0.0
  {
    hide Mul;
    Product(x, x);
  }

  lemma SqEven(x: real)
    ensures Sq(x) == Sq(-x)
  {
    assert (-x) * (-x) == x * x;
    assert Mul(-x, -x) == Mul(x, x);
  }

  /** Farther from zero means a larger square. */
  lemma SqGrows(x: real, y: real)
    requires y >= 0.0 && (x > y || x < -y)
    ensures Sq(x) > Sq(y)
  {
    SqEven(x);
    hide Sq, Mul;
    if x > y {
      Product(x - y, x + y);
      SqDifference(x, y);
    } else {
      Product(-x - y, -x + y);
      SqDifference(-x, y);
    }
  }

  lemma SqDifference(x: real, y: real)
    ensures Mul(x - y, x + y) == Sq(x) - Sq(y)
  {
  }

  // --- windows ---

  /** The sum of values[lo..hi]. */
  function RangeSum(values: seq<real>, lo: nat, hi: nat): real
    requires lo <= hi <= |values|
  {
    if lo == hi then 0.0 else RangeSum(values, lo, hi - 1) + values[hi - 1]
  }

  /** A window loses its oldest value by one subtraction. */
  lemma {:induction false} DropsOldest(values: seq<real>, lo: nat, hi: nat)
    requires lo < hi <= |values|
    ensures RangeSum(values, lo + 1, hi) == RangeSum(values, lo, hi) - values[lo]
  {
    if lo + 1 < hi {
      DropsOldest(values, lo, hi - 1);
    }
  }

  lemma {:induction false} RangePrefix(values: seq<real>, v: real, lo: nat, hi: nat)
    requires lo <= hi <= |values|
    ensures RangeSum(values + [v], lo, hi) == RangeSum(values, lo, hi)
  {
    if lo == hi {
    } else {
      RangePrefix(values, v, lo, hi - 1);
    }
  }

  /** A window that takes in a further value adds it; an empty one has the sum zero. */
  lemma RangeSumSnoc(values: seq<real>, v: real, lo: nat)
    requires lo <= |values|
    ensures RangeSum(values + [v], lo, |values| + 1) == RangeSum(values, lo, |values|) + v
    ensures RangeSum(values, lo, lo) == 0.0
  {
    RangePrefix(values, v, lo, |values|);
  }

  /** The first index of the window of size `w` that ends at `i`. */
  function WindowStart(i: nat, w: nat): nat { if i + 1 < w then 0 else i + 1 - w }

  function WindowMean(values: seq<real>, i: nat, w: nat): real
    requires 1 <= w <= i + 1 <= |values|
  {
    RangeSum(values, i + 1 - w, i + 1) / w as real
  }

  /** The chart asks for windows of at least two points. */
  function ComputeSMAWindow(rangeHours: int, pointCount: nat): (w: nat)
    ensures pointCount >= 2 && rangeHours <= 24 ==> w <= pointCount
    ensures pointCount < 12 ==> w >= 2 && 4 * w >= pointCount && (w > 2 ==> 4 * (w - 1) < pointCount)
    ensures pointCount >= 12 ==> w in {12, 24, 48, 72}
    ensures pointCount >= 12 ==> (w >= 24 <==> rangeHours > 24) && (w >= 48 <==> rangeHours > 168) && (w >= 72 <==> rangeHours > 720)
  {
    if pointCount < 12 then (if (pointCount + 3) / 4 < 2 then 2 else (pointCount + 3) / 4)
    else if rangeHours <= 24 then 12
    else if rangeHours <= 7 * 24 then 24
    else if rangeHours <= 30 * 24 then 48
    else 72
  }

  /** One pass with a running sum computes every window's mean. */
  method CalculateSMA(values: seq<real>, windowSize: nat) returns (means: seq<Option<real>>)
    requires windowSize >= 1
    ensures |means| == |values|
    ensures forall i :: 0 <= i < |values| ==>
              means[i] == if i < windowSize - 1 then None else Some(WindowMean(values, i, windowSize))
  {
    if values == [] { return []; }
    var result := new Option<real>[|values|](_ => None);
    var windowSum := 0.0;
    for i := 0 to |values|
      invariant windowSum == RangeSum(values, if i < windowSize then 0 else i - windowSize, i)
      invariant forall k :: 0 <= k < i ==>
                  result[k] == if k < windowSize - 1 then None else Some(WindowMean(values, k, windowSize))
      invariant forall k :: i <= k < |values| ==> result[k] == None
    {
      windowSum := windowSum + values[i];
      if i >= windowSize {
        DropsOldest(values, i - windowSize, i + 1);
        windowSum := windowSum - values[i - windowSize];
      }
      if i >= windowSize - 1 {
        result[i] := Some(windowSum / windowSize as real);
      }
    }
    return result[..];
  }

  // --- bands ---

  ghost predicate RootFunction(sqrt: real -> real) {
    forall x: real :: x >= 0.0 ==> sqrt(x) >= 0.0 && Sq(sqrt(x)) == x
  }

  /** The sum of the squared distances of values[lo..hi] from `mean`. */
  function SquareSum(values: seq<real>, lo: nat, hi: nat, mean: real): (s: real)
    requires lo <= hi <= |values|
    ensures s >= 0.0
  {
    if lo == hi then 0.0
    else
      SqSign(values[hi - 1] - mean);
      SquareSum(values, lo, hi - 1, mean) + Sq(values[hi - 1] - mean)
  }

  lemma {:induction false} SquarePrefix(values: seq<real>, v: real, lo: nat, hi: nat, mean: real)
    requires lo <= hi <= |values|
    ensures SquareSum(values + [v], lo, hi, mean) == SquareSum(values, lo, hi, mean)
  {
    hide Sq;
    if lo == hi {
    } else {
      SquarePrefix(values, v, lo, hi - 1, mean);
    }
  }

  /** A further value adds the square of its distance from the mean. */
  lemma SquareSumSnoc(values: seq<real>, v: real, lo: nat, mean: real)
    requires lo <= |values|
    ensures SquareSum(values + [v], lo, |values| + 1, mean)
         == SquareSum(values, lo, |values|, mean) + (v - mean) * (v - mean)
    ensures SquareSum(values, lo, lo, mean) == 0.0
  {
    SquarePrefix(values, v, lo, |values|, mean);
  }

  function Variance(values: seq<real>, i: nat, w: nat): (v: real)
    requires 1 <= w <= i + 1 <= |values|
    ensures v >= 0.0 && v * w as real == SquareSum(values, i + 1 - w, i + 1, WindowMean(values, i, w))
  {
    SquareSum(values, i + 1 - w, i + 1, WindowMean(values, i, w)) / w as real
  }

  function Min(a: real, b: real): real { if a < b then a else b }

  function Max(a: real, b: real): real { if a > b then a else b }

  function BandAt(values: seq<real>, w: nat, i: nat, sqrt: real -> real): Band
    requires 1 <= w && i < |values|
  {
    if i < w - 1 then Band(None, None)
    else
      var mean, sigma := WindowMean(values, i, w), sqrt(Variance(values, i, w));
      Band(Some(Min(110.0, mean + 2.0 * sigma)), Some(Max(0.0, mean - 2.0 * sigma)))
  }

  // --- how wide a band is ---

  /** `sigma` is the standard deviation of the window that ends at `i`. */
  ghost predicate Deviates(values: seq<real>, w: nat, i: nat, sigma: real) {
    && 1 <= w <= i + 1 <= |values| && sigma >= 0.0
    && sigma * sigma * w as real == SquareSum(values, i + 1 - w, i + 1, WindowMean(values, i, w))
  }

  lemma RootDeviates(values: seq<real>, w: nat, i: nat, sqrt: real -> real)
    requires RootFunction(sqrt) && 1 <= w <= i + 1 <= |values|
    ensures Deviates(values, w, i, sqrt(Variance(values, i, w)))
  {
    var v := Variance(values, i, w);
    assert Sq(sqrt(v)) == v;
    hide RootFunction, SquareSum, WindowMean;
  }

  lemma SameFactor(a: real, b: real, n: real)
    requires a * n == b * n && n > 0.0
    ensures a == b
  {
    var d := a - b;
    assert Mul(d, n) == a * n - b * n;
    if d > 0.0 {
      Product(d, n);
    } else if d < 0.0 {
      Product(-d, n);
    }
  }

  /** A window has one standard deviation. */
  lemma OneDeviation(values: seq<real>, w: nat, i: nat, s: real, t: real)
    requires Deviates(values, w, i, s) && Deviates(values, w, i, t)
    ensures s == t
  {
    hide SquareSum, WindowMean;
    SameFactor(s * s, t * t, w as real);
    if s > t {
      SqGrows(s, t);
    } else if t > s {
      SqGrows(t, s);
    }
  }

  /** The bounds are two standard deviations from the mean, wherever that is within 0 and 110. */
  lemma BandIs(values: seq<real>, w: nat, i: nat, sqrt: real -> real, sigma: real)
    requires RootFunction(sqrt) && Deviates(values, w, i, sigma)
    ensures var band, mean := BandAt(values, w, i, sqrt), WindowMean(values, i, w);
            && band.upper == Some(if mean + 2.0 * sigma <= 110.0 then mean + 2.0 * sigma else 110.0)
            && band.lower == Some(if mean - 2.0 * sigma >= 0.0 then mean - 2.0 * sigma else 0.0)
  {
    RootDeviates(values, w, i, sqrt);
    OneDeviation(values, w, i, sigma, sqrt(Variance(values, i, w)));
    hide RootFunction, SquareSum, WindowMean, Variance;
  }

  lemma FourTimes(sigma: real, width: real, n: real, q: real)
    requires width == 4.0 * sigma && sigma * sigma * n == q
    ensures width * width * n == 16.0 * q
  {
    assert width * width == 16.0 * (sigma * sigma);
  }

  /** A band that is not clamped lies around the mean, and its width squared is 16 times the variance. */
  lemma BandWidth(values: seq<real>, w: nat, i: nat, sqrt: real -> real)
    requires RootFunction(sqrt) && 1 <= w <= i + 1 <= |values|
    ensures var band, mean := BandAt(values, w, i, sqrt), WindowMean(values, i, w);
            0.0 < band.lower.value && band.upper.value < 110.0 ==>
              && band.upper.value + band.lower.value == 2.0 * mean
              && band.upper.value >= band.lower.value
              && (band.upper.value - band.lower.value) * (band.upper.value - band.lower.value) * w as real
                 == 16.0 * SquareSum(values, i + 1 - w, i + 1, mean)
  {
    var sigma, mean, band := sqrt(Variance(values, i, w)), WindowMean(values, i, w), BandAt(values, w, i, sqrt);
    RootDeviates(values, w, i, sqrt);
    BandIs(values, w, i, sqrt, sigma);
    hide BandAt, RootFunction, SquareSum, WindowMean, Variance;
    if 0.0 < band.lower.value && band.upper.value < 110.0 {
      FourTimes(sigma, band.upper.value - band.lower.value, w as real, SquareSum(values, i + 1 - w, i + 1, mean));
    }
  }

  /** How many of values[lo..hi] lie between the two bounds. */
  function Inside(values: seq<real>, lo: nat, hi: nat, lower: real, upper: real): (n: nat)
    requires lo <= hi <= |values|
    ensures n <= hi - lo
  {
    if lo == hi then 0
    else Inside(values, lo, hi - 1, lower, upper) + if lower <= values[hi - 1] <= upper then 1 else 0
  }

  function IndicesInside(values: seq<real>, lo: nat, hi: nat, lower: real, upper: real): set<nat>
    requires lo <= hi <= |values|
  {
    set k: nat | lo <= k < hi && lower <= values[k] <= upper
  }

  lemma {:induction false} InsideIs(values: seq<real>, lo: nat, hi: nat, lower: real, upper: real)
    requires lo <= hi <= |values|
    ensures Inside(values, lo, hi, lower, upper) == |IndicesInside(values, lo, hi, lower, upper)|
  {
    if lo == hi {
      assert IndicesInside(values, lo, hi, lower, upper) == {};
    } else {
      InsideIs(values, lo, hi - 1, lower, upper);
      var before := IndicesInside(values, lo, hi - 1, lower, upper);
      assert IndicesInside(values, lo, hi, lower, upper)
          == before + if lower <= values[hi - 1] <= upper then {hi - 1} else {};
      assert hi - 1 !in before;
    }
  }

  function Times(v: real, n: int): real { v * n as real }

  lemma AddsOne(v: real, n: int)
    ensures Times(v, n + 1) == Times(v, n) + v
  {
  }

  /** The value `v` lies outside mean +- 2 sigma. */
  lemma OutsideSquare(v: real, mean: real, sigma: real)
    requires sigma >= 0.0 && !(mean - 2.0 * sigma <= v <= mean + 2.0 * sigma)
    ensures Sq(v - mean) > 4.0 * Sq(sigma)
  {
    SqGrows(v - mean, 2.0 * sigma);
    assert Sq(2.0 * sigma) == 4.0 * Sq(sigma);
  }

  /** Every value outside mean +- 2 sigma adds more than `bound`, four variances, to the sum of squares. */
  lemma {:induction false} OutsideCosts(values: seq<real>, lo: nat, hi: nat, mean: real, sigma: real, bound: real)
    requires lo <= hi <= |values| && sigma >= 0.0 && bound == 4.0 * Sq(sigma)
    ensures var outside := hi - lo - Inside(values, lo, hi, mean - 2.0 * sigma, mean + 2.0 * sigma);
            && SquareSum(values, lo, hi, mean) >= Times(bound, outside)
            && (outside > 0 ==> SquareSum(values, lo, hi, mean) > Times(bound, outside))
  {
    if lo == hi {
      return;
    }
    hide Sq, Times;
    var before := hi - 1 - lo - Inside(values, lo, hi - 1, mean - 2.0 * sigma, mean + 2.0 * sigma);
    OutsideCosts(values, lo, hi - 1, mean, sigma, bound);
    SqSign(values[hi - 1] - mean);
    if !(mean - 2.0 * sigma <= values[hi - 1] <= mean + 2.0 * sigma) {
      OutsideSquare(values[hi - 1], mean, sigma);
      AddsOne(bound, before);
    }
  }

  /** The sum of `w` variances leaves room for at most a quarter of the values outside. */
  lemma FewOutside(v: real, outside: nat, w: nat)
    requires v >= 0.0
    requires outside > 0 ==> v * w as real > 4.0 * v * outside as real
    ensures 4 * outside <= w
  {
    var gap := 4.0 * outside as real - w as real;
    assert v * gap == 4.0 * v * outside as real - v * w as real;
    assert gap > 0.0 && v > 0.0 ==> v * gap > 0.0;
  }

  lemma Chebyshev(values: seq<real>, lo: nat, hi: nat, mean: real, sigma: real)
    requires lo <= hi <= |values| && sigma >= 0.0
    requires Sq(sigma) * (hi - lo) as real == SquareSum(values, lo, hi, mean)
    ensures 4 * Inside(values, lo, hi, mean - 2.0 * sigma, mean + 2.0 * sigma) >= 3 * (hi - lo)
  {
    hide Sq, SquareSum, Inside;
    var outside := hi - lo - Inside(values, lo, hi, mean - 2.0 * sigma, mean + 2.0 * sigma);
    SqSign(sigma);
    OutsideCosts(values, lo, hi, mean, sigma, 4.0 * Sq(sigma));
    FewOutside(Sq(sigma), outside, hi - lo);
  }

  /** Values between 0 and 110 cannot tell clamped bounds from the bounds themselves. */
  lemma {:induction false} ClampKeepsInside(values: seq<real>, lo: nat, hi: nat, lower: real, upper: real)
    requires lo <= hi <= |values|
    requires forall k :: lo <= k < hi ==> 0.0 <= values[k] <= 110.0
    ensures Inside(values, lo, hi, Max(0.0, lower), Min(110.0, upper)) == Inside(values, lo, hi, lower, upper)
  {
    if lo == hi {
    } else {
      ClampKeepsInside(values, lo, hi - 1, lower, upper);
    }
  }

  /** At least three quarters of every window lie inside the band drawn for it, as long as the values lie in the drawn range. */
  lemma BandHoldsThreeQuarters(values: seq<real>, w: nat, i: nat, sqrt: real -> real)
    requires RootFunction(sqrt) && 1 <= w <= i + 1 <= |values|
    requires forall k :: i + 1 - w <= k <= i ==> 0.0 <= values[k] <= 110.0
    ensures var band := BandAt(values, w, i, sqrt);
            4 * Inside(values, i + 1 - w, i + 1, band.lower.value, band.upper.value) >= 3 * w
  {
    hide Sq, WindowMean, Variance, SquareSum, Inside, Min, Max;
    var lo, hi, mean, sigma := i + 1 - w, i + 1, WindowMean(values, i, w), sqrt(Variance(values, i, w));
    Chebyshev(values, lo, hi, mean, sigma);
    ClampKeepsInside(values, lo, hi, mean - 2.0 * sigma, mean + 2.0 * sigma);
  }

  // --- and outside the drawn range ---

  lemma SumOfEqual(v: real, n: int)
    ensures Times(v, n + 1) == Times(v, n) + v
    ensures Times(v, 0) == 0.0
  {
  }

  lemma {:induction false} FlatSum(values: seq<real>, lo: nat, hi: nat, v: real)
    requires lo <= hi <= |values| && forall k :: lo <= k < hi ==> values[k] == v
    ensures RangeSum(values, lo, hi) == Times(v, hi - lo)
  {
    hide Times;
    SumOfEqual(v, hi - lo - 1);
    if lo == hi {
      SumOfEqual(v, 0);
    } else {
      FlatSum(values, lo, hi - 1, v);
    }
  }

  lemma {:induction false} FlatSquares(values: seq<real>, lo: nat, hi: nat, v: real)
    requires lo <= hi <= |values| && forall k :: lo <= k < hi ==> values[k] == v
    ensures SquareSum(values, lo, hi, v) == 0.0
  {
    if lo == hi {
      assert SquareSum(values, lo, hi, v) == 0.0;
    } else {
      FlatSquares(values, lo, hi - 1, v);
      assert Sq(values[hi - 1] - v) == Sq(0.0) == 0.0;
    }
  }

  lemma MeanOfTimes(v: real, n: nat)
    requires n >= 1
    ensures Times(v, n) / n as real == v
  {
  }

  lemma ZeroVariance(n: nat)
    requires n >= 1
    ensures 0.0 / n as real == 0.0
  {
  }

  /** A root of zero is zero. */
  lemma RootOfZero(sqrt: real -> real)
    requires RootFunction(sqrt)
    ensures sqrt(0.0) == 0.0
  {
    SqSign(sqrt(0.0));
  }

  /** The band of a flat window is the clamped value itself. */
  lemma FlatBand(values: seq<real>, w: nat, i: nat, v: real, sqrt: real -> real)
    requires RootFunction(sqrt) && 1 <= w <= i + 1 <= |values|
    requires forall k :: i + 1 - w <= k <= i ==> values[k] == v
    ensures WindowMean(values, i, w) == v && Variance(values, i, w) == 0.0
    ensures BandAt(values, w, i, sqrt) == Band(Some(Min(110.0, v)), Some(Max(0.0, v)))
  {
    hide Times, RangeSum, SquareSum, Sq;
    FlatSum(values, i + 1 - w, i + 1, v);
    MeanOfTimes(v, w);
    FlatSquares(values, i + 1 - w, i + 1, v);
    ZeroVariance(w);
    RootOfZero(sqrt);
  }

  lemma {:induction false} NoneInside(values: seq<real>, lo: nat, hi: nat, lower: real, upper: real)
    requires lo <= hi <= |values| && forall k :: lo <= k < hi ==> !(lower <= values[k] <= upper)
    ensures Inside(values, lo, hi, lower, upper) == 0
  {
    if lo == hi {
      assert Inside(values, lo, hi, lower, upper) == 0;
    } else {
      NoneInside(values, lo, hi - 1, lower, upper);
    }
  }

  /** A flat window outside the drawn range lies wholly outside its band. */
  lemma ClampExcludesOutliers(values: seq<real>, w: nat, i: nat, v: real, sqrt: real -> real)
    requires RootFunction(sqrt) && 1 <= w <= i + 1 <= |values|
    requires forall k :: i + 1 - w <= k <= i ==> values[k] == v
    requires v < 0.0 || v > 110.0
    ensures var band := BandAt(values, w, i, sqrt);
            Inside(values, i + 1 - w, i + 1, band.lower.value, band.upper.value) == 0
  {
    FlatBand(values, w, i, v, sqrt);
    hide BandAt, Inside;
    NoneInside(values, i + 1 - w, i + 1, Max(0.0, v), Min(110.0, v));
  }

  /** At least three quarters of the window that ends at `i` lie inside its band. */
  predicate ThreeQuarters(values: seq<real>, w: nat, i: nat, sqrt: real -> real)
    requires 1 <= w <= i + 1 <= |values|
  {
    var band := BandAt(values, w, i, sqrt);
    4 * Inside(values, i + 1 - w, i + 1, band.lower.value, band.upper.value) >= 3 * w
  }

  ghost predicate WindowIn(values: seq<real>, w: nat, i: nat, range: iset<real>) {
    1 <= w <= i + 1 <= |values| && forall k :: i + 1 - w <= k <= i ==> values[k] in range
  }

  /** For every window size, the band holds three quarters of every window with values from a given set, exactly
      if that set lies in the drawn range. */
  lemma BandHoldsExactly(w: nat, range: iset<real>, sqrt: real -> real)
    requires RootFunction(sqrt) && w >= 1
    ensures (forall values: seq<real>, i: nat :: WindowIn(values, w, i, range) ==> ThreeQuarters(values, w, i, sqrt))
            <==> forall v :: v in range ==> 0.0 <= v <= 110.0
  {
    hide BandAt, Inside;
    if forall v :: v in range ==> 0.0 <= v <= 110.0 {
      forall values: seq<real>, i: nat | WindowIn(values, w, i, range) ensures ThreeQuarters(values, w, i, sqrt) {
        BandHoldsThreeQuarters(values, w, i, sqrt);
      }
    } else {
      var v :| v in range && !(0.0 <= v <= 110.0);
      var values, i := seq(w, k => v), w - 1;
      ClampExcludesOutliers(values, w, i, v, sqrt);
      assert WindowIn(values, w, i, range) && !ThreeQuarters(values, w, i, sqrt);
    }
  }

  method CalculateBollinger(values: seq<real>, windowSize: nat, sqrt: real -> real) returns (bands: seq<Band>)
    requires windowSize >= 1 && RootFunction(sqrt)
    ensures |bands| == |values|
    ensures forall i :: 0 <= i < |values| ==> (bands[i].upper.None? <==> i < windowSize - 1)
    ensures forall i :: 0 <= i < |values| ==> (bands[i].lower.None? <==> i < windowSize - 1)
    ensures forall i :: 0 <= i < |values| ==> bands[i] == BandAt(values, windowSize, i, sqrt)
    ensures forall i: nat, sigma: real :: i < |values| && Deviates(values, windowSize, i, sigma) ==>
              var mean := WindowMean(values, i, windowSize);
              && bands[i].upper == Some(if mean + 2.0 * sigma <= 110.0 then mean + 2.0 * sigma else 110.0)
              && bands[i].lower == Some(if mean - 2.0 * sigma >= 0.0 then mean - 2.0 * sigma else 0.0)
    ensures (forall k :: 0 <= k < |values| ==> 0.0 <= values[k] <= 110.0) ==>
              forall i :: windowSize - 1 <= i < |values| ==>
                4 * Inside(values, i + 1 - windowSize, i + 1, bands[i].lower.value, bands[i].upper.value)
                >= 3 * windowSize
  {
    var sma := CalculateSMA(values, windowSize);
    bands := seq(|values|, i requires 0 <= i < |values| => BandFrom(values, windowSize, sma[i], i, sqrt));
    forall i: nat, sigma: real | i < |values| && Deviates(values, windowSize, i, sigma) {
      BandIs(values, windowSize, i, sqrt, sigma);
    }
    hide Deviates;
    if forall k :: 0 <= k < |values| ==> 0.0 <= values[k] <= 110.0 {
      forall i | windowSize - 1 <= i < |values|
        ensures 4 * Inside(values, i + 1 - windowSize, i + 1, bands[i].lower.value, bands[i].upper.value)
                >= 3 * windowSize
      {
        BandHoldsThreeQuarters(values, windowSize, i, sqrt);
      }
    }
  }

  /** The band at `i`, from the mean that the sliding pass found. */
  function BandFrom(values: seq<real>, w: nat, sma: Option<real>, i: nat, sqrt: real -> real): Band
    requires 1 <= w && i < |values|
  {
    if sma.None? then Band(None, None)
    else
      var start := WindowStart(i, w);
      var variance := SquareSum(values, start, i + 1, sma.value) / (i + 1 - start) as real;
      Band(Some(Min(110.0, sma.value + 2.0 * sqrt(variance))), Some(Max(0.0, sma.value - 2.0 * sqrt(variance))))
  }
}
