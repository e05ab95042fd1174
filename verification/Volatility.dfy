/**
  The cumulative volatility series of a closing-price history. Logarithm, square
  root and the final rounding are functions of which only the stated laws are used.
*/
module Volatility {
  import opened Candles

  datatype Functions = Functions(log: real -> real, sqrt: real -> real, round: real -> real)

  const HOURS_A_YEAR := 8760.0

  /** The logarithm turns products of positive numbers into sums. */
  ghost predicate LogLaw(f: Functions) {
    forall x: real, y: real {:trigger f.log(x * y)} :: x > 0.0 && y > 0.0 ==> f.log(x * y) == f.log(x) + f.log(y)
  }

  ghost predicate Positive(closes: seq<real>) {
    forall i | 0 <= i < |closes| :: closes[i] > 0.0
  }

  // ---------- One point ----------

  /** `diff` of the logarithms. */
  function LogReturns(f: Functions, closes: seq<real>): seq<real> {
    if |closes| <= 1 then []
    else
      var n := |closes| - 1;
      LogReturns(f, closes[..n]) + [f.log(closes[n]) - f.log(closes[n - 1])]
  }

  function Sum(xs: seq<real>): real {
    if xs == [] then 0.0 else Sum(xs[..|xs| - 1]) + xs[|xs| - 1]
  }

  function Times(x: real, y: real): real {
    x * y
  }

  function Square(d: real): real {
    d * d
  }

  function SquaresFrom(xs: seq<real>, m: real): real {
    if xs == [] then 0.0
    else SquaresFrom(xs[..|xs| - 1], m) + Square(xs[|xs| - 1] - m)
  }

  function Mean(xs: seq<real>): real
    requires xs != []
  {
    Sum(xs) / |xs| as real
  }

  /** The population variance. */
  function Variance(xs: seq<real>): real
    requires xs != []
  {
    SquaresFrom(xs, Mean(xs)) / |xs| as real
  }

  /** The deviation of the returns, scaled to a year of hours. */
  function Deviation(f: Functions, r: seq<real>): real {
    f.round(Times(f.sqrt(if r == [] then 0.0 else Variance(r)), f.sqrt(HOURS_A_YEAR)))
  }

  function PointOf(f: Functions, window: seq<real>): real {
    Deviation(f, LogReturns(f, window))
  }

  // ---------- The series ----------

  datatype Point = Point(time: int, volatility: real)

  /** The endpoint's answer; with exactly two candles it looks for the last of no points and raises. */
  datatype Answer = Empty | Raised | Series(latest: real, data: seq<Point>)

  function Closes(candles: seq<Candle>): seq<real> {
    seq(|candles|, i requires 0 <= i < |candles| => candles[i].close)
  }

  /** Point `i` carries the i-th time and covers the closes before it. */
  function PointAt(f: Functions, candles: seq<Candle>, i: nat): Point
    requires i < |candles|
  {
    Point(candles[i].time, PointOf(f, Closes(candles)[..i]))
  }

  method GetVolatility(f: Functions, candles: seq<Candle>) returns (a: Answer)
    ensures a.Empty? <==> |candles| < 2
    ensures a.Raised? <==> |candles| == 2
    ensures a.Series? ==> |a.data| == |candles| - 2 && a.latest == a.data[|a.data| - 1].volatility
    ensures a.Series? ==> forall k | 0 <= k < |a.data| ::
              a.data[k] == PointAt(f, candles, k + 2) && a.data[k].time == candles[k + 2].time
  {
    if |candles| < 2 {
      return Empty;
    }
    var closes := Closes(candles);
    var points: seq<Point> := [];
    for i := 2 to |candles|
      invariant |points| == i - 2
      invariant forall k | 0 <= k < |points| :: points[k] == PointAt(f, candles, k + 2)
    {
      points := points + [Point(candles[i].time, PointOf(f, closes[..i]))];
    }
    if points == [] {
      return Raised;
    }
    a := Series(points[|points| - 1].volatility, points);
  }

  // ---------- Main results ----------

  /** Later candles never change an earlier point. */
  lemma AppendingKeepsPoints(f: Functions, candles: seq<Candle>, more: seq<Candle>, i: nat)
    requires i < |candles|
    ensures PointAt(f, candles + more, i) == PointAt(f, candles, i)
  {
    assert Closes(candles + more)[..i] == Closes(candles)[..i];
  }

  /** The same closes, each times `k`. */
  ghost predicate IsScaled(closes: seq<real>, scaled: seq<real>, k: real) {
    |scaled| == |closes| && forall i | 0 <= i < |closes| :: scaled[i] == closes[i] * k
  }

  lemma LogOfProduct(f: Functions, x: real, y: real, z: real)
    requires LogLaw(f) && x > 0.0 && y > 0.0 && z == x * y
    ensures f.log(z) == f.log(x) + f.log(y)
  {
    assert f.log(x * y) == f.log(x) + f.log(y);
  }

  lemma {:induction false} ScalingKeepsReturns(f: Functions, closes: seq<real>, scaled: seq<real>, k: real)
    requires LogLaw(f) && Positive(closes) && k > 0.0 && IsScaled(closes, scaled, k)
    ensures LogReturns(f, scaled) == LogReturns(f, closes)
  {
    if |closes| <= 1 {
    } else {
      var n := |closes| - 1;
      ScalingKeepsReturns(f, closes[..n], scaled[..n], k);
      LogOfProduct(f, closes[n], k, scaled[n]);
      LogOfProduct(f, closes[n - 1], k, scaled[n - 1]);
    }
  }

  /** Quoting the prices in another unit changes no point. */
  lemma ScalingKeepsPoints(f: Functions, candles: seq<Candle>, scaled: seq<Candle>, k: real, i: nat)
    requires LogLaw(f) && Positive(Closes(candles)) && k > 0.0
    requires IsScaled(Closes(candles), Closes(scaled), k)
    requires i < |candles| && scaled[i].time == candles[i].time
    ensures PointAt(f, scaled, i) == PointAt(f, candles, i)
  {
    var closes, closes' := Closes(candles), Closes(scaled);
    ScaledWindow(closes, closes', k, i);
    ScalingKeepsReturns(f, closes[..i], closes'[..i], k);
  }

  lemma ScaledWindow(closes: seq<real>, scaled: seq<real>, k: real, i: nat)
    requires IsScaled(closes, scaled, k) && i <= |closes|
    ensures IsScaled(closes[..i], scaled[..i], k)
  {
  }

  /** Each close is the one before times `q`. */
  ghost predicate Geometric(closes: seq<real>, q: real) {
    forall i | 0 < i < |closes| :: closes[i] == closes[i - 1] * q
  }

  predicate Constant(xs: seq<real>, c: real) {
    forall i | 0 <= i < |xs| :: xs[i] == c
  }

  lemma {:induction false} GeometricReturns(f: Functions, closes: seq<real>, q: real)
    requires LogLaw(f) && Positive(closes) && q > 0.0 && Geometric(closes, q)
    ensures Constant(LogReturns(f, closes), f.log(q))
  {
    if |closes| <= 1 {
    } else {
      var n := |closes| - 1;
      GeometricFront(closes, q);
      GeometricReturns(f, closes[..n], q);
      LogOfProduct(f, closes[n - 1], q, closes[n]);
      ConstantMore(LogReturns(f, closes[..n]), f.log(closes[n]) - f.log(closes[n - 1]), f.log(q));
    }
  }

  lemma GeometricFront(closes: seq<real>, q: real)
    requires closes != [] && Positive(closes) && Geometric(closes, q)
    ensures Positive(closes[..|closes| - 1]) && Geometric(closes[..|closes| - 1], q)
  {
  }

  lemma ConstantMore(xs: seq<real>, x: real, c: real)
    requires Constant(xs, c) && x == c
    ensures Constant(xs + [x], c)
  {
  }

  lemma {:induction false} ConstantSum(xs: seq<real>, c: real)
    requires Constant(xs, c)
    ensures Sum(xs) == |xs| as real * c
  {
    if xs == [] {
    } else {
      var n := |xs| - 1;
      ConstantSum(xs[..n], c);
      assert (n as real + 1.0) * c == n as real * c + c;
    }
  }

  lemma {:induction false} ConstantSquares(xs: seq<real>, c: real)
    requires Constant(xs, c)
    ensures SquaresFrom(xs, c) == 0.0
  {
    if xs == [] {
    } else {
      ConstantSquares(xs[..|xs| - 1], c);
    }
  }

  lemma ConstantVariance(xs: seq<real>, c: real)
    requires xs != [] && Constant(xs, c)
    ensures Variance(xs) == 0.0
  {
    ConstantSum(xs, c);
    var n := |xs| as real;
    assert n * c / n == c;
    assert Mean(xs) == c;
    ConstantSquares(xs, c);
  }

  /** A price that grows by a constant factor has volatility zero at every point. */
  lemma GeometricIsCalm(f: Functions, candles: seq<Candle>, q: real, i: nat)
    requires LogLaw(f) && f.sqrt(0.0) == 0.0 && f.round(0.0) == 0.0
    requires Positive(Closes(candles)) && q > 0.0 && Geometric(Closes(candles), q) && i < |candles|
    ensures PointAt(f, candles, i).volatility == 0.0
  {
    var window := Closes(candles)[..i];
    GeometricReturns(f, window, q);
    var r := LogReturns(f, window);
    if r != [] {
      ConstantVariance(r, f.log(q));
    }
  }

  lemma SameSignPositive(x: real, y: real, product: real)
    requires product == x * y
    requires (x > 0.0 && y > 0.0) || (x < 0.0 && y < 0.0)
    ensures product > 0.0
  {
  }

  lemma SquarePositive(d: real, square: real)
    requires square == d * d
    ensures d == 0.0 ==> square == 0.0
    ensures d != 0.0 ==> square > 0.0
  {
    if d != 0.0 {
      SameSignPositive(d, d, square);
    }
  }

  lemma AddSquare(before: real, d: real, square: real, after: real)
    requires square == d * d && after == before + square
    ensures after >= before
    ensures d != 0.0 ==> after > before
  {
    SquarePositive(d, square);
  }

  /** A variance of zero means that all returns are equal. */
  lemma {:induction false} ZeroSquaresConstant(xs: seq<real>, m: real)
    ensures SquaresFrom(xs, m) >= 0.0
    ensures !Constant(xs, m) ==> SquaresFrom(xs, m) > 0.0
  {
    if xs == [] {
    } else {
      var n := |xs| - 1;
      ZeroSquaresConstant(xs[..n], m);
      AddSquare(SquaresFrom(xs[..n], m), xs[n] - m, Square(xs[n] - m), SquaresFrom(xs, m));
      assert forall i | 0 <= i < n :: xs[i] == xs[..n][i];
    }
  }

  /** The variance of the returns is zero exactly when they are all the same. */
  lemma VarianceZeroIff(xs: seq<real>)
    requires xs != []
    ensures Variance(xs) >= 0.0
    ensures Variance(xs) == 0.0 <==> exists c :: Constant(xs, c)
  {
    ZeroSquaresConstant(xs, Mean(xs));
    if c :| Constant(xs, c) {
      ConstantVariance(xs, c);
    }
    if Variance(xs) == 0.0 {
      assert SquaresFrom(xs, Mean(xs)) == Variance(xs) * |xs| as real;
      assert Constant(xs, Mean(xs));
    }
  }

  // ---------- What a point is ----------

  /** The square root, on what has one. */
  ghost predicate SqrtLaw(f: Functions) {
    forall x: real {:trigger f.sqrt(x)} :: x >= 0.0 ==> f.sqrt(x) >= 0.0 && f.sqrt(x) * f.sqrt(x) == x
  }

  /** Return k is the difference of the logarithms of closes k + 1 and k. */
  lemma {:induction false} ReturnsAre(f: Functions, closes: seq<real>, k: nat)
    requires k + 1 < |closes|
    ensures |LogReturns(f, closes)| == |closes| - 1
    ensures LogReturns(f, closes)[k] == f.log(closes[k + 1]) - f.log(closes[k])
  {
    var n := |closes| - 1;
    if k + 1 < n {
      ReturnsAre(f, closes[..n], k);
    } else if n > 1 {
      ReturnsAre(f, closes[..n], 0);
    }
  }

  lemma ExpandSquare(x: real, m: real)
    ensures (x - m) * (x - m) == x * x - 2.0 * (m * x) + m * m
  {
    assert (x - m) * (x - m) == x * (x - m) - m * (x - m);
  }

  lemma Distributes(a: real, b: real, c: real)
    ensures a * (b + c) == a * b + a * c
    ensures (b + c) * a == b * a + c * a
  {
  }

  lemma ExpandStep(sum: real, n: real, x: real, m: real)
    ensures Square(x - m) == Square(x - 0.0) - 2.0 * (Times(m, sum + x) - Times(m, sum)) + Times(n + 1.0, Square(m)) - Times(n, Square(m))
  {
    ExpandSquare(x, m);
    Distributes(m, sum, x);
    Distributes(m * m, n, 1.0);
  }

  lemma {:induction false} SquaresExpand(xs: seq<real>, m: real)
    ensures SquaresFrom(xs, m) == SquaresFrom(xs, 0.0) - 2.0 * Times(m, Sum(xs)) + Times(|xs| as real, Square(m))
  {
    if xs == [] {
    } else {
      hide Times, Square;
      var n := |xs| - 1;
      SquaresExpand(xs[..n], m);
      ExpandStep(Sum(xs[..n]), n as real, xs[n], m);
    }
  }

  /** n times the variance is the sum of the squares less the square of the sum over n. */
  lemma VarianceIs(xs: seq<real>)
    requires xs != []
    ensures var n := |xs| as real; Times(Variance(xs), n) == SquaresFrom(xs, 0.0) - Square(Sum(xs)) / n
  {
    hide Times, Square, SquaresFrom, Sum;
    var n, m := |xs| as real, Mean(xs);
    SquaresExpand(xs, m);
    MeanSquares(Sum(xs), n, m);
    DivideBack(SquaresFrom(xs, m), n);
  }

  lemma DivideBack(x: real, n: real)
    requires n > 0.0
    ensures Times(x / n, n) == x
  {
  }

  lemma MeanSquares(sum: real, n: real, m: real)
    requires n > 0.0 && m == sum / n
    ensures Times(m, sum) == Square(sum) / n && Times(n, Square(m)) == Square(sum) / n
  {
    assert m * n == sum;
    assert n * (m * m) == (m * n) * m;
    assert (m * sum) * n == (m * n) * sum;
    DivideBack(m * sum, n);
  }

  lemma SquareOfProduct(a: real, b: real, x: real, y: real)
    requires a * a == x && b * b == y && a >= 0.0 && b >= 0.0
    ensures Square(Times(a, b)) == Times(x, y) && Times(a, b) >= 0.0
  {
    assert (a * b) * (a * b) == a * (b * (a * b));
    assert b * (a * b) == a * (b * b);
    assert a * (a * (b * b)) == (a * a) * (b * b);
  }

  /** The variance of the returns of the closes before candle `i`. */
  function WindowVariance(f: Functions, candles: seq<Candle>, i: nat): real
    requires 2 <= i <= |candles|
  {
    var rs := LogReturns(f, Closes(candles)[..i]);
    if rs == [] then 0.0 else Variance(rs)
  }

  /**
    A point is the rounded positive number whose square is the population variance of
    the returns of the closes before it, times the hours of a year.
  */
  lemma VolatilityIs(f: Functions, candles: seq<Candle>, i: nat) returns (v: real)
    requires SqrtLaw(f) && 2 <= i < |candles|
    ensures PointAt(f, candles, i).volatility == f.round(v)
    ensures v >= 0.0 && v * v == WindowVariance(f, candles, i) * 8760.0
  {
    var x := WindowVariance(f, candles, i);
    WindowVarianceNonNegative(f, candles, i);
    v := Times(f.sqrt(x), f.sqrt(HOURS_A_YEAR));
    SquareOfProduct(f.sqrt(x), f.sqrt(HOURS_A_YEAR), x, HOURS_A_YEAR);
    assert Square(v) == v * v && Times(x, HOURS_A_YEAR) == x * 8760.0;
  }

  lemma WindowVarianceNonNegative(f: Functions, candles: seq<Candle>, i: nat)
    requires 2 <= i <= |candles|
    ensures LogReturns(f, Closes(candles)[..i]) != [] && WindowVariance(f, candles, i) >= 0.0
  {
    ReturnsAre(f, Closes(candles)[..i], 0);
    VarianceZeroIff(LogReturns(f, Closes(candles)[..i]));
  }

  /** All returns of the closes before candle `i` are equal. */
  ghost predicate SteadyBefore(f: Functions, candles: seq<Candle>, i: nat)
    requires i <= |candles|
  {
    forall k, l | 0 <= k < i - 1 && 0 <= l < i - 1 :: LogReturn(f, candles, k) == LogReturn(f, candles, l)
  }

  function LogReturn(f: Functions, candles: seq<Candle>, k: nat): real
    requires k + 1 < |candles|
  {
    f.log(candles[k + 1].close) - f.log(candles[k].close)
  }

  /** With an exact result, a point is zero exactly when all returns before it are equal. */
  lemma CalmIff(f: Functions, candles: seq<Candle>, i: nat)
    requires SqrtLaw(f) && (forall x: real {:trigger f.round(x)} :: f.round(x) == x) && 2 <= i < |candles|
    ensures PointAt(f, candles, i).volatility == 0.0 <==> SteadyBefore(f, candles, i)
  {
    var v := VolatilityIs(f, candles, i);
    var rs := LogReturns(f, Closes(candles)[..i]);
    ReturnsAre(f, Closes(candles)[..i], 0);
    VarianceZeroIff(rs);
    SquarePositive(v, v * v);
    SteadyIsConstant(f, candles, i);
  }

  lemma WindowReturnIs(f: Functions, candles: seq<Candle>, i: nat, k: nat)
    requires k + 1 < i <= |candles|
    ensures var rs := LogReturns(f, Closes(candles)[..i]); |rs| == i - 1 && rs[k] == LogReturn(f, candles, k)
  {
    ReturnsAre(f, Closes(candles)[..i], k);
  }

  lemma SteadyIsConstant(f: Functions, candles: seq<Candle>, i: nat)
    requires 2 <= i <= |candles|
    ensures SteadyBefore(f, candles, i) <==> exists c :: Constant(LogReturns(f, Closes(candles)[..i]), c)
  {
    var rs := LogReturns(f, Closes(candles)[..i]);
    WindowReturnIs(f, candles, i, 0);
    if SteadyBefore(f, candles, i) {
      forall k | 0 <= k < |rs| ensures rs[k] == rs[0] {
        WindowReturnIs(f, candles, i, k);
      }
      assert Constant(rs, rs[0]);
    }
    if c :| Constant(rs, c) {
      forall k, l | 0 <= k < i - 1 && 0 <= l < i - 1 ensures LogReturn(f, candles, k) == LogReturn(f, candles, l) {
        WindowReturnIs(f, candles, i, k);
        WindowReturnIs(f, candles, i, l);
      }
    }
  }
}
