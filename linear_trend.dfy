/** `betas`: the ordinary-least-squares intercept and slope of the
    series against the time index x = 1 .. N. */
module LinearTrend {
  import opened Sums

  /** `range(1, N + 1)`, the time indexes, as reals. */
  function Times(n: nat): seq<real>
  {
    seq(n, i requires 0 <= i < n => (i + 1) as real)
  }

  /** `sum(range(n + 1))`, the integer sum 0 + 1 + ... + n. */
  function RangeSum(n: nat): real
  {
    if n == 0 then 0.0 else RangeSum(n - 1) + n as real
  }

  /** `sum(range(N + 1)) / N`, the mean time index `Xbar`. */
  function XBar(n: nat): real
    requires n >= 1
  {
    RangeSum(n) / n as real
  }

  /** `[v - m for v in s]`. */
  function Deviations(s: seq<real>, m: real): (r: seq<real>)
    ensures |r| == |s|
  {
    seq(|s|, i requires 0 <= i < |s| => s[i] - m)
  }

  /** `[x * y for x, y in zip(s, t)]` (`x**2` when both are the same list). */
  function Products(s: seq<real>, t: seq<real>): (r: seq<real>)
    requires |s| == |t|
    ensures |r| == |s|
  {
    seq(|s|, i requires 0 <= i < |s| => s[i] * t[i])
  }

  /** `X_minus_Xbar`. */
  function XDeviations(n: nat): (r: seq<real>)
    requires n >= 1
    ensures |r| == n
  {
    Deviations(Times(n), XBar(n))
  }

  /** The slope's denominator, `sum(X_minus_Xbar_square)`. */
  function DevSquares(n: nat): real
    requires n >= 1
  {
    Sum(Products(XDeviations(n), XDeviations(n)))
  }

  /** The slope's numerator, `sum(X_minus_Xbar_times_y_minus_Ybar)`. */
  function CrossSum(data: seq<real>): real
    requires |data| >= 1
  {
    Sum(Products(XDeviations(|data|), Deviations(data, Mean(data))))
  }

  /** `b1 = Sxy / Sxx` and `b0 = Ybar - b1 * Xbar`, from the two means and two sums. */
  function Fit(yBar: real, xBar: real, sxy: real, sxx: real): (real, real)
    requires sxx != 0.0
  {
    (yBar - sxy / sxx * xBar, sxy / sxx)
  }

  /** `betas(data)`: the intercept and slope `(b0, b1)`. It needs two observations: with
      one, `Sxx` is 0 and the division fails (with none, already the means do). */
  function Betas(data: seq<real>): (fit: (real, real))
    requires |data| >= 2
    ensures DevSquares(|data|) > 0.0 && fit.1 * DevSquares(|data|) == CrossSum(data)
    ensures fit.0 == Mean(data) - fit.1 * XBar(|data|)
  {
    DevSquaresPositive(|data|);
    Fit(Mean(data), XBar(|data|), CrossSum(data), DevSquares(|data|))
  }

  /** The fitted line passes through the centroid ((N + 1) / 2, mean(data)). */
  lemma Centroid(data: seq<real>)
    requires |data| >= 2
    ensures Betas(data).0 + Betas(data).1 * ((|data| + 1) as real / 2.0) == Mean(data)
  {
    var n := |data|;
    DevSquaresPositive(n);
    XBarIsMidpoint(n);
    FitThroughMeans(Mean(data), XBar(n), CrossSum(data), DevSquares(n));
  }

  lemma FitParts(yBar: real, xBar: real, sxy: real, sxx: real)
    requires sxx != 0.0
    ensures Fit(yBar, xBar, sxy, sxx).1 == sxy / sxx
    ensures Fit(yBar, xBar, sxy, sxx).0 == yBar - Fit(yBar, xBar, sxy, sxx).1 * xBar
  {
  }

  lemma FitThroughMeans(yBar: real, xBar: real, sxy: real, sxx: real)
    requires sxx != 0.0
    ensures Fit(yBar, xBar, sxy, sxx).0 + Fit(yBar, xBar, sxy, sxx).1 * xBar == yBar
  {
  }

  /** `sum(range(N + 1)) / N == (N + 1) / 2`: the mean of 1 .. N. */
  lemma XBarIsMidpoint(n: nat)
    requires n >= 1
    ensures XBar(n) == (n + 1) as real / 2.0
  {
    RangeSumClosed(n);
  }

  /** `sum(range(n + 1)) == n * (n + 1) / 2`. */
  lemma {:induction false} RangeSumClosed(n: nat)
    ensures RangeSum(n) == n as real * ((n + 1) as real / 2.0)
  {
    if n > 0 {
      RangeSumClosed(n - 1);
    }
  }

  /** Summing the time indexes 1 .. N gives `sum(range(N + 1))`. */
  lemma {:induction false} SumTimes(n: nat)
    ensures Sum(Times(n)) == RangeSum(n)
  {
    if n > 0 {
      assert Times(n) == Times(n - 1) + [n as real];
      SumTimes(n - 1);
      SumAppend(Times(n - 1), n as real);
    }
  }

  /** Deviations from a mean `m` (with `Sum(s) == |s| * m`) sum to 0. */
  lemma DeviationsSumToZero(s: seq<real>, m: real)
    requires |s| as real * m == Sum(s)
    ensures Sum(Deviations(s, m)) == 0.0
  {
    SumShift(s, Deviations(s, m), m);
  }

  /** The time deviations and the series deviations both sum to 0. */
  lemma BothDeviationsSumToZero(data: seq<real>)
    requires |data| >= 1
    ensures Sum(XDeviations(|data|)) == 0.0
    ensures Sum(Deviations(data, Mean(data))) == 0.0
  {
    var n := |data|;
    SumTimes(n);
    ScaleMean(RangeSum(n), n as real);
    DeviationsSumToZero(Times(n), XBar(n));
    ScaleMean(Sum(data), n as real);
    DeviationsSumToZero(data, Mean(data));
  }

  lemma ScaleMean(sum: real, n: real)
    requires n > 0.0
    ensures n * (sum / n) == sum
  {
  }

  /** The denominator of the slope is non-zero exactly when there are two observations
      or more; with one it is 0, so `betas` of a one-element series divides by zero. */
  lemma DevSquaresPositive(n: nat)
    requires n >= 1
    ensures DevSquares(n) >= 0.0
    ensures DevSquares(n) > 0.0 <==> n >= 2
  {
    XBarIsMidpoint(n);
    var dx := XDeviations(n);
    var squares := Products(dx, dx);
    forall i | 0 <= i < n
      ensures squares[i] >= 0.0
    {
      Square(dx[i]);
    }
    SumPositive(squares, 0);
    var d0 := dx[0];
    assert d0 == 1.0 - (n + 1) as real / 2.0;
    if n >= 2 {
      assert d0 < 0.0;
      Square(d0);
    } else {
      assert squares == [0.0];
      assert squares[..0] == [];
    }
  }

  lemma Square(d: real)
    ensures d * d >= 0.0
    ensures d != 0.0 ==> d * d > 0.0
  {
  }

  /** An exactly linear series `data[i] == a + b * (i + 1)` is fitted exactly: `betas`
      returns its intercept and slope. */
  lemma LinearRecovery(data: seq<real>, a: real, b: real)
    requires |data| >= 2
    requires forall i :: 0 <= i < |data| ==> data[i] == a + b * (i + 1) as real
    ensures Betas(data) == (a, b)
  {
    var n := |data|;
    LinearMean(data, a, b);
    LinearDeviations(data, a, b, Mean(data), XBar(n));
    ProductsScale(XDeviations(n), Deviations(data, Mean(data)), b);
    DevSquaresPositive(n);
    FitLine(Mean(data), XBar(n), CrossSum(data), DevSquares(n), a, b);
  }

  lemma FitLine(yBar: real, xBar: real, sxy: real, sxx: real, a: real, b: real)
    requires sxx > 0.0 && sxy == b * sxx && yBar == a + b * xBar
    ensures Fit(yBar, xBar, sxy, sxx) == (a, b)
  {
    var slope := sxy / sxx;
    assert slope * sxx == sxy;
    assert slope == b;
    assert yBar - slope * xBar == a;
    var fit := Fit(yBar, xBar, sxy, sxx);
    assert fit.1 == slope;
    assert fit.0 == yBar - slope * xBar;
  }

  /** The mean of a linear series is the line's value at the mean time index. */
  lemma LinearMean(data: seq<real>, a: real, b: real)
    requires |data| >= 1
    requires forall i :: 0 <= i < |data| ==> data[i] == a + b * (i + 1) as real
    ensures Mean(data) == a + b * XBar(|data|)
  {
    var n := |data|;
    LinearSum(data, a, b);
    MeanOfLine(Sum(data), RangeSum(n), n as real, a, b);
  }

  lemma MeanOfLine(sum: real, sumX: real, n: real, a: real, b: real)
    requires n > 0.0 && sum == n * a + b * sumX
    ensures sum / n == a + b * (sumX / n)
  {
    assert sum == n * (a + b * (sumX / n));
  }

  /** The sum of a linear series over the time indexes 1 .. N. */
  lemma {:induction false} LinearSum(data: seq<real>, a: real, b: real)
    requires forall i :: 0 <= i < |data| ==> data[i] == a + b * (i + 1) as real
    ensures Sum(data) == |data| as real * a + b * RangeSum(|data|)
    decreases |data|
  {
    if |data| > 0 {
      var n := |data| - 1;
      var init := data[..n];
      assert forall i :: 0 <= i < |init| ==> init[i] == data[i];
      LinearSum(init, a, b);
      LineStep(Sum(init), RangeSum(n), data[n], (n + 1) as real, n as real, a, b);
    }
  }

  lemma LineStep(sy: real, sx: real, y: real, x: real, n: real, a: real, b: real)
    requires sy == n * a + b * sx && y == a + b * x
    ensures sy + y == (n + 1.0) * a + b * (sx + x)
  {
  }

  /** For a linear series each deviation from the mean is the slope times the time's
      deviation from the mean time. */
  lemma LinearDeviations(data: seq<real>, a: real, b: real, m: real, xb: real)
    requires |data| >= 1
    requires forall i :: 0 <= i < |data| ==> data[i] == a + b * (i + 1) as real
    requires m == a + b * xb
    ensures forall i :: 0 <= i < |data| ==>
      Deviations(data, m)[i] == b * Deviations(Times(|data|), xb)[i]
  {
    forall i | 0 <= i < |data|
      ensures Deviations(data, m)[i] == b * Deviations(Times(|data|), xb)[i]
    {
      DeviationStep(data[i], (i + 1) as real, m, xb, a, b);
    }
  }

  lemma DeviationStep(y: real, x: real, m: real, xb: real, a: real, b: real)
    requires y == a + b * x && m == a + b * xb
    ensures y - m == b * (x - xb)
  {
  }

  /** When one list is b times another, so is the cross sum. */
  lemma ProductsScale(dx: seq<real>, dy: seq<real>, b: real)
    requires |dx| == |dy|
    requires forall i :: 0 <= i < |dx| ==> dy[i] == b * dx[i]
    ensures Sum(Products(dx, dy)) == b * Sum(Products(dx, dx))
  {
    var sxy := Products(dx, dy);
    var sxx := Products(dx, dx);
    forall i | 0 <= i < |dx|
      ensures sxy[i] == b * sxx[i]
    {
      ProductStep(dx[i], dy[i], b);
    }
    SumScale(sxy, sxx, b);
  }

  lemma ProductStep(x: real, y: real, b: real)
    requires y == b * x
    ensures x * y == b * (x * x)
  {
  }

  /** `betas([1, 2, 3, 4, 5]) == (0, 1)`. */
  lemma OneToFive()
    ensures Betas([1.0, 2.0, 3.0, 4.0, 5.0]) == (0.0, 1.0)
  {
    LinearRecovery([1.0, 2.0, 3.0, 4.0, 5.0], 0.0, 1.0);
  }

  /** The differences between the series and the line through `(b0, b1)`. */
  function Residuals(data: seq<real>, b0: real, b1: real): (r: seq<real>)
    ensures |r| == |data|
  {
    seq(|data|, i requires 0 <= i < |data| => data[i] - (b0 + b1 * (i + 1) as real))
  }

  /** `betas` solves the least-squares normal equations: the residuals sum to 0 and are
      uncorrelated with the time index. */
  lemma NormalEquations(data: seq<real>)
    requires |data| >= 2
    ensures Sum(Residuals(data, Betas(data).0, Betas(data).1)) == 0.0
    ensures Sum(Products(XDeviations(|data|), Residuals(data, Betas(data).0, Betas(data).1))) == 0.0
  {
    var n := |data|;
    var fit := Betas(data);
    DevSquaresPositive(n);
    FitParts(Mean(data), XBar(n), CrossSum(data), DevSquares(n));
    ResidualsBalance(data, fit.0, fit.1);
    ResidualsOrthogonal(data, fit.0, fit.1);
  }

  /** The residuals around any line through the centroid sum to 0. */
  lemma ResidualsBalance(data: seq<real>, b0: real, b1: real)
    requires |data| >= 1
    requires b0 == Mean(data) - b1 * XBar(|data|)
    ensures Sum(Residuals(data, b0, b1)) == 0.0
  {
    var res := Residuals(data, b0, b1);
    var dx := XDeviations(|data|);
    var dy := Deviations(data, Mean(data));
    ResidualsSplit(data, b0, b1, Mean(data), XBar(|data|));
    assert dx == Deviations(Times(|data|), XBar(|data|));
    BothDeviationsSumToZero(data);
    SumCombine(res, dy, dx, b1);
    ZeroCombine(Sum(res), Sum(dy), Sum(dx), b1);
  }

  /** With the least-squares slope, the residuals are uncorrelated with the time index. */
  lemma ResidualsOrthogonal(data: seq<real>, b0: real, b1: real)
    requires |data| >= 2
    requires DevSquares(|data|) > 0.0
    requires b1 == CrossSum(data) / DevSquares(|data|)
    requires b0 == Mean(data) - b1 * XBar(|data|)
    ensures Sum(Products(XDeviations(|data|), Residuals(data, b0, b1))) == 0.0
  {
    var res := Residuals(data, b0, b1);
    var dx := XDeviations(|data|);
    var dy := Deviations(data, Mean(data));
    ResidualsSplit(data, b0, b1, Mean(data), XBar(|data|));
    assert dx == Deviations(Times(|data|), XBar(|data|));
    WeightedResiduals(dx, dy, res, b1);
    SlopeCancels(Sum(Products(dx, res)), CrossSum(data), DevSquares(|data|), b1);
  }

  /** Each residual is the series deviation minus b1 times the time deviation. */
  lemma ResidualsSplit(data: seq<real>, b0: real, b1: real, m: real, xb: real)
    requires b0 == m - b1 * xb
    ensures forall i :: 0 <= i < |data| ==>
      Residuals(data, b0, b1)[i] == Deviations(data, m)[i] - b1 * Deviations(Times(|data|), xb)[i]
  {
    forall i | 0 <= i < |data|
      ensures Residuals(data, b0, b1)[i] == Deviations(data, m)[i] - b1 * Deviations(Times(|data|), xb)[i]
    {
      ResidualStep(data[i], (i + 1) as real, b0, b1, m, xb);
    }
  }

  lemma ResidualStep(y: real, x: real, b0: real, b1: real, m: real, xb: real)
    requires b0 == m - b1 * xb
    ensures y - (b0 + b1 * x) == (y - m) - b1 * (x - xb)
  {
  }

  /** Weighting residuals `dy - b1 * dx` by `dx` gives `Sxy - b1 * Sxx`. */
  lemma WeightedResiduals(dx: seq<real>, dy: seq<real>, res: seq<real>, b1: real)
    requires |dx| == |dy| == |res|
    requires forall i :: 0 <= i < |res| ==> res[i] == dy[i] - b1 * dx[i]
    ensures Sum(Products(dx, res)) == Sum(Products(dx, dy)) - b1 * Sum(Products(dx, dx))
  {
    forall i | 0 <= i < |dx|
      ensures Products(dx, res)[i] == Products(dx, dy)[i] - b1 * Products(dx, dx)[i]
    {
      WeightStep(dx[i], dy[i], res[i], b1);
    }
    SumCombine(Products(dx, res), Products(dx, dy), Products(dx, dx), b1);
  }

  lemma WeightStep(x: real, y: real, r: real, b1: real)
    requires r == y - b1 * x
    ensures x * r == x * y - b1 * (x * x)
  {
  }

  lemma ZeroCombine(sr: real, sy: real, sx: real, b1: real)
    requires sr == sy - b1 * sx && sy == 0.0 && sx == 0.0
    ensures sr == 0.0
  {
  }

  lemma SlopeCancels(sw: real, sxy: real, sxx: real, b1: real)
    requires sxx > 0.0 && b1 == sxy / sxx && sw == sxy - b1 * sxx
    ensures sw == 0.0
  {
    assert b1 * sxx == sxy;
  }
}
