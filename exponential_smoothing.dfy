/** `exponential_smoothing_methods`: single-parameter level smoothing, seeded in-sample with the mean of the whole series. */
module ExponentialSmoothing {
  import opened Wrappers
  import opened Sums

  /** The levels smoothing `data` with constant `alpha` returns: the seed
      `levels[0] == mean(data)` followed by one update per observation,
      `levels[i + 1] == alpha * data[i] + (1 - alpha) * levels[i]`. */
  predicate IsSmoothing(data: seq<real>, alpha: real, levels: seq<real>)
    requires |data| >= 1
  {
    && |levels| == |data| + 1
    && levels[0] == Mean(data)
    && forall i :: 0 <= i < |data| ==> levels[i + 1] == alpha * data[i] + (1.0 - alpha) * levels[i]
  }

  /** `exponential_smoothing_methods(data, alpha)`. The alpha actually used is the second
      result: the given one, or `2 / (1 + N)` when the caller omits it. The series must
      be non-empty, since the seed divides by its length. */
  method Smooth(data: seq<real>, alpha: Option<real>) returns (levels: seq<real>, usedAlpha: real)
    requires |data| >= 1
    ensures usedAlpha == if alpha.None? then 2.0 / (1 + |data|) as real else alpha.value
    ensures IsSmoothing(data, usedAlpha, levels)
  {
    usedAlpha := if alpha.None? then 2.0 / (1 + |data|) as real else alpha.value;
    var firstLevel := Sum(data) / |data| as real;
    levels := [firstLevel];
    for i := 0 to |data|
      invariant |levels| == i + 1
      invariant levels[0] == Mean(data)
      invariant forall k :: 0 <= k < i ==> levels[k + 1] == usedAlpha * data[k] + (1.0 - usedAlpha) * levels[k]
    {
      var levelValue := usedAlpha * data[i] + (1.0 - usedAlpha) * levels[i];
      levels := levels + [levelValue];
    }
  }

  /** The recurrence fixes the levels: two level sequences for the same series and
      alpha are equal, so repeated calls return identical results. */
  lemma {:induction false} Deterministic(data: seq<real>, alpha: real, levels: seq<real>, others: seq<real>)
    requires |data| >= 1
    requires IsSmoothing(data, alpha, levels) && IsSmoothing(data, alpha, others)
    ensures levels == others
  {
    var k := 0;
    while k < |data|
      invariant 0 <= k <= |data|
      invariant forall j :: 0 <= j <= k ==> levels[j] == others[j]
    {
      assert levels[k + 1] == alpha * data[k] + (1.0 - alpha) * levels[k];
      assert others[k + 1] == alpha * data[k] + (1.0 - alpha) * others[k];
      k := k + 1;
    }
  }

  /** A constant series is a fixed point: every level equals the constant, whatever alpha is. */
  lemma {:induction false} ConstantFixedPoint(data: seq<real>, alpha: real, levels: seq<real>, c: real)
    requires |data| >= 1 && IsSmoothing(data, alpha, levels)
    requires forall i :: 0 <= i < |data| ==> data[i] == c
    ensures forall k :: 0 <= k <= |data| ==> levels[k] == c
  {
    SumConst(data, c);
    assert levels[0] == c;
    var k := 0;
    while k < |data|
      invariant 0 <= k <= |data|
      invariant forall j :: 0 <= j <= k ==> levels[j] == c
    {
      assert levels[k + 1] == alpha * data[k] + (1.0 - alpha) * levels[k];
      assert alpha * c + (1.0 - alpha) * c == c;
      k := k + 1;
    }
  }

  /** With 0 <= alpha <= 1 each level is a convex combination, so the levels never leave
      the range [lo, hi] that holds the observations. */
  lemma {:induction false} StaysInRange(data: seq<real>, alpha: real, levels: seq<real>, lo: real, hi: real)
    requires |data| >= 1 && IsSmoothing(data, alpha, levels)
    requires 0.0 <= alpha <= 1.0
    requires forall i :: 0 <= i < |data| ==> lo <= data[i] <= hi
    ensures forall k :: 0 <= k <= |data| ==> lo <= levels[k] <= hi
  {
    MeanBounds(data, lo, hi);
    var k := 0;
    while k < |data|
      invariant 0 <= k <= |data|
      invariant forall j :: 0 <= j <= k ==> lo <= levels[j] <= hi
    {
      assert levels[k + 1] == alpha * data[k] + (1.0 - alpha) * levels[k];
      Convex(alpha, data[k], levels[k], lo, hi);
      k := k + 1;
    }
  }

  lemma Convex(alpha: real, x: real, y: real, lo: real, hi: real)
    requires 0.0 <= alpha <= 1.0 && lo <= x <= hi && lo <= y <= hi
    ensures lo <= alpha * x + (1.0 - alpha) * y <= hi
  {
    assert alpha * x <= alpha * hi && (1.0 - alpha) * y <= (1.0 - alpha) * hi;
    assert alpha * lo <= alpha * x && (1.0 - alpha) * lo <= (1.0 - alpha) * y;
  }

  /** `exponential_smoothing_methods([10, 10, 10], 0.5)`: every level is 10. */
  lemma TenTenTen(levels: seq<real>)
    requires IsSmoothing([10.0, 10.0, 10.0], 0.5, levels)
    ensures levels == [10.0, 10.0, 10.0, 10.0]
  {
    ConstantFixedPoint([10.0, 10.0, 10.0], 0.5, levels, 10.0);
  }
}
