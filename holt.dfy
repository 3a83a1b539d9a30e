/** `holt_model`: level-plus-trend smoothing seeded by the least-squares line. */
module Holt {
  import opened LinearTrend

  /** A level together with its trend. */
  datatype Smoothed = Smoothed(level: real, trend: real)

  /** One step of the recurrences: the new level blends the observation with the previous
      one-step forecast, the new trend blends the level's change with the previous trend. */
  function Update(s: Smoothed, observation: real, alpha: real, beta: real): Smoothed
  {
    var level := alpha * observation + (1.0 - alpha) * (s.level + s.trend);
    Smoothed(level, beta * (level - s.level) + (1.0 - beta) * s.trend)
  }

  /** The level and trend after the first k observations, starting from `seed`. */
  function StateAt(seed: Smoothed, observations: seq<real>, alpha: real, beta: real, k: nat): Smoothed
    requires k <= |observations|
  {
    if k == 0 then seed
    else Update(StateAt(seed, observations, alpha, beta, k - 1), observations[k - 1], alpha, beta)
  }

  /** The one-step forecast `level + trend`. */
  function Forecast(s: Smoothed): real
  {
    s.level + s.trend
  }

  /** `betas(data)` as the starting level and trend. */
  function Seed(data: seq<real>): Smoothed
    requires |data| >= 2
  {
    Smoothed(Betas(data).0, Betas(data).1)
  }

  /** `holt_model(data, alpha, beta)`: N + 1 forecasts, the first from the least-squares
      seed, entry k from the level and trend after k observations. */
  method HoltModel(data: seq<real>, alpha: real, beta: real) returns (forecasts: seq<real>)
    requires |data| >= 2
    ensures |forecasts| == |data| + 1
    ensures forall k :: 0 <= k <= |data| ==>
      forecasts[k] == Forecast(StateAt(Seed(data), data, alpha, beta, k))
  {
    forecasts := Track(Seed(data), data, alpha, beta);
  }

  /** The loop of `holt_model` from a given seed: `levels`, `trends` and `forecasts` grow
      by one entry per observation. */
  method Track(seed: Smoothed, data: seq<real>, alpha: real, beta: real) returns (forecasts: seq<real>)
    ensures |forecasts| == |data| + 1
    ensures forall k :: 0 <= k <= |data| ==>
      forecasts[k] == Forecast(StateAt(seed, data, alpha, beta, k))
  {
    var levels := [seed.level];
    var trends := [seed.trend];
    forecasts := [seed.level + seed.trend];
    for i := 0 to |data|
      invariant |levels| == |trends| == |forecasts| == i + 1
      invariant forall k {:trigger levels[k]} :: 0 <= k <= i ==>
        Smoothed(levels[k], trends[k]) == StateAt(seed, data, alpha, beta, k)
      invariant forall k :: 0 <= k <= i ==> forecasts[k] == levels[k] + trends[k]
    {
      var levelValue := alpha * data[i] + (1.0 - alpha) * (levels[i] + trends[i]);
      levels := levels + [levelValue];
      var trendValue := beta * (levels[i + 1] - levels[i]) + (1.0 - beta) * trends[i];
      trends := trends + [trendValue];
      forecasts := forecasts + [levelValue + trendValue];
      assert Smoothed(levelValue, trendValue) == Update(Smoothed(levels[i], trends[i]), data[i], alpha, beta);
    }
  }

  /** The first forecast is `b0 + b1` from `betas(data)`. */
  lemma FirstForecast(data: seq<real>, alpha: real, beta: real)
    requires |data| >= 2
    ensures Forecast(StateAt(Seed(data), data, alpha, beta, 0)) == Betas(data).0 + Betas(data).1
  {
  }

  /** Started on a line's intercept and slope, a linear series keeps the level on the line
      (its value at time k) and the trend at the slope, whatever `alpha` and `beta` are. */
  lemma {:induction false} LinearTrack(seed: Smoothed, data: seq<real>, a: real, b: real, alpha: real, beta: real, k: nat)
    requires k <= |data| && seed == Smoothed(a, b)
    requires forall i :: 0 <= i < |data| ==> data[i] == a + b * (i + 1) as real
    ensures StateAt(seed, data, alpha, beta, k) == Smoothed(a + b * k as real, b)
  {
    if k > 0 {
      LinearTrack(seed, data, a, b, alpha, beta, k - 1);
      LinearStep(data[k - 1], a, b, (k - 1) as real, k as real, alpha, beta);
    }
  }

  lemma LinearStep(y: real, a: real, b: real, t: real, next: real, alpha: real, beta: real)
    requires next == t + 1.0 && y == a + b * next
    ensures Update(Smoothed(a + b * t, b), y, alpha, beta) == Smoothed(a + b * next, b)
  {
    var level := alpha * y + (1.0 - alpha) * (a + b * t + b);
    assert level == a + b * next;
  }

  /** `holt_model` on an exactly linear series: since `betas` recovers the line, the level
      after k observations is `a + b * k`, the trend is `b` and every forecast lies on the
      line, `a + b * (k + 1)`, so each one-step forecast equals the next observation. */
  lemma LinearForecasts(data: seq<real>, a: real, b: real, alpha: real, beta: real)
    requires |data| >= 2
    requires forall i :: 0 <= i < |data| ==> data[i] == a + b * (i + 1) as real
    ensures forall k :: 0 <= k <= |data| ==>
      StateAt(Seed(data), data, alpha, beta, k) == Smoothed(a + b * k as real, b)
    ensures forall k :: 0 <= k <= |data| ==>
      Forecast(StateAt(Seed(data), data, alpha, beta, k)) == a + b * (k + 1) as real
    ensures forall k :: 0 <= k < |data| ==>
      Forecast(StateAt(Seed(data), data, alpha, beta, k)) == data[k]
  {
    LinearRecovery(data, a, b);
    var seed := Seed(data);
    assert seed == Smoothed(a, b);
    forall k | 0 <= k <= |data|
      ensures StateAt(seed, data, alpha, beta, k) == Smoothed(a + b * k as real, b)
      ensures Forecast(StateAt(seed, data, alpha, beta, k)) == a + b * (k + 1) as real
    {
      LinearTrack(seed, data, a, b, alpha, beta, k);
    }
  }

  /** With `alpha == 1` the level is the latest observation. */
  lemma LevelIsObservation(seed: Smoothed, observations: seq<real>, beta: real, k: nat)
    requires 1 <= k <= |observations|
    ensures StateAt(seed, observations, 1.0, beta, k).level == observations[k - 1]
  {
  }

  /** With `beta == 0` the trend never moves from the seed's. */
  lemma {:induction false} FrozenTrend(seed: Smoothed, observations: seq<real>, alpha: real, k: nat)
    requires k <= |observations|
    ensures StateAt(seed, observations, alpha, 0.0, k).trend == seed.trend
  {
    if k > 0 {
      FrozenTrend(seed, observations, alpha, k - 1);
    }
  }

  /** `holt_model([1, 2, 3, 4, 5], alpha, beta)` forecasts 1, 2, 3, 4, 5, 6. */
  lemma OneToFive(alpha: real, beta: real)
    ensures forall k :: 0 <= k <= 5 ==>
      Forecast(StateAt(Seed([1.0, 2.0, 3.0, 4.0, 5.0]), [1.0, 2.0, 3.0, 4.0, 5.0], alpha, beta, k)) == (k + 1) as real
  {
    var data := [1.0, 2.0, 3.0, 4.0, 5.0];
    assert forall i :: 0 <= i < |data| ==> data[i] == 0.0 + 1.0 * (i + 1) as real;
    LinearForecasts(data, 0.0, 1.0, alpha, beta);
  }
}
