/** `winters_model`: level, trend and multiplicative season, modelled as the
    code stands except that the undefined name `needs` on line 101 is read as `data`. */
module Winters {
  import opened Wrappers
  import opened Sums
  import opened LinearTrend
  import opened Holt

  // ---------------------------------------------------------------------------------
  // Bootstrap of the seasonal indexes: one ratio per observation of each whole block

  /** `data[b*P : b*P+P]`, the b-th block of P observations. */
  function Block(data: seq<real>, P: nat, b: nat): (block: seq<real>)
    requires b * P + P <= |data|
    ensures |block| == P
  {
    data[b * P .. b * P + P]
  }

  /** Every whole block has a non-zero sum, so line 103 can divide by its mean. */
  ghost predicate BlockSumsNonzero(data: seq<real>, P: nat)
  {
    forall b: nat :: b * P + P <= |data| ==> Sum(Block(data, P, b)) != 0.0
  }

  /** Each value of a list divided by `m`. */
  function Ratios(block: seq<real>, m: real): (ratios: seq<real>)
    requires m != 0.0
    ensures |ratios| == |block|
  {
    seq(|block|, j requires 0 <= j < |block| => block[j] / m)
  }

  /** `[j / (sum(block) / len(block)) for j in block]`: each value over the block's mean. */
  function BlockRatios(block: seq<real>): (ratios: seq<real>)
    requires |block| >= 1 && Sum(block) != 0.0
    ensures |ratios| == |block|
  {
    Ratios(block, Mean(block))
  }

  /** The ratio list `seasonal_indexs` after the first r blocks. */
  function RawRatios(data: seq<real>, P: nat, r: nat): (ratios: seq<real>)
    requires P >= 1 && r <= |data| / P && BlockSumsNonzero(data, P)
  {
    if r == 0 then []
    else
      BlockFits(|data|, P, r - 1);
      RawRatios(data, P, r - 1) + BlockRatios(Block(data, P, r - 1))
  }

  lemma MulPred(r: nat, P: nat)
    requires r >= 1
    ensures (r - 1) * P + P == r * P
  {
  }

  /** There are `N // P` whole blocks. */
  lemma WholeBlocks(n: nat, P: nat)
    requires P >= 1
    ensures (n / P) * P <= n
    ensures n % P == 0 ==> (n / P) * P == n
  {
  }

  /** Block b is whole when b < N // P. */
  lemma BlockFits(n: nat, P: nat, b: nat)
    requires P >= 1 && b < n / P
    ensures b * P + P <= n
  {
    assert b * P + P == (b + 1) * P;
    assert (b + 1) * P <= (n / P) * P;
  }

  /** Lines 99-104 with `needs` read as `data`: the ratios of each whole block in turn. */
  method RawSeasonalRatios(data: seq<real>, P: int) returns (ratios: seq<real>)
    requires P >= 1 && BlockSumsNonzero(data, P)
    ensures ratios == RawRatios(data, P, |data| / P)
  {
    var r := |data| / P;
    ratios := [];
    for i := 0 to r
      invariant ratios == RawRatios(data, P, i)
    {
      RawRatiosStep(data, P, i);
      var blocks := data[i * P .. i * P + P];
      ratios := AppendBlockRatios(ratios, blocks);
      assert ratios == RawRatios(data, P, i + 1);
    }
  }

  /** Going from i to i + 1 blocks appends the ratios of block i. */
  lemma RawRatiosStep(data: seq<real>, P: nat, i: nat)
    requires P >= 1 && BlockSumsNonzero(data, P) && i < |data| / P
    ensures i * P + P <= |data|
    ensures Sum(Block(data, P, i)) != 0.0
    ensures RawRatios(data, P, i + 1) == RawRatios(data, P, i) + BlockRatios(Block(data, P, i))
  {
    BlockFits(|data|, P, i);
  }

  /** Lines 102-104: appends the ratio of each value of a block to the block's mean. */
  method AppendBlockRatios(ratios: seq<real>, blocks: seq<real>) returns (extended: seq<real>)
    requires |blocks| >= 1 && Sum(blocks) != 0.0
    ensures extended == ratios + BlockRatios(blocks)
  {
    extended := ratios;
    for j := 0 to |blocks|
      invariant extended == ratios + BlockRatios(blocks)[..j]
    {
      var seasonalIndex := blocks[j] / (Sum(blocks) / |blocks| as real);
      extended := extended + [seasonalIndex];
    }
    assert BlockRatios(blocks)[..|blocks|] == BlockRatios(blocks);
  }

  /** The raw ratio list has r * P entries. */
  lemma {:induction false} RawRatiosLength(data: seq<real>, P: nat, r: nat)
    requires P >= 1 && r <= |data| / P && BlockSumsNonzero(data, P)
    ensures |RawRatios(data, P, r)| == r * P
  {
    if r > 0 {
      MulPred(r, P);
      RawRatiosLength(data, P, r - 1);
    }
  }

  /** Each block's P ratios sum to P: on average a block's ratio is 1. */
  lemma BlockRatiosSum(block: seq<real>)
    requires |block| >= 1 && Sum(block) != 0.0
    ensures Sum(BlockRatios(block)) == |block| as real
  {
    RatiosSum(block, Mean(block));
    OverMean(Sum(block), |block| as real);
  }

  /** In the list the code builds, the P slots of block b are that block's ratios. */
  lemma RawRatiosBlock(data: seq<real>, P: nat, r: nat, b: nat)
    requires P >= 1 && r <= |data| / P && BlockSumsNonzero(data, P) && b < r
    ensures b * P + P <= |data| && b * P + P <= |RawRatios(data, P, r)|
    ensures Sum(Block(data, P, b)) != 0.0
    ensures RawRatios(data, P, r)[b * P .. b * P + P] == BlockRatios(Block(data, P, b))
  {
    RawRatiosStep(data, P, b);
    RawRatiosLength(data, P, b);
    RawRatiosPrefix(data, P, b + 1, r);
    var lo := b * P;
    var upto := RawRatios(data, P, b + 1);
    SliceOfBack(RawRatios(data, P, b), BlockRatios(Block(data, P, b)), lo, lo + P);
    SliceOfFront(upto, RawRatios(data, P, r)[|upto|..], lo, lo + P);
    assert RawRatios(data, P, r) == upto + RawRatios(data, P, r)[|upto|..];
  }

  /** Later blocks only append: the list after b blocks is a prefix of the list after r. */
  lemma {:induction false} RawRatiosPrefix(data: seq<real>, P: nat, b: nat, r: nat)
    requires P >= 1 && b <= r <= |data| / P && BlockSumsNonzero(data, P)
    ensures RawRatios(data, P, b) <= RawRatios(data, P, r)
    decreases r
  {
    if b < r {
      RawRatiosStep(data, P, r - 1);
      RawRatiosPrefix(data, P, b, r - 1);
    }
  }

  lemma SliceOfFront(front: seq<real>, back: seq<real>, lo: nat, hi: nat)
    requires lo <= hi <= |front|
    ensures (front + back)[lo .. hi] == front[lo .. hi]
  {
  }

  lemma SliceOfBack(front: seq<real>, back: seq<real>, lo: nat, hi: nat)
    requires lo == |front| && hi == lo + |back|
    ensures (front + back)[lo .. hi] == back
  {
  }

  /** Every block of the list the code builds sums to P. */
  lemma RawBlockSums(data: seq<real>, P: nat, r: nat, b: nat)
    requires P >= 1 && r <= |data| / P && BlockSumsNonzero(data, P) && b < r
    ensures b * P + P <= |RawRatios(data, P, r)|
    ensures Sum(RawRatios(data, P, r)[b * P .. b * P + P]) == P as real
  {
    RawRatiosBlock(data, P, r, b);
    BlockRatiosSum(Block(data, P, b));
  }

  /** Dividing every value by m divides the sum by m. */
  lemma {:induction false} RatiosSum(block: seq<real>, m: real)
    requires m != 0.0
    ensures Sum(Ratios(block, m)) == Sum(block) / m
    decreases |block|
  {
    if |block| > 0 {
      var n := |block| - 1;
      assert Ratios(block, m)[..n] == Ratios(block[..n], m);
      RatiosSum(block[..n], m);
      DivStep(Sum(block[..n]), block[n], m);
    }
  }

  lemma DivStep(s: real, x: real, m: real)
    requires m != 0.0
    ensures s / m + x / m == (s + x) / m
  {
  }

  lemma OverMean(s: real, n: real)
    requires s != 0.0 && n > 0.0
    ensures s / (s / n) == n
  {
  }

  /** Lines 99-104 exactly as written: the first pass of the block loop evaluates the name
      `needs`, which is defined nowhere, so the bootstrap raises NameError as soon as there
      is one whole block, and otherwise leaves the list empty. */
  function BootstrapAsWritten(data: seq<real>, P: int): (r: Result<seq<real>>)
    requires P >= 1
    ensures r.Err? <==> P <= |data|
    ensures r.Err? ==> r.error == NameError
    ensures r.Ok? ==> r.value == []
  {
    if |data| / P >= 1 then Err(NameError) else Ok([])
  }

  /** As written, every series that gets past `betas` (N >= 2) and holds at least one
      whole block (1 <= P <= N) stops with NameError in the bootstrap, whether or not N
      is a multiple of P. */
  lemma AsWrittenAlwaysFails(data: seq<real>, P: int)
    requires |data| >= 2 && 1 <= P <= |data|
    ensures BootstrapAsWritten(data, P) == Err(NameError)
  {
  }

  /** For instance a single quarterly block. */
  lemma AsWrittenOneBlock()
    ensures BootstrapAsWritten([1.0, 2.0, 3.0, 4.0], 4) == Err(NameError)
  {
  }

  // ---------------------------------------------------------------------------------
  // Initial seasonal indexes 1 .. P, averaged in place (lines 107-109)

  /** Line 108 for slot i: every fourth ratio from slot i on, summed and divided by 3. */
  function PhaseAverage(raw: seq<real>, i: nat): real
  {
    Sum(Stride(raw, i, 4)) / 3.0
  }

  /** The list after lines 107-109: each of the first P slots holds its phase average,
      computed from the raw ratios; the other slots keep their raw ratio. */
  function InitialIndexes(raw: seq<real>, P: nat): (indexes: seq<real>)
    requires P <= |raw|
    ensures |indexes| == |raw|
  {
    seq(|raw|, k requires 0 <= k < |raw| => if k < P then PhaseAverage(raw, k) else raw[k])
  }

  /** Lines 107-109. The loop overwrites slot i while later slots are still raw, and slot i's
      slice only reads slots i, i + 4, ..., so no overwritten slot is ever read: the result
      is the phase averages of the raw ratios. */
  method AverageSeasonalIndexes(raw: seq<real>, P: nat) returns (seasonalIndexs: seq<real>)
    requires P <= |raw|
    ensures seasonalIndexs == InitialIndexes(raw, P)
  {
    seasonalIndexs := raw;
    for i := 0 to P
      invariant |seasonalIndexs| == |raw|
      invariant forall k :: 0 <= k < i ==> seasonalIndexs[k] == PhaseAverage(raw, k)
      invariant forall k :: i <= k < |raw| ==> seasonalIndexs[k] == raw[k]
    {
      StrideAgree(seasonalIndexs, raw, i, 4);
      var initialSeasonalIndex := Sum(Stride(seasonalIndexs, i, 4)) / 3.0;
      seasonalIndexs := seasonalIndexs[i := initialSeasonalIndex];
    }
  }

  /** With P = 4 and three blocks (N = 12) each initial index is the mean of its season's
      three ratios. */
  lemma ThreeYearsOfQuarters(raw: seq<real>, i: nat)
    requires |raw| == 12 && i < 4
    ensures InitialIndexes(raw, 4)[i] == (raw[i] + raw[i + 4] + raw[i + 8]) / 3.0
    ensures InitialIndexes(raw, 4)[i] == Mean([raw[i], raw[i + 4], raw[i + 8]])
  {
    assert Stride(raw, i + 8, 4) == [raw[i + 8]];
    assert Stride(raw, i + 4, 4) == [raw[i + 4], raw[i + 8]];
    assert Stride(raw, i, 4) == [raw[i], raw[i + 4], raw[i + 8]];
    SumOfThree(raw[i], raw[i + 4], raw[i + 8]);
  }


  // ---------------------------------------------------------------------------------
  // Levels and trends (lines 112-122)

  /** `data[i] / seasonal_indexs[i]`, the observation line 118 smooths. */
  function Deseasonalized(data: seq<real>, indexes: seq<real>): (observations: seq<real>)
    requires |data| <= |indexes|
    requires forall i :: 0 <= i < |data| ==> indexes[i] != 0.0
    ensures |observations| == |data|
  {
    seq(|data|, i requires 0 <= i < |data| => data[i] / indexes[i])
  }

  /** Lines 112-122: Holt's recurrences on the deseasonalised observations. */
  method WintersLevelsTrends(data: seq<real>, seasonalIndexs: seq<real>, seed: Smoothed, alpha: real, beta: real)
    returns (levels: seq<real>, trends: seq<real>)
    requires |data| <= |seasonalIndexs|
    requires forall i :: 0 <= i < |data| ==> seasonalIndexs[i] != 0.0
    ensures |levels| == |trends| == |data| + 1
    ensures forall k :: 0 <= k <= |data| ==>
      Smoothed(levels[k], trends[k]) == StateAt(seed, Deseasonalized(data, seasonalIndexs), alpha, beta, k)
  {
    ghost var observations := Deseasonalized(data, seasonalIndexs);
    levels := [seed.level];
    trends := [seed.trend];
    for i := 0 to |data|
      invariant |levels| == |trends| == i + 1
      invariant forall k {:trigger levels[k]} :: 0 <= k <= i ==>
        Smoothed(levels[k], trends[k]) == StateAt(seed, observations, alpha, beta, k)
    {
      var levelValue := alpha * (data[i] / seasonalIndexs[i]) + (1.0 - alpha) * (levels[i] + trends[i]);
      levels := levels + [levelValue];
      var trendValue := beta * (levels[i + 1] - levels[i]) + (1.0 - beta) * trends[i];
      trends := trends + [trendValue];
      assert Smoothed(levelValue, trendValue) == Update(Smoothed(levels[i], trends[i]), observations[i], alpha, beta);
    }
  }

  /** When every index used is 1 the observations are the data themselves, so the levels
      and trends are exactly those of `holt_model` from the same seed. */
  lemma NeutralSeasons(data: seq<real>, indexes: seq<real>, seed: Smoothed, alpha: real, beta: real, k: nat)
    requires |data| <= |indexes| && k <= |data|
    requires forall i :: 0 <= i < |data| ==> indexes[i] == 1.0
    ensures StateAt(seed, Deseasonalized(data, indexes), alpha, beta, k) == StateAt(seed, data, alpha, beta, k)
  {
    assert Deseasonalized(data, indexes) == data;
  }

  // ---------------------------------------------------------------------------------
  // Seasonal indexes (lines 125-129)

  /** `levels[1 .. m]` are non-zero, so line 128 can divide by them. */
  ghost predicate LevelsNonzero(levels: seq<real>, m: int)
    requires m < |levels|
  {
    forall k :: 1 <= k <= m ==> levels[k] != 0.0
  }

  /** Entry j of `seasonals`: the first P are the initial indexes; entry P + i blends
      `data[i] / levels[i + 1]` with entry i. */
  function SeasonalAt(data: seq<real>, indexes: seq<real>, levels: seq<real>, gamma: real, P: nat, j: nat): real
    requires 1 <= P <= |indexes| && P <= |data| && j < |data|
    requires |data| - P < |levels| && LevelsNonzero(levels, |data| - P)
    decreases j
  {
    if j < P then indexes[j]
    else gamma * (data[j - P] / levels[j - P + 1]) + (1.0 - gamma) * SeasonalAt(data, indexes, levels, gamma, P, j - P)
  }

  /** Lines 125-129: the first P indexes, then N - P appended updates, N entries in all. */
  method UpdateSeasonals(data: seq<real>, seasonalIndexs: seq<real>, levels: seq<real>, gamma: real, P: nat)
    returns (seasonals: seq<real>)
    requires 1 <= P <= |seasonalIndexs| && P <= |data|
    requires |data| - P < |levels| && LevelsNonzero(levels, |data| - P)
    ensures |seasonals| == |data|
    ensures forall j :: 0 <= j < |data| ==> seasonals[j] == SeasonalAt(data, seasonalIndexs, levels, gamma, P, j)
  {
    seasonals := seasonalIndexs[..P];
    for i := 0 to |data| - P
      invariant |seasonals| == P + i
      invariant forall j {:trigger seasonals[j]} :: 0 <= j < P + i ==>
        seasonals[j] == SeasonalAt(data, seasonalIndexs, levels, gamma, P, j)
    {
      var seasonalValue := gamma * (data[i] / levels[i + 1]) + (1.0 - gamma) * seasonals[i];
      seasonals := seasonals + [seasonalValue];
    }
  }

  /** With `gamma == 0` the seasonal pattern repeats unchanged: entry `m * P + i` (season i
      of block m) is initial index i. */
  lemma {:induction false} FrozenSeasons(data: seq<real>, indexes: seq<real>, levels: seq<real>, P: nat, m: nat, i: nat)
    requires 1 <= P <= |indexes| && P <= |data| && i < P && m * P + i < |data|
    requires |data| - P < |levels| && LevelsNonzero(levels, |data| - P)
    ensures SeasonalAt(data, indexes, levels, 0.0, P, m * P + i) == indexes[i]
  {
    if m > 0 {
      MulPred(m, P);
      FrozenSeasons(data, indexes, levels, P, m - 1, i);
    }
  }

  // ---------------------------------------------------------------------------------
  // The whole model (lines 85-140)

  /** N is a whole number of blocks, and `betas` can run. */
  predicate Shaped(data: seq<real>, P: int)
  {
    |data| >= 2 && P >= 1 && |data| % P == 0
  }

  /** A whole number of blocks of a non-empty series is at least one block, and the raw
      ratio list then has exactly N entries. */
  lemma ShapedBlocks(data: seq<real>, P: nat)
    requires Shaped(data, P) && BlockSumsNonzero(data, P)
    ensures P <= |data| && |RawRatios(data, P, |data| / P)| == |data|
  {
    WholeBlocks(|data|, P);
    RawRatiosLength(data, P, |data| / P);
  }

  /** The seasonal indexes after line 109. */
  function SeasonalIndexes(data: seq<real>, P: nat): (indexes: seq<real>)
    requires Shaped(data, P) && BlockSumsNonzero(data, P)
    ensures |indexes| == |data|
  {
    ShapedBlocks(data, P);
    InitialIndexes(RawRatios(data, P, |data| / P), P)
  }

  /** The level and trend after k deseasonalised observations, from the `betas` seed. */
  function WintersState(data: seq<real>, P: nat, alpha: real, beta: real, k: nat): Smoothed
    requires Shaped(data, P) && BlockSumsNonzero(data, P) && k <= |data|
    requires forall i :: 0 <= i < |data| ==> SeasonalIndexes(data, P)[i] != 0.0
  {
    StateAt(Seed(data), Deseasonalized(data, SeasonalIndexes(data, P)), alpha, beta, k)
  }

  /** The list `levels` of lines 112-122. */
  function WintersLevels(data: seq<real>, P: nat, alpha: real, beta: real): (levels: seq<real>)
    requires Shaped(data, P) && BlockSumsNonzero(data, P)
    requires forall i :: 0 <= i < |data| ==> SeasonalIndexes(data, P)[i] != 0.0
    ensures |levels| == |data| + 1
  {
    seq(|data| + 1, k requires 0 <= k <= |data| => WintersState(data, P, alpha, beta, k).level)
  }

  /** Every division in `winters_model` has a non-zero divisor: the block means (line 103),
      the seasonal indexes (line 118) and the levels 1 .. N - P (line 128). */
  ghost predicate Divisible(data: seq<real>, P: nat, alpha: real, beta: real)
    requires Shaped(data, P)
  {
    BlockSumsNonzero(data, P)
    && (forall i :: 0 <= i < |data| ==> SeasonalIndexes(data, P)[i] != 0.0)
    && LevelsNonzero(WintersLevels(data, P, alpha, beta), |data| - P)
  }

  /** `winters_model(data, P, alpha, beta, gamma)`: N forecasts, forecast i being the level
      plus trend after i observations times seasonal entry i. */
  method WintersModel(data: seq<real>, P: int, alpha: real, beta: real, gamma: real) returns (forecasts: seq<real>)
    requires Shaped(data, P) && Divisible(data, P, alpha, beta)
    ensures |forecasts| == |data|
    ensures forall i :: 0 <= i < |data| ==>
      forecasts[i] == SeasonalForecast(WintersState(data, P, alpha, beta, i),
        SeasonalAt(data, SeasonalIndexes(data, P), WintersLevels(data, P, alpha, beta), gamma, P, i))
  {
    ShapedBlocks(data, P);
    var level0, trend0 := Betas(data).0, Betas(data).1;
    var raw := RawSeasonalRatios(data, P);
    var seasonalIndexs := AverageSeasonalIndexes(raw, P);
    assert seasonalIndexs == SeasonalIndexes(data, P);
    assert Smoothed(level0, trend0) == Seed(data);
    var levels, trends := WintersLevelsTrends(data, seasonalIndexs, Smoothed(level0, trend0), alpha, beta);
    assert levels == WintersLevels(data, P, alpha, beta);
    var seasonals := UpdateSeasonals(data, seasonalIndexs, levels, gamma, P);
    forecasts := Predict(levels, trends, seasonals, |data|);
    forall i | 0 <= i < |data|
      ensures forecasts[i] == SeasonalForecast(WintersState(data, P, alpha, beta, i),
        SeasonalAt(data, SeasonalIndexes(data, P), WintersLevels(data, P, alpha, beta), gamma, P, i))
    {
      assert Smoothed(levels[i], trends[i]) == WintersState(data, P, alpha, beta, i);
    }
  }

  /** The one-step forecast scaled by its seasonal index. */
  function SeasonalForecast(s: Smoothed, seasonal: real): real
  {
    Forecast(s) * seasonal
  }

  /** Lines 134-138: forecast i is `(levels[i] + trends[i]) * seasonals[i]`, for i < N. */
  method Predict(levels: seq<real>, trends: seq<real>, seasonals: seq<real>, n: nat) returns (forecasts: seq<real>)
    requires n <= |levels| && n <= |trends| && n <= |seasonals|
    ensures |forecasts| == n
    ensures forall i :: 0 <= i < n ==> forecasts[i] == SeasonalForecast(Smoothed(levels[i], trends[i]), seasonals[i])
  {
    forecasts := [];
    for i := 0 to n
      invariant |forecasts| == i
      invariant forall k :: 0 <= k < i ==> forecasts[k] == SeasonalForecast(Smoothed(levels[k], trends[k]), seasonals[k])
    {
      var forecastValue := (levels[i] + trends[i]) * seasonals[i];
      forecasts := forecasts + [forecastValue];
    }
  }

  // ---------------------------------------------------------------------------------
  // A constant quarterly series over three years

  /** Every ratio of a constant non-zero series is 1. */
  lemma {:induction false} ConstantRatios(data: seq<real>, c: real, P: nat, r: nat)
    requires P >= 1 && r <= |data| / P && c != 0.0
    requires forall i :: 0 <= i < |data| ==> data[i] == c
    ensures BlockSumsNonzero(data, P)
    ensures forall k :: 0 <= k < |RawRatios(data, P, r)| ==> RawRatios(data, P, r)[k] == 1.0
  {
    ConstantBlocks(data, c, P);
    if r > 0 {
      ConstantRatios(data, c, P, r - 1);
      BlockFits(|data|, P, r - 1);
      var block := Block(data, P, r - 1);
      SumConst(block, c);
      ConstantMean(c, P as real, Sum(block), Mean(block));
      assert forall j :: 0 <= j < P ==> BlockRatios(block)[j] == c / Mean(block);
    }
  }

  lemma ConstantBlocks(data: seq<real>, c: real, P: nat)
    requires P >= 1 && c != 0.0
    requires forall i :: 0 <= i < |data| ==> data[i] == c
    ensures BlockSumsNonzero(data, P)
  {
    forall b: nat | b * P + P <= |data|
      ensures Sum(Block(data, P, b)) != 0.0
    {
      SumConst(Block(data, P, b), c);
      NonzeroProduct(P as real, c);
    }
  }

  lemma NonzeroProduct(n: real, c: real)
    requires n > 0.0 && c != 0.0
    ensures n * c != 0.0
  {
  }

  lemma ConstantMean(c: real, n: real, s: real, m: real)
    requires n > 0.0 && c != 0.0 && s == n * c && m == s / n
    ensures m == c && c / m == 1.0
  {
  }

  /** Twelve quarters of a constant non-zero series: every seasonal index is 1. */
  lemma ConstantIndexes(data: seq<real>, c: real)
    requires |data| == 12 && c != 0.0
    requires forall i :: 0 <= i < |data| ==> data[i] == c
    ensures Shaped(data, 4) && BlockSumsNonzero(data, 4)
    ensures forall i :: 0 <= i < |data| ==> SeasonalIndexes(data, 4)[i] == 1.0
  {
    ConstantRatios(data, c, 4, 3);
    ShapedBlocks(data, 4);
    var raw := RawRatios(data, 4, 3);
    forall i | 0 <= i < 4
      ensures InitialIndexes(raw, 4)[i] == 1.0
    {
      ThreeYearsOfQuarters(raw, i);
    }
  }

  /** Entry j of `seasonals` stays 1 when the indexes are 1 and the series equals the levels. */
  lemma {:induction false} UnitSeasons(data: seq<real>, indexes: seq<real>, levels: seq<real>, gamma: real, P: nat, c: real, j: nat)
    requires 1 <= P <= |indexes| && P <= |data| && j < |data| && c != 0.0
    requires |data| - P < |levels| && LevelsNonzero(levels, |data| - P)
    requires forall i :: 0 <= i < P ==> indexes[i] == 1.0
    requires forall i :: 0 <= i < |data| ==> data[i] == c
    requires forall k :: 1 <= k <= |data| - P ==> levels[k] == c
    ensures SeasonalAt(data, indexes, levels, gamma, P, j) == 1.0
    decreases j
  {
    if j >= P {
      UnitSeasons(data, indexes, levels, gamma, P, c, j - P);
      assert data[j - P] / levels[j - P + 1] == 1.0;
    }
  }

  /** `winters_model` with P = 4 on twelve equal non-zero observations runs without dividing
      by zero and forecasts the constant at every step, whatever the smoothing factors. */
  lemma ConstantQuarters(data: seq<real>, c: real, alpha: real, beta: real, gamma: real)
    requires |data| == 12 && c != 0.0
    requires forall i :: 0 <= i < |data| ==> data[i] == c
    ensures Shaped(data, 4) && Divisible(data, 4, alpha, beta)
    ensures forall i :: 0 <= i < |data| ==>
      SeasonalForecast(WintersState(data, 4, alpha, beta, i),
        SeasonalAt(data, SeasonalIndexes(data, 4), WintersLevels(data, 4, alpha, beta), gamma, 4, i)) == c
  {
    ConstantIndexes(data, c);
    var indexes := SeasonalIndexes(data, 4);
    assert Deseasonalized(data, indexes) == data;
    assert forall i :: 0 <= i < |data| ==> data[i] == c + 0.0 * (i + 1) as real;
    LinearRecovery(data, c, 0.0);
    forall k | 0 <= k <= |data|
      ensures WintersState(data, 4, alpha, beta, k) == Smoothed(c, 0.0)
    {
      LinearTrack(Seed(data), data, c, 0.0, alpha, beta, k);
    }
    var levels := WintersLevels(data, 4, alpha, beta);
    assert forall k :: 0 <= k <= |data| ==> levels[k] == c;
    forall i | 0 <= i < |data|
      ensures SeasonalAt(data, indexes, levels, gamma, 4, i) == 1.0
    {
      UnitSeasons(data, indexes, levels, gamma, 4, c, i);
    }
  }
}
