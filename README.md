# Time-series forecasting routines, modelled in Dafny

This project models the five forecasting routines of `timeseries.py`:

- `moving_average_methods`, a trailing fixed-window mean.
- `exponential_smoothing_methods`, single-parameter level smoothing seeded with the series mean.
- `betas`, the ordinary-least-squares intercept and slope against the time index 1 .. N.
- `holt_model`, level-plus-trend smoothing seeded by `betas`.
- `winters_model`, level, trend and multiplicative seasonal indexes.

Observations are exact `real`s and series are `seq<real>`. The Python `sum` is a left fold from 0 (`Sums.Sum`). The slice `s[i::4]` is `Sums.Stride`.

Routines that build lists by appending inside `for` loops are modelled as methods with the same loops. Each is proved against specification functions or predicates: `IsTrailingMeans`, `IsSmoothing`, `StateAt`, `RawRatios`, `InitialIndexes`, `SeasonalAt`. Lemmas then state what those specifications imply. `betas` is a pure function.

Error paths:

- The explicit `raise ValueError` of `moving_average_methods` is an `Err(ValueError)` result.
- A division by zero that the code does not guard against is a precondition.

Files:

- `wrappers.dfy`: `Option`, the raised exceptions, `Result`.
- `sums.dfy`: `sum`, the mean, strided slices and their algebra.
- `moving_average.dfy`, `exponential_smoothing.dfy`, `linear_trend.dfy` (`betas`), `holt.dfy`, `winters.dfy`: one routine each.

`winters_model` is modelled as written. There is one exception: line 101 reads the name `needs`, which is defined nowhere, and the model reads it as `data`. The other literal details are kept:

- The block loop runs over `len(data) // P` whole blocks.
- Line 108 takes every fourth ratio and divides by 3, whatever `P` is.
- Line 118 divides `data[i]` by `seasonal_indexs[i]`, which reads past the indexes unless N is a whole number of blocks.
- Line 128 pairs `data[i]` with `levels[i + 1]` and `seasonals[i]`.
- Forecast i multiplies level plus trend after i observations by `seasonals[i]`.

The code has no validation for `P`, the smoothing factors or the divisors (line 95 only notes that a `ValueError` is needed). In the model, the conditions under which the code runs without an exception are preconditions:

- `Winters.Shaped`: N ≥ 2, P ≥ 1, N a multiple of P.
- `Winters.Divisible`: non-zero block sums, seasonal indexes and levels.

## Model

| member | source | states |
|---|---|---|
| `MovingAverage.MovingAverages` | timeseries.py:3-22 | ValueError exactly when the window is below 1 or longer than the series. Otherwise one entry per observation: `None` for the first w-1, then the mean of the w observations ending there. |
| `MovingAverage.FullWindow` | timeseries.py:15-21 | With w = N only the last entry is defined, and it is the mean of the whole series. |
| `MovingAverage.SlidingWindow` | timeseries.py:19-20 | Consecutive defined entries differ by (new observation - dropped observation) / w. |
| `MovingAverage.ConstantSeries` | timeseries.py:19-20 | On a constant series every defined entry is the constant. |
| `MovingAverage.WindowOfThree` | timeseries.py:15-21 | `[1,2,3,4,5]` with w = 3 gives `[None, None, 2, 3, 4]`. |
| `ExponentialSmoothing.Smooth` | timeseries.py:24-41 | N+1 levels. The seed is the series mean, then `levels[i+1] = alpha*data[i] + (1-alpha)*levels[i]`. An omitted alpha becomes 2/(1+N) and is returned. |
| `ExponentialSmoothing.Deterministic` | timeseries.py:37-39 | The recurrence and the seed determine the levels: two results for the same input are equal. |
| `ExponentialSmoothing.ConstantFixedPoint` | timeseries.py:34-39 | A constant series is a fixed point: every level equals the constant, for every alpha. |
| `ExponentialSmoothing.StaysInRange` | timeseries.py:34-39 | With 0 ≤ alpha ≤ 1 every level stays within the range of the observations. |
| `ExponentialSmoothing.TenTenTen` | timeseries.py:24-41 | `[10,10,10]` with alpha 0.5 gives four levels of 10. |
| `LinearTrend.Betas` | timeseries.py:43-56 | For N ≥ 2, Σ(x-x̄)² > 0 and `(b0, b1)` satisfy `b1·Σ(x-x̄)² = Σ(x-x̄)(y-ȳ)` and `b0 = ȳ - b1·x̄` over x = 1 .. N: b1 is Sxy/Sxx and the line passes through (x̄, ȳ). |
| `LinearTrend.RangeSumClosed` | timeseries.py:44 | `sum(range(n+1)) = n(n+1)/2`. |
| `LinearTrend.XBarIsMidpoint` | timeseries.py:44 | x̄ = `sum(range(N+1))/N` equals (N+1)/2, the mean of 1 .. N. |
| `LinearTrend.SumTimes` | timeseries.py:44-47 | The time indexes 1 .. N sum to `sum(range(N+1))`, so line 44's x̄ is their mean. |
| `LinearTrend.BothDeviationsSumToZero` | timeseries.py:44-48 | The deviations from x̄ and from ȳ each sum to 0. |
| `LinearTrend.DevSquaresPositive` | timeseries.py:50-53 | Σ(x-x̄)² ≥ 0, and it is positive iff N ≥ 2, so N = 1 divides by zero at line 53. |
| `LinearTrend.Centroid` | timeseries.py:53-55 | `b0 + b1*(N+1)/2 = ȳ`: the fitted line passes through the centroid. |
| `LinearTrend.LinearRecovery` | timeseries.py:43-56 | Exactly linear data `a + b*(i+1)` gives `(a, b)`. |
| `LinearTrend.OneToFive` | timeseries.py:43-56 | `betas([1,2,3,4,5]) = (0, 1)`. |
| `LinearTrend.NormalEquations` | timeseries.py:43-56 | The residuals around the fitted line sum to 0 and are uncorrelated with the time index: the least-squares normal equations. |
| `Holt.HoltModel` | timeseries.py:58-83 | N+1 forecasts. Forecast k is level plus trend after k observations, starting from the `betas` seed. |
| `Holt.Track` | timeseries.py:67-81 | The loop builds levels, trends and forecasts that follow the recurrences of lines 76 and 78, with forecast = level + trend. |
| `Holt.FirstForecast` | timeseries.py:64-65 | The first forecast is `b0 + b1` from `betas(data)`. |
| `Holt.LinearTrack` | timeseries.py:75-81 | Started on a line's intercept and slope, linear observations keep level `a + b*k` and trend `b`. |
| `Holt.LinearForecasts` | timeseries.py:64-81 | For linear data, levels are `a + b*k`, trends `b`, and forecasts `a + b*(k+1)` for every alpha and beta; each one-step forecast equals the next observation. |
| `Holt.LevelIsObservation` | timeseries.py:76 | With alpha = 1 the level is the latest observation. |
| `Holt.FrozenTrend` | timeseries.py:78 | With beta = 0 the trend keeps the seed's value. |
| `Holt.OneToFive` | timeseries.py:58-83 | `[1,2,3,4,5]` forecasts 1, 2, 3, 4, 5, 6 for every alpha and beta. |
| `Winters.RawSeasonalRatios` | timeseries.py:96-104 | The bootstrap list is each whole block's ratios (value over block mean), block after block, over `N // P` blocks. |
| `Winters.AppendBlockRatios` | timeseries.py:102-104 | The inner loop appends exactly the block's ratios. |
| `Winters.RawRatiosLength` | timeseries.py:99-104 | The raw list has r*P entries. |
| `Winters.BlockRatiosSum` | timeseries.py:101-104 | Each block's P ratios sum to P. |
| `Winters.RawRatiosBlock` | timeseries.py:99-104 | In the list the code builds, slots `b*P .. b*P+P` of every block b < r hold exactly that block's ratios. |
| `Winters.RawBlockSums` | timeseries.py:99-104 | Every block b < r of the list the code builds sums to P. |
| `Winters.AverageSeasonalIndexes` | timeseries.py:107-109 | The in-place loop never reads a slot it already overwrote. Slot i < P becomes the sum of raw slots i, i+4, i+8, … over 3; the other slots keep their raw ratio. |
| `Winters.ThreeYearsOfQuarters` | timeseries.py:107-109 | For P = 4 and three blocks, index i is `(raw[i]+raw[i+4]+raw[i+8])/3`, the season's mean ratio. |
| `Winters.ShapedBlocks` | timeseries.py:96-104 | When N is a multiple of P there is at least one block, and the raw list has exactly N entries. |
| `Winters.WintersLevelsTrends` | timeseries.py:112-122 | N+1 levels and trends following Holt's recurrences on `data[i]/seasonal_indexs[i]`. |
| `Winters.NeutralSeasons` | timeseries.py:117-122 | With every index 1 the levels and trends are exactly those of `holt_model` from the same seed. |
| `Winters.UpdateSeasonals` | timeseries.py:125-129 | N seasonal entries: the first P indexes, then `seasonals[P+i] = gamma*data[i]/levels[i+1] + (1-gamma)*seasonals[i]`. |
| `Winters.FrozenSeasons` | timeseries.py:127-129 | With gamma = 0 entry `m*P + i` keeps initial index i: the pattern repeats. |
| `Winters.Predict` | timeseries.py:134-138 | N forecasts, `(levels[i] + trends[i]) * seasonals[i]`. |
| `Winters.WintersModel` | timeseries.py:85-140 | N forecasts. Forecast i is level plus trend after i deseasonalised observations, from the `betas` seed, times seasonal entry i. |
| `Winters.ConstantIndexes` | timeseries.py:96-109 | With P = 4, twelve equal non-zero observations give every seasonal index 1. |
| `Winters.ConstantQuarters` | timeseries.py:85-140 | With P = 4 and twelve equal non-zero observations no divisor is zero, and every forecast is the constant, for every alpha, beta and gamma. |
| `Winters.BootstrapAsWritten` | timeseries.py:99-104 | Lines 99-104 as written: NameError exactly when `N // P ≥ 1` (P ≤ N), otherwise an empty list. |
| `Winters.AsWrittenAlwaysFails` | timeseries.py:96-101 | As written, every input with N ≥ 2 (so `betas` succeeds) and 1 ≤ P ≤ N raises NameError at line 101, whether or not N is a multiple of P. |
| `Winters.AsWrittenOneBlock` | timeseries.py:101 | As written, `[1,2,3,4]` with P = 4 raises NameError. |

## Left out

- The `print` calls at lines 30 and 131 write to the console. `ExponentialSmoothing.Smooth` returns the defaulted alpha instead.
- Floating-point rounding, overflow and NaN are not modelled: arithmetic is exact `real`.
- Division by zero is a precondition, not a modelled `ZeroDivisionError`:
  - an empty series in `exponential_smoothing_methods` (requires N ≥ 1);
  - `betas`, `holt_model` and `winters_model` with N < 2;
  - P = 0, a zero block sum, a zero seasonal index or a zero level in `winters_model`.
- In `winters_model`, N not a multiple of P is a precondition rather than a modelled error. So is a negative P. Either makes the code raise (an `IndexError` at line 109 or line 118, or a `ZeroDivisionError` at line 96).
- `Winters.WintersModel` follows the code's index arithmetic literally: stride 4 and divisor 3 at line 108, and `seasonal_indexs[i]` at line 118. No seasonal period other than the one written is modelled.
- The `Sequence` import of line 1 and the type hints are replaced by `seq<real>` and `real`.

## Findings

| source | as written | input that shows it | evidently intended | confidence | as-written member | corrected member |
|---|---|---|---|---|---|---|
| timeseries.py:101 | `blocks = needs[i*P:i*P+P]` reads an undefined name, so the bootstrap raises NameError on its first block | `data = [1,2,3,4]`, `P = 4` (any N ≥ 2 with 1 ≤ P ≤ N) | read the block from `data` | high (not executed) | `Winters.AsWrittenAlwaysFails` | `Winters.RawSeasonalRatios` |
