/** `moving_average_methods`: the trailing, fixed-window, unweighted mean. */
module MovingAverage {
  import opened Wrappers
  import opened Sums

  /** What a successful call returns for `data` and window `w`: one entry per
      observation, `None` while fewer than `w` observations have been seen, and
      otherwise the mean of the `w` observations ending at that index. */
  predicate IsTrailingMeans(data: seq<real>, w: int, levels: seq<Option<real>>)
    requires 1 <= w <= |data|
  {
    && |levels| == |data|
    && forall i :: 0 <= i < |data| ==>
         levels[i] == if i < w - 1 then None else Some(Mean(data[i - w + 1 .. i + 1]))
  }

  /** `moving_average_methods(data, window_size)`: raises ValueError exactly when the
      window is smaller than 1 or longer than the series. */
  method MovingAverages(data: seq<real>, windowSize: int) returns (r: Result<seq<Option<real>>>)
    ensures r.Err? <==> windowSize < 1 || windowSize > |data|
    ensures r.Err? ==> r.error == ValueError
    ensures r.Ok? ==> IsTrailingMeans(data, windowSize, r.value)
  {
    if windowSize < 1 {
      return Err(ValueError);
    }
    if windowSize > |data| {
      return Err(ValueError);
    }
    var levels: seq<Option<real>> := [];
    for i := 0 to |data|
      invariant |levels| == i
      invariant forall k :: 0 <= k < i ==>
        levels[k] == if k < windowSize - 1 then None else Some(Mean(data[k - windowSize + 1 .. k + 1]))
    {
      if i < windowSize - 1 {
        levels := levels + [None];
      } else {
        var window := data[i - windowSize + 1 .. i + 1];
        var levelValue := Sum(window) / windowSize as real;
        levels := levels + [Some(levelValue)];
      }
    }
    return Ok(levels);
  }

  /** With the window as long as the series, only the last entry is defined, and it
      is the mean of the whole series. */
  lemma FullWindow(data: seq<real>, levels: seq<Option<real>>)
    requires |data| >= 1 && IsTrailingMeans(data, |data|, levels)
    ensures forall i :: 0 <= i < |data| - 1 ==> levels[i] == None
    ensures levels[|data| - 1] == Some(Mean(data))
  {
    assert data[|data| - 1 - |data| + 1 .. |data|] == data;
  }

  /** Sliding the window one step adds the new observation and drops the oldest one:
      the running-sum form of the same average. */
  lemma SlidingWindow(data: seq<real>, w: int, levels: seq<Option<real>>, i: int)
    requires 1 <= w <= |data| && IsTrailingMeans(data, w, levels)
    requires w - 1 <= i < |data| - 1
    ensures levels[i].Some? && levels[i + 1].Some?
    ensures levels[i + 1].value == levels[i].value + (data[i + 1] - data[i + 1 - w]) / w as real
  {
    var lo := i - w + 1;
    var shared := data[lo + 1 .. i + 1];
    assert data[lo .. i + 1] == [data[lo]] + shared;
    assert data[lo + 1 .. i + 2] == shared + [data[i + 1]];
    SumConcat([data[lo]], shared);
    SumAppend(shared, data[i + 1]);
    assert Sum([data[lo]]) == data[lo] by { SumFront([data[lo]]); }
  }

  /** A constant series averages to itself in every defined entry. */
  lemma ConstantSeries(data: seq<real>, w: int, levels: seq<Option<real>>, c: real)
    requires 1 <= w <= |data| && IsTrailingMeans(data, w, levels)
    requires forall i :: 0 <= i < |data| ==> data[i] == c
    ensures forall i :: w - 1 <= i < |data| ==> levels[i] == Some(c)
  {
    forall i | w - 1 <= i < |data|
      ensures levels[i] == Some(c)
    {
      var window := data[i - w + 1 .. i + 1];
      SumConst(window, c);
      assert |window| == w;
      assert w as real > 0.0;
      assert (w as real * c) / w as real == c;
      assert Mean(window) == c;
      assert levels[i] == Some(Mean(window));
    }
  }

  /** `moving_average_methods([1, 2, 3, 4, 5], 3) == [None, None, 2.0, 3.0, 4.0]`. */
  lemma WindowOfThree(levels: seq<Option<real>>)
    requires IsTrailingMeans([1.0, 2.0, 3.0, 4.0, 5.0], 3, levels)
    ensures levels == [None, None, Some(2.0), Some(3.0), Some(4.0)]
  {
    var data := [1.0, 2.0, 3.0, 4.0, 5.0];
    assert data[0 .. 3] == [data[0], data[1], data[2]];
    assert data[1 .. 4] == [data[1], data[2], data[3]];
    assert data[2 .. 5] == [data[2], data[3], data[4]];
    SumOfThree(1.0, 2.0, 3.0);
    SumOfThree(2.0, 3.0, 4.0);
    SumOfThree(3.0, 4.0, 5.0);
  }
}
