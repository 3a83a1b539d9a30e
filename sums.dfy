/** Python's built-in `sum` over lists of floats, taken as exact real arithmetic,
    and the facts about it that the estimators rely on. */
module Sums {

  /** `sum(s)`: folds from the left, starting at 0. */
  function Sum(s: seq<real>): real
  {
    if |s| == 0 then 0.0 else Sum(s[..|s| - 1]) + s[|s| - 1]
  }

  /** `sum(s) / len(s)`. */
  function Mean(s: seq<real>): real
    requires |s| > 0
  {
    Sum(s) / |s| as real
  }

  /** The slice `s[start::step]`: the elements at start, start + step, start + 2 * step, ... */
  function Stride(s: seq<real>, start: nat, step: nat): (r: seq<real>)
    requires step > 0
    decreases |s| - start
  {
    if start >= |s| then [] else [s[start]] + Stride(s, start + step, step)
  }

  lemma SumAppend(s: seq<real>, x: real)
    ensures Sum(s + [x]) == Sum(s) + x
  {
    assert (s + [x])[..|s|] == s;
  }

  lemma {:induction false} SumConcat(s: seq<real>, t: seq<real>)
    ensures Sum(s + t) == Sum(s) + Sum(t)
    decreases |t|
  {
    if |t| == 0 {
      assert s + t == s;
    } else {
      var t' := t[..|t| - 1];
      assert t == t' + [t[|t| - 1]];
      assert s + t == (s + t') + [t[|t| - 1]];
      SumConcat(s, t');
      SumAppend(s + t', t[|t| - 1]);
      SumAppend(t', t[|t| - 1]);
    }
  }

  /** Summing from the front gives the same value as Python's left fold. */
  lemma SumFront(s: seq<real>)
    requires |s| > 0
    ensures Sum(s) == s[0] + Sum(s[1..])
  {
    assert s == [s[0]] + s[1..];
    SumConcat([s[0]], s[1..]);
    assert Sum([s[0]]) == Sum([]) + s[0];
  }

  /** Summing pointwise sums. */
  lemma {:induction false} SumAdd(s: seq<real>, t: seq<real>, u: seq<real>)
    requires |s| == |t| == |u|
    requires forall i :: 0 <= i < |s| ==> s[i] == t[i] + u[i]
    ensures Sum(s) == Sum(t) + Sum(u)
    decreases |s|
  {
    if |s| > 0 {
      var n := |s| - 1;
      SumAdd(s[..n], t[..n], u[..n]);
    }
  }

  /** Shifting every element by m shifts the sum by n * m. */
  lemma {:induction false} SumShift(s: seq<real>, t: seq<real>, m: real)
    requires |s| == |t|
    requires forall i :: 0 <= i < |s| ==> t[i] == s[i] - m
    ensures Sum(t) == Sum(s) - |s| as real * m
    decreases |s|
  {
    if |s| > 0 {
      var n := |s| - 1;
      SumShift(s[..n], t[..n], m);
      assert n as real * m + m == |s| as real * m;
    }
  }

  /** Subtracting a multiple of one list from another, element by element. */
  lemma {:induction false} SumCombine(r: seq<real>, s: seq<real>, t: seq<real>, c: real)
    requires |r| == |s| == |t|
    requires forall i :: 0 <= i < |r| ==> r[i] == s[i] - c * t[i]
    ensures Sum(r) == Sum(s) - c * Sum(t)
    decreases |r|
  {
    if |r| > 0 {
      var n := |r| - 1;
      SumCombine(r[..n], s[..n], t[..n], c);
      CombineStep(Sum(r[..n]), Sum(s[..n]), Sum(t[..n]), r[n], s[n], t[n], c);
    }
  }

  lemma CombineStep(sr: real, ss: real, st: real, x: real, y: real, z: real, c: real)
    requires sr == ss - c * st && x == y - c * z
    ensures sr + x == (ss + y) - c * (st + z)
  {
  }

  /** A constant factor comes out of a sum. */
  lemma {:induction false} SumScale(s: seq<real>, t: seq<real>, c: real)
    requires |s| == |t|
    requires forall i :: 0 <= i < |s| ==> s[i] == c * t[i]
    ensures Sum(s) == c * Sum(t)
    decreases |s|
  {
    if |s| > 0 {
      var n := |s| - 1;
      SumScale(s[..n], t[..n], c);
    }
  }

  /** The sum of n copies of c is n * c. */
  lemma {:induction false} SumConst(s: seq<real>, c: real)
    requires forall i :: 0 <= i < |s| ==> s[i] == c
    ensures Sum(s) == |s| as real * c
    decreases |s|
  {
    if |s| > 0 {
      SumConst(s[..|s| - 1], c);
    }
  }

  /** Every element between lo and hi puts the sum between n * lo and n * hi. */
  lemma {:induction false} SumBounds(s: seq<real>, lo: real, hi: real)
    requires forall i :: 0 <= i < |s| ==> lo <= s[i] <= hi
    ensures |s| as real * lo <= Sum(s) <= |s| as real * hi
    decreases |s|
  {
    if |s| > 0 {
      var n := |s| - 1;
      SumBounds(s[..n], lo, hi);
      assert n as real * hi + hi == |s| as real * hi;
      assert n as real * lo + lo == |s| as real * lo;
    }
  }

  /** The mean of values between lo and hi is between lo and hi. */
  lemma MeanBounds(s: seq<real>, lo: real, hi: real)
    requires |s| > 0
    requires forall i :: 0 <= i < |s| ==> lo <= s[i] <= hi
    ensures lo <= Mean(s) <= hi
  {
    var n := |s| as real;
    SumBounds(s, lo, hi);
    assert n * lo <= Sum(s) <= n * hi;
    DivideBounds(Sum(s), n, lo, hi);
  }

  lemma DivideBounds(x: real, n: real, lo: real, hi: real)
    requires n > 0.0 && n * lo <= x <= n * hi
    ensures lo <= x / n <= hi
  {
    assert x / n * n == x;
  }

  /** A sum of non-negative terms is non-negative, and positive when one term is. */
  lemma {:induction false} SumPositive(s: seq<real>, k: nat)
    requires forall i :: 0 <= i < |s| ==> s[i] >= 0.0
    ensures Sum(s) >= 0.0
    ensures k < |s| && s[k] > 0.0 ==> Sum(s) > 0.0
    decreases |s|
  {
    if |s| > 0 {
      SumPositive(s[..|s| - 1], k);
    }
  }

  /** A strided slice only reads positions from `start` on, so two lists that agree
      from `start` on have the same slice. */
  lemma {:induction false} StrideAgree(s: seq<real>, t: seq<real>, start: nat, step: nat)
    requires step > 0 && |s| == |t|
    requires forall i :: start <= i < |s| ==> s[i] == t[i]
    ensures Stride(s, start, step) == Stride(t, start, step)
    decreases |s| - start
  {
    if start < |s| {
      StrideAgree(s, t, start + step, step);
    }
  }

  /** The sum of a three-element list. */
  lemma SumOfThree(a: real, b: real, c: real)
    ensures Sum([a, b, c]) == a + b + c
  {
    assert [a, b, c] == [a, b] + [c];
    assert [a, b] == [a] + [b];
    assert [a] == [] + [a];
    SumAppend([], a);
    SumAppend([a], b);
    SumAppend([a, b], c);
  }
}
