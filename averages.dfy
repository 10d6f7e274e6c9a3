/** The moving averages of the indicator library: `sma` and `ema` (scan.js:5-11). */
module Averages {

  /** `reduce((a, b) => a + b, 0)`: the left-to-right sum of a series. */
  function Sum(s: seq<real>): real
  {
    if s == [] then 0.0 else Sum(s[..|s| - 1]) + s[|s| - 1]
  }

  /** The smallest element of a non-empty series. */
  function MinOf(s: seq<real>): real
    requires |s| >= 1
  {
    if |s| == 1 then s[0]
    else
      var p := MinOf(s[..|s| - 1]);
      if s[|s| - 1] < p then s[|s| - 1] else p
  }

  /** The largest element of a non-empty series. */
  function MaxOf(s: seq<real>): real
    requires |s| >= 1
  {
    if |s| == 1 then s[0]
    else
      var p := MaxOf(s[..|s| - 1]);
      if s[|s| - 1] > p then s[|s| - 1] else p
  }

  /** The minimum and maximum are elements of the series and bound all of it. */
  lemma {:induction false} RangeOf(s: seq<real>)
    requires |s| >= 1
    ensures MinOf(s) in s && MaxOf(s) in s
    ensures Within(s, MinOf(s), MaxOf(s))
  {
    if |s| > 1 {
      var init := s[..|s| - 1];
      RangeOf(init);
      assert s == init + [s[|s| - 1]];
    }
  }

  /** `slice(-n)` for `n >= 1`: the last `n` elements, or the whole series when it is shorter. */
  function Last(s: seq<real>, n: nat): (t: seq<real>)
    requires n >= 1
    ensures |t| == if n <= |s| then n else |s|
    ensures t == s[|s| - |t|..]
  {
    if n <= |s| then s[|s| - n..] else s
  }

  /** `sma(arr, n)`: the sum of the last `n` elements divided by `n` (not by the
      length of the slice, which is why every caller clamps `n`). */
  function Sma(s: seq<real>, n: nat): (r: real)
    requires n >= 1
    ensures n <= |s| ==> MinOf(s[|s| - n..]) <= r <= MaxOf(s[|s| - n..])
  {
    var t := Last(s, n);
    var m := n as real;
    if n <= |s| then
      RangeOf(t);
      SumWithin(t, MinOf(t), MaxOf(t));
      DivideWithin(Sum(t), m, MinOf(t), MaxOf(t));
      Sum(t) / m
    else
      Sum(t) / m
  }

  /** The smoothing factor `k = 2/(n+1)` of `ema(arr, n)`. */
  function Alpha(n: nat): (k: real)
    requires n >= 1
    ensures 0.0 < k <= 1.0
  {
    2.0 / (n as real + 1.0)
  }

  /** The exponential average of `s` with factor `k`, seeded with `s[0]`:
      each later element `x` moves the average `e` to `x*k + e*(1-k)`.
      With `k` in `[0, 1]` it never leaves any range that holds the whole series. */
  function EmaOf(s: seq<real>, k: real): (e: real)
    requires |s| >= 1 && 0.0 <= k <= 1.0
    ensures forall lo, hi :: Within(s, lo, hi) ==> lo <= e <= hi
  {
    if |s| == 1 then s[0]
    else
      var init := s[..|s| - 1];
      var prev := EmaOf(init, k);
      var e := s[|s| - 1] * k + prev * (1.0 - k);
      assert forall lo, hi :: Within(s, lo, hi) ==> lo <= e <= hi by {
        forall lo, hi | Within(s, lo, hi) ensures lo <= e <= hi {
          assert Within(init, lo, hi) by {
            forall i | 0 <= i < |init| ensures lo <= init[i] <= hi {
              assert init[i] == s[i];
            }
          }
          ConvexWithin(s[|s| - 1], prev, k, lo, hi);
        }
      }
      e
  }

  /** The value `ema(arr, n)` returns: it lies between the minimum and the maximum of the series. */
  function EmaValue(s: seq<real>, n: nat): (e: real)
    requires n >= 1 && |s| >= 1
    ensures MinOf(s) <= e <= MaxOf(s)
  {
    RangeOf(s);
    EmaOf(s, Alpha(n))
  }

  /** `ema(arr, n)`: the loop that updates the accumulator `e` from left to right. */
  method Ema(arr: seq<real>, n: nat) returns (e: real)
    requires n >= 1 && |arr| >= 1
    ensures e == EmaValue(arr, n)
    ensures |arr| == 1 ==> e == arr[0]
  {
    var k := 2.0 / (n as real + 1.0);
    e := arr[0];
    for i := 1 to |arr|
      invariant e == EmaOf(arr[..i], k)
    {
      assert arr[..i + 1][..i] == arr[..i];
      e := arr[i] * k + e * (1.0 - k);
    }
    assert arr[..|arr|] == arr;
  }

  // ---- properties of Sum and Sma ----

  /** Every element of `s` lies in `[lo, hi]`. */
  predicate Within(s: seq<real>, lo: real, hi: real)
  {
    forall i :: 0 <= i < |s| ==> lo <= s[i] <= hi
  }

  /** Every element of `s` equals `c`. */
  predicate Constant(s: seq<real>, c: real)
  {
    forall i :: 0 <= i < |s| ==> s[i] == c
  }

  lemma {:induction false} SumWithin(s: seq<real>, lo: real, hi: real)
    requires Within(s, lo, hi)
    ensures |s| as real * lo <= Sum(s) <= |s| as real * hi
  {
    if s != [] {
      var init, m := s[..|s| - 1], (|s| - 1) as real;
      SumWithin(init, lo, hi);
      assert Sum(s) == Sum(init) + s[|s| - 1] && lo <= s[|s| - 1] <= hi;
      assert |init| as real == m && |s| as real == m + 1.0;
      assert m * lo + lo == (m + 1.0) * lo && m * hi + hi == (m + 1.0) * hi;
    }
  }

  lemma {:induction false} SumAppend(a: seq<real>, b: seq<real>)
    ensures Sum(a + b) == Sum(a) + Sum(b)
  {
    if b != [] {
      assert (a + b)[..|a + b| - 1] == a + b[..|b| - 1];
      SumAppend(a, b[..|b| - 1]);
    } else {
      assert a + b == a;
    }
  }

  /** For `1 <= n <= |s|` the simple average lies between any bounds of the last `n` elements. */
  lemma SmaWithin(s: seq<real>, n: nat, lo: real, hi: real)
    requires 1 <= n <= |s|
    requires forall i :: |s| - n <= i < |s| ==> lo <= s[i] <= hi
    ensures lo <= Sma(s, n) <= hi
  {
    var t := Last(s, n);
    assert Within(t, lo, hi) by {
      forall i | 0 <= i < |t| ensures lo <= t[i] <= hi {
        assert t[i] == s[|s| - n + i];
      }
    }
    SumWithin(t, lo, hi);
    var m := n as real;
    assert m * lo <= Sum(t) <= m * hi;
    assert Sma(s, n) == Sum(t) / m;
  }

  /** A constant series of at least `n` elements has that constant as its simple average. */
  lemma SmaConstant(s: seq<real>, n: nat, c: real)
    requires 1 <= n <= |s| && Constant(s, c)
    ensures Sma(s, n) == c
  {
    SmaWithin(s, n, c, c);
  }

  /** Rolling the window one element forward: adding `x` and dropping the oldest
      element of the window shifts the average by their difference divided by `n`. */
  lemma SmaRoll(s: seq<real>, n: nat, x: real)
    requires 1 <= n <= |s|
    ensures Sma(s + [x], n) == Sma(s, n) + (x - s[|s| - n]) / (n as real)
  {
    SumLastRoll(s, n, x);
    DivideSum(Sum(Last(s, n)), x - s[|s| - n], n as real);
  }

  /** The window sum after appending `x` gains `x` and loses the element that left the window. */
  lemma SumLastRoll(s: seq<real>, n: nat, x: real)
    requires 1 <= n <= |s|
    ensures Sum(Last(s + [x], n)) == Sum(Last(s, n)) + (x - s[|s| - n])
  {
    var first, rest := s[|s| - n], s[|s| - n + 1..];
    assert Last(s, n) == [first] + rest;
    assert Last(s + [x], n) == rest + [x];
    SumCons(first, rest);
    SumSnoc(rest, x);
  }

  lemma SumCons(a: real, t: seq<real>)
    ensures Sum([a] + t) == a + Sum(t)
  {
    SumAppend([a], t);
    assert [a][..0] == [];
  }

  lemma SumSnoc(t: seq<real>, x: real)
    ensures Sum(t + [x]) == Sum(t) + x
  {
    assert (t + [x])[..|t|] == t;
  }

  lemma DivideWithin(x: real, m: real, lo: real, hi: real)
    requires m > 0.0 && m * lo <= x <= m * hi
    ensures lo <= x / m <= hi
  {
  }

  lemma DivideSum(p: real, q: real, m: real)
    requires m != 0.0
    ensures (p + q) / m == p / m + q / m
  {
  }

  /** Unclamped on a short series, `sma` divides by `n` and so underestimates: a
      positive constant series shorter than `n` averages to strictly less than its value. */
  lemma SmaUnclampedUnderestimates(s: seq<real>, n: nat, c: real)
    requires 1 <= |s| < n && Constant(s, c) && c > 0.0
    ensures Sma(s, n) == (|s| as real) * c / (n as real) < c
  {
    SumWithin(s, c, c);
  }

  // ---- properties of Ema ----

  /** A convex combination of two values in `[lo, hi]` stays in `[lo, hi]`. */
  lemma ConvexWithin(x: real, e: real, k: real, lo: real, hi: real)
    requires lo <= x <= hi && lo <= e <= hi && 0.0 <= k <= 1.0
    ensures lo <= x * k + e * (1.0 - k) <= hi
  {
    assert (x - lo) * k >= 0.0;
    assert (e - lo) * (1.0 - k) >= 0.0;
    assert (hi - x) * k >= 0.0;
    assert (hi - e) * (1.0 - k) >= 0.0;
  }

  /** `ema(arr, n)` lies between any lower and upper bound of `arr`, in particular
      between its minimum and maximum. */
  lemma EmaWithin(s: seq<real>, n: nat, lo: real, hi: real)
    requires n >= 1 && |s| >= 1 && Within(s, lo, hi)
    ensures lo <= EmaValue(s, n) <= hi
  {
    RangeOf(s);
  }

  /** A constant series is its own exponential average. */
  lemma EmaConstant(s: seq<real>, n: nat, c: real)
    requires n >= 1 && |s| >= 1 && Constant(s, c)
    ensures EmaValue(s, n) == c
  {
    EmaWithin(s, n, c, c);
  }
}
