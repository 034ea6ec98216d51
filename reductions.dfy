/**
 * Reductions over ordered sequences of reals: sums, means, the pandas slices
 * `iloc[:k]` and `iloc[-k:]`, `diff()`, `rolling(w).mean()`, and the
 * payday-distance encoder of data/synthetic_data.py.
 */
module Reductions {
  import opened Wrappers

  /** Sum of a sequence, accumulated from the front (as pandas' `sum()`). */
  function Sum(s: seq<real>): real
    decreases |s|
  {
    if s == [] then 0.0 else Sum(s[..|s| - 1]) + s[|s| - 1]
  }

  /** Arithmetic mean of a non-empty sequence (pandas' `mean()`). */
  function Mean(s: seq<real>): real
    requires |s| > 0
  {
    Sum(s) / (|s| as real)
  }

  lemma {:induction false} SumConcat(a: seq<real>, b: seq<real>)
    ensures Sum(a + b) == Sum(a) + Sum(b)
    decreases |b|
  {
    if b == [] {
      assert a + b == a;
    } else {
      var b' := b[..|b| - 1];
      assert (a + b)[..|a + b| - 1] == a + b';
      SumConcat(a, b');
    }
  }

  lemma {:induction false} SumNonNegative(s: seq<real>)
    requires forall i :: 0 <= i < |s| ==> s[i] >= 0.0
    ensures Sum(s) >= 0.0
    decreases |s|
  {
    if s != [] {
      SumNonNegative(s[..|s| - 1]);
    }
  }

  /** Sum of a sequence of constant value. */
  lemma {:induction false} SumConstant(s: seq<real>, c: real)
    requires forall i :: 0 <= i < |s| ==> s[i] == c
    ensures Sum(s) == (|s| as real) * c
    decreases |s|
  {
    if s != [] {
      SumConstant(s[..|s| - 1], c);
    }
  }

  /** `s.iloc[:k]`: the first `k` entries, or all of `s` when it is shorter. */
  function Head(s: seq<real>, k: nat): (h: seq<real>)
    ensures |h| == if |s| <= k then |s| else k
    ensures h == s[..|h|]
  {
    if |s| <= k then s else s[..k]
  }

  /** `s.iloc[-k:]`: the last `k` entries, or all of `s` when it is shorter. */
  function Tail<T>(s: seq<T>, k: nat): (t: seq<T>)
    ensures |t| == if |s| <= k then |s| else k
  {
    if |s| <= k then s else s[|s| - k..]
  }

  /** Every entry of the window is present (no NaN). */
  predicate AllPresent(xs: seq<Option<real>>)
  {
    forall i :: 0 <= i < |xs| ==> xs[i].Some?
  }

  /** The values of a window with no NaN in it. */
  function Values(xs: seq<Option<real>>): (v: seq<real>)
    requires AllPresent(xs)
    ensures |v| == |xs|
    ensures forall i :: 0 <= i < |xs| ==> xs[i] == Some(v[i])
  {
    seq(|xs|, i requires 0 <= i < |xs| => xs[i].value)
  }

  /** A column without missing values, as pandas holds it. */
  function Present(s: seq<real>): (xs: seq<Option<real>>)
    ensures |xs| == |s| && AllPresent(xs)
    ensures Values(xs) == s
  {
    seq(|s|, i requires 0 <= i < |s| => Some(s[i]))
  }

  /**
   * `rolling(w).mean()` at row `i`: with pandas' default `min_periods = w`,
   * defined only when the `w` rows ending at `i` exist and none is NaN.
   */
  function WindowMean(xs: seq<Option<real>>, i: nat, w: nat): Option<real>
    requires i < |xs| && w > 0
  {
    if i + 1 >= w && AllPresent(xs[i + 1 - w..i + 1])
    then Some(Sum(Values(xs[i + 1 - w..i + 1])) / (w as real))
    else None
  }

  /** The whole `rolling(w).mean()` column, one entry per row. */
  function Rolling(xs: seq<Option<real>>, w: nat): (r: seq<Option<real>>)
    requires w > 0
    ensures |r| == |xs|
  {
    seq(|xs|, i requires 0 <= i < |xs| => WindowMean(xs, i, w))
  }

  /**
   * At the last row, the `w`-row rolling mean of a NaN-free column is the mean
   * of the last `w` values when there are at least `w` rows, and NaN otherwise:
   * it never falls back to a shorter window.
   */
  lemma RollingAtLast(s: seq<real>, w: nat)
    requires w > 0 && |s| > 0
    ensures Rolling(Present(s), w)[|s| - 1] ==
              if |s| >= w then Some(Mean(s[|s| - w..])) else None
  {
    var n := |s|;
    if n >= w {
      var xs := Present(s);
      assert xs[n - w..n] == Present(s[n - w..]);
      assert Values(xs[n - w..n]) == s[n - w..];
    }
  }

  /** `diff()`: NaN at the first row, then the change from the previous row. */
  function Diff(s: seq<real>): (d: seq<Option<real>>)
    ensures |d| == |s|
  {
    seq(|s|, i requires 0 <= i < |s| => if i == 0 then None else Some(s[i] - s[i - 1]))
  }

  /** The differences of rows `a..b` (all after the first) sum to the net change. */
  lemma {:induction false} DiffTelescopes(s: seq<real>, a: nat, b: nat)
    requires 1 <= a <= b <= |s|
    ensures AllPresent(Diff(s)[a..b])
    ensures Sum(Values(Diff(s)[a..b])) == s[b - 1] - s[a - 1]
    decreases b - a
  {
    var d := Diff(s);
    if a < b {
      DiffTelescopes(s, a, b - 1);
      var v := Values(d[a..b]);
      assert v[..|v| - 1] == Values(d[a..b - 1]);
      assert v[|v| - 1] == s[b - 1] - s[b - 2];
    } else {
      assert Values(d[a..b]) == [];
    }
  }

  /**
   * Spend velocity, `diff().rolling(7).mean()` at the last row: defined only
   * from the eighth row on (the first difference is NaN), and then it
   * telescopes to one seventh of the change over the last seven steps.
   */
  lemma VelocityAtLast(s: seq<real>)
    requires |s| > 0
    ensures var n := |s|;
            Rolling(Diff(s), 7)[n - 1] ==
              if n >= 8 then Some((s[n - 1] - s[n - 8]) / 7.0) else None
  {
    var n := |s|;
    var d := Diff(s);
    if n >= 8 {
      DiffTelescopes(s, n - 7, n);
    } else if n == 7 {
      assert !(d[0..7][0].Some?);
    }
  }

  /**
   * `min((day - 1) % 15, 15 - (day - 1) % 15)`. The divisor is positive, so
   * Python's floored `%` and Dafny's Euclidean `%` agree for every day.
   */
  function DaysToPayday(day: int): (k: int)
    ensures 0 <= k <= 7
    ensures k == 0 <==> (day - 1) % 15 == 0
  {
    var r := (day - 1) % 15;
    if r <= 15 - r then r else 15 - r
  }

  /** Within a month it is zero exactly on days 1, 16 and 31, and not on the 15th. */
  lemma DaysToPaydayZeros(day: int)
    requires 1 <= day <= 31
    ensures DaysToPayday(day) == 0 <==> day == 1 || day == 16 || day == 31
    ensures DaysToPayday(15) == 1
  {
  }

  /** Days whose half-cycle positions are `r` and `15 - r` get the same value. */
  lemma DaysToPaydaySymmetric(d1: int, d2: int)
    requires (d1 - 1) % 15 + (d2 - 1) % 15 == 15
    ensures DaysToPayday(d1) == DaysToPayday(d2)
  {
  }
}
