/**
 * Whole-history aggregates of one employee's (date-sorted) transaction group,
 * and the `ewa_next15` label (data/synthetic_data.py lines 79-92 and 119).
 */
module Summary {
  import opened Wrappers
  import opened Reductions
  import opened Simulation

  /** The smoothing constant added to the denominators of both ratios. */
  const EPS: real := 0.001

  /** Both `iloc[:30]` and `iloc[-30:]` of the balance trend. */
  const TREND_WINDOW: nat := 30

  /** The label looks at the last 15 records. */
  const LABEL_WINDOW: nat := 15

  /**
   * `num / (den + 1e-3)`. numpy returns inf or NaN instead of a number when
   * the smoothed denominator is zero; both are `None` here.
   */
  function SmoothedRatio(num: real, den: real): (q: Option<real>)
    ensures q.Some? <==> den + EPS != 0.0
    ensures q.Some? ==> q.value * (den + EPS) == num
    ensures num >= 0.0 && den >= 0.0 ==> q.Some? && q.value >= 0.0
  {
    if den + EPS == 0.0 then None else Some(num / (den + EPS))
  }

  function TotalIncome(rs: seq<TxRecord>): real { Sum(Column(rs, DepositOf)) }
  function TotalSpend(rs: seq<TxRecord>): real { Sum(Column(rs, SpendOf)) }
  function EwaTotal(rs: seq<TxRecord>): real { Sum(Column(rs, EwaAmountOf)) }
  function TotalRepaid(rs: seq<TxRecord>): real { Sum(Column(rs, RepaymentOf)) }

  /** `total_income / (total_spend + 1e-3)`. */
  function IncomeExpenseRatio(rs: seq<TxRecord>): Option<real>
  {
    SmoothedRatio(TotalIncome(rs), TotalSpend(rs))
  }

  /** `repayment.sum() / (ewa_total + 1e-3)`. */
  function RepaymentRate(rs: seq<TxRecord>): Option<real>
  {
    SmoothedRatio(TotalRepaid(rs), EwaTotal(rs))
  }

  /** `group[group['category'] == c]['spend'].sum()`. */
  function CategorySpend(rs: seq<TxRecord>, c: Category): real
    decreases |rs|
  {
    if rs == [] then 0.0
    else CategorySpend(rs[..|rs| - 1], c) + (if rs[|rs| - 1].category == c then rs[|rs| - 1].spend else 0.0)
  }

  /** `ewa_used.sum()`: the number of days with an advance. */
  function EwaCount(rs: seq<TxRecord>): nat
    decreases |rs|
  {
    if rs == [] then 0
    else EwaCount(rs[..|rs| - 1]) + (if rs[|rs| - 1].ewaUsed then 1 else 0)
  }

  /** The necessity and discretionary totals partition the total spend. */
  lemma {:induction false} SpendPartition(rs: seq<TxRecord>)
    ensures CategorySpend(rs, Necessity) + CategorySpend(rs, Discretionary) == TotalSpend(rs)
    decreases |rs|
  {
    if rs != [] {
      var rs' := rs[..|rs| - 1];
      assert rs == rs' + [rs[|rs| - 1]];
      SpendPartition(rs');
      SumColumnAppend(rs', rs[|rs| - 1], SpendOf);
    }
  }

  /** With non-negative spends, each category total is between 0 and the total spend. */
  lemma {:induction false} CategorySpendBounds(rs: seq<TxRecord>, c: Category)
    requires forall i :: 0 <= i < |rs| ==> rs[i].spend >= 0.0
    ensures 0.0 <= CategorySpend(rs, c) <= TotalSpend(rs)
    decreases |rs|
  {
    if rs != [] {
      var rs' := rs[..|rs| - 1];
      assert rs == rs' + [rs[|rs| - 1]];
      CategorySpendBounds(rs', c);
      SumColumnAppend(rs', rs[|rs| - 1], SpendOf);
    }
  }

  /** `balance.iloc[-30:].mean() - balance.iloc[:30].mean()`. */
  function BalanceTrend(rs: seq<TxRecord>): real
    requires |rs| > 0
  {
    var b := Column(rs, BalanceOf);
    Mean(Tail(b, TREND_WINDOW)) - Mean(Head(b, TREND_WINDOW))
  }

  /** Up to 30 records both slices are the whole history, so the trend is exactly 0. */
  lemma BalanceTrendShortHistory(rs: seq<TxRecord>)
    requires 0 < |rs| <= TREND_WINDOW
    ensures BalanceTrend(rs) == 0.0
  {
  }

  lemma {:induction false} SumPointwiseLeq(a: seq<real>, b: seq<real>)
    requires |a| == |b|
    requires forall i :: 0 <= i < |a| ==> a[i] <= b[i]
    ensures Sum(a) <= Sum(b)
    decreases |a|
  {
    if a != [] {
      SumPointwiseLeq(a[..|a| - 1], b[..|b| - 1]);
    }
  }

  /** A balance that never falls gives a non-negative trend. */
  lemma BalanceTrendOfRisingBalance(rs: seq<TxRecord>)
    requires |rs| > 0
    requires forall i, j :: 0 <= i <= j < |rs| ==> rs[i].balance <= rs[j].balance
    ensures BalanceTrend(rs) >= 0.0
  {
    var b := Column(rs, BalanceOf);
    var t, h := Tail(b, TREND_WINDOW), Head(b, TREND_WINDOW);
    assert |t| == |h|;
    forall i | 0 <= i < |h| ensures h[i] <= t[i] {
      assert h[i] == b[i] && t[i] == b[|b| - |t| + i];
    }
    SumPointwiseLeq(h, t);
  }

  lemma {:induction false} EwaCountConcat(a: seq<TxRecord>, b: seq<TxRecord>)
    ensures EwaCount(a + b) == EwaCount(a) + EwaCount(b)
    decreases |b|
  {
    if b == [] {
      assert a + b == a;
    } else {
      var b' := b[..|b| - 1];
      assert (a + b)[..|a + b| - 1] == a + b';
      EwaCountConcat(a, b');
    }
  }

  /** At most one advance per record. */
  lemma {:induction false} EwaCountAtMostLength(rs: seq<TxRecord>)
    ensures EwaCount(rs) <= |rs|
    decreases |rs|
  {
    if rs != [] {
      EwaCountAtMostLength(rs[..|rs| - 1]);
    }
  }

  /** The count is positive exactly when some record carries an advance. */
  lemma {:induction false} EwaCountPositive(rs: seq<TxRecord>)
    ensures EwaCount(rs) > 0 <==> exists i :: 0 <= i < |rs| && rs[i].ewaUsed
    decreases |rs|
  {
    if rs != [] {
      var rs' := rs[..|rs| - 1];
      EwaCountPositive(rs');
      if exists i :: 0 <= i < |rs'| && rs'[i].ewaUsed {
        var i :| 0 <= i < |rs'| && rs'[i].ewaUsed;
        assert rs[i].ewaUsed;
      }
      if exists i :: 0 <= i < |rs| && rs[i].ewaUsed {
        var i :| 0 <= i < |rs| && rs[i].ewaUsed;
        if i < |rs'| {
          assert rs'[i].ewaUsed;
        }
      }
    }
  }

  /**
   * `prev_ewa_dates` holds one date per advance, and a date is in it exactly
   * when some record of that date took an advance.
   */
  lemma {:induction false} EwaDatesCount(rs: seq<TxRecord>)
    ensures |EwaDates(rs)| == EwaCount(rs)
    ensures forall d :: d in EwaDates(rs) <==> exists i :: 0 <= i < |rs| && rs[i].ewaUsed && rs[i].date == d
    decreases |rs|
  {
    if rs != [] {
      var rs' := rs[..|rs| - 1];
      var last := rs[|rs| - 1];
      EwaDatesCount(rs');
      forall d ensures d in EwaDates(rs) <==> exists i :: 0 <= i < |rs| && rs[i].ewaUsed && rs[i].date == d {
        if exists i :: 0 <= i < |rs'| && rs'[i].ewaUsed && rs'[i].date == d {
          var i :| 0 <= i < |rs'| && rs'[i].ewaUsed && rs'[i].date == d;
          assert rs[i] == rs'[i];
        }
        if exists i :: 0 <= i < |rs| && rs[i].ewaUsed && rs[i].date == d {
          var i :| 0 <= i < |rs| && rs[i].ewaUsed && rs[i].date == d;
          if i < |rs'| {
            assert rs'[i] == rs[i];
          }
        }
      }
    }
  }

  /** The first index of the label window. */
  function LabelStart(rs: seq<TxRecord>): nat
  {
    if |rs| <= LABEL_WINDOW then 0 else |rs| - LABEL_WINDOW
  }

  /** A suffix holds an advance exactly when one of its positions in the whole history does. */
  lemma EwaCountSuffix(rs: seq<TxRecord>, k: nat)
    requires k <= |rs|
    ensures EwaCount(rs[k..]) > 0 <==> exists i :: k <= i < |rs| && rs[i].ewaUsed
  {
    var w := rs[k..];
    EwaCountPositive(w);
    if exists i :: k <= i < |rs| && rs[i].ewaUsed {
      var i :| k <= i < |rs| && rs[i].ewaUsed;
      assert w[i - k] == rs[i];
    }
    if exists j :: 0 <= j < |w| && w[j].ewaUsed {
      var j :| 0 <= j < |w| && w[j].ewaUsed;
      assert w[j] == rs[j + k];
    }
  }

  /** Advances in the last 15 records are advances of records from `LabelStart` on. */
  lemma LabelWindowCount(rs: seq<TxRecord>)
    ensures EwaCount(Tail(rs, LABEL_WINDOW)) > 0 <==>
              exists i :: LabelStart(rs) <= i < |rs| && rs[i].ewaUsed
  {
    assert Tail(rs, LABEL_WINDOW) == rs[LabelStart(rs)..];
    EwaCountSuffix(rs, LabelStart(rs));
  }

  /**
   * `int(group.iloc[-15:]['ewa_used'].sum() > 0)`: 1 exactly when some record
   * among the last 15 carries an advance.
   */
  function EwaNext15(rs: seq<TxRecord>): (y: int)
    ensures y == 0 || y == 1
    ensures y == 1 <==> exists i :: LabelStart(rs) <= i < |rs| && rs[i].ewaUsed
  {
    LabelWindowCount(rs);
    if EwaCount(Tail(rs, LABEL_WINDOW)) > 0 then 1 else 0
  }

  /**
   * The feature window contains the label window: a positive label forces a
   * positive `ewa_count`, which counts the label window's advances too.
   */
  lemma LabelImpliesEwaCount(rs: seq<TxRecord>)
    requires EwaNext15(rs) == 1
    ensures EwaCount(rs) >= EwaCount(Tail(rs, LABEL_WINDOW)) >= 1
  {
    var k := LabelStart(rs);
    var w := Tail(rs, LABEL_WINDOW);
    assert rs == rs[..k] + w;
    EwaCountConcat(rs[..k], w);
  }

  /**
   * The label leaks into the features: two histories that agree on every
   * record before the label window, and differ only in one record inside it,
   * get different `ewa_count` values.
   */
  lemma LabelLeaksIntoEwaCount(rs: seq<TxRecord>)
    requires |rs| > 0
    ensures var n := |rs|;
            var flipped := rs[..n - 1] + [rs[n - 1].(ewaUsed := !rs[n - 1].ewaUsed)];
            && |flipped| == n
            && flipped[..LabelStart(rs)] == rs[..LabelStart(rs)]
            && EwaCount(flipped) != EwaCount(rs)
  {
    var n := |rs|;
    var flipped := rs[..n - 1] + [rs[n - 1].(ewaUsed := !rs[n - 1].ewaUsed)];
    assert flipped[..n - 1] == rs[..n - 1];
    assert flipped[..LabelStart(rs)] == rs[..n - 1][..LabelStart(rs)];
  }

  /**
   * Over well-formed records every advance lies in [100, 500], only advances
   * are repaid, so at most the advanced total is repaid and the repayment
   * rate lies in [0, 1).
   */
  lemma {:induction false} EwaTotals(rs: seq<TxRecord>)
    requires forall i :: 0 <= i < |rs| ==> WellFormed(rs[i])
    ensures EWA_MIN * (EwaCount(rs) as real) <= EwaTotal(rs) <= EWA_MAX * (EwaCount(rs) as real)
    ensures 0.0 <= TotalRepaid(rs) <= EwaTotal(rs)
    decreases |rs|
  {
    if rs != [] {
      var rs' := rs[..|rs| - 1];
      var r := rs[|rs| - 1];
      assert rs == rs' + [r];
      EwaTotals(rs');
      SumColumnAppend(rs', r, EwaAmountOf);
      SumColumnAppend(rs', r, RepaymentOf);
    }
  }

  lemma RepaymentRateBounds(rs: seq<TxRecord>)
    requires forall i :: 0 <= i < |rs| ==> WellFormed(rs[i])
    ensures RepaymentRate(rs).Some?
    ensures 0.0 <= RepaymentRate(rs).value < 1.0
  {
    EwaTotals(rs);
    SmoothedRatioBelowOne(TotalRepaid(rs), EwaTotal(rs));
  }

  /** A smoothed ratio of a non-negative numerator at most its denominator lies in [0, 1). */
  lemma SmoothedRatioBelowOne(num: real, den: real)
    requires 0.0 <= num <= den
    ensures SmoothedRatio(num, den).Some?
    ensures 0.0 <= SmoothedRatio(num, den).value < 1.0
  {
    var q := SmoothedRatio(num, den).value;
    var d := den + EPS;
    assert q * d == num < d;
    if q >= 1.0 {
      MultiplyMonotone(1.0, q, d);
      assert false;
    }
  }

  /** Over well-formed records the income/expense ratio is defined and non-negative. */
  lemma IncomeExpenseRatioDefined(rs: seq<TxRecord>)
    requires forall i :: 0 <= i < |rs| ==> WellFormed(rs[i])
    ensures IncomeExpenseRatio(rs).Some? && IncomeExpenseRatio(rs).value >= 0.0
  {
    SumNonNegative(Column(rs, DepositOf));
    SumNonNegative(Column(rs, SpendOf));
  }

  lemma MultiplyMonotone(a: real, b: real, d: real)
    requires a <= b && d >= 0.0
    ensures a * d <= b * d
  {
    assert b * d - a * d == (b - a) * d;
  }

  function Square(x: real): (y: real)
    ensures y >= 0.0
  {
    if x >= 0.0 then MultiplyMonotone(0.0, x, x); x * x
    else MultiplyMonotone(0.0, -x, -x); x * x
  }

  /** Squared deviations from `m`. */
  function SquaredDeviations(s: seq<real>, m: real): (d: seq<real>)
    ensures |d| == |s|
    ensures forall i :: 0 <= i < |d| ==> d[i] >= 0.0
  {
    seq(|s|, i requires 0 <= i < |s| => Square(s[i] - m))
  }

  /**
   * The square of `spend.std()`: the sample variance (divisor n - 1), NaN for
   * fewer than two records.
   */
  function SampleVariance(s: seq<real>): (v: Option<real>)
    ensures v.Some? <==> |s| >= 2
    ensures v.Some? ==> v.value >= 0.0
  {
    if |s| < 2 then None
    else
      SumNonNegative(SquaredDeviations(s, Mean(s)));
      Some(Sum(SquaredDeviations(s, Mean(s))) / ((|s| - 1) as real))
  }

  /** Constant spending has zero variance. */
  lemma SampleVarianceOfConstant(s: seq<real>, c: real)
    requires |s| >= 2
    requires forall i :: 0 <= i < |s| ==> s[i] == c
    ensures SampleVariance(s) == Some(0.0)
  {
    SumConstant(s, c);
    assert Mean(s) == c;
    SumConstant(SquaredDeviations(s, c), 0.0);
  }
}
