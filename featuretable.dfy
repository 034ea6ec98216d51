/**
 * The feature-engineering loop of data/synthetic_data.py (lines 66-120): group
 * the transactions by employee, sort each group by date, reduce it to one
 * feature row, and append the row to `features`.
 */
module FeatureTable {
  import opened Wrappers
  import opened Calendar
  import opened Reductions
  import opened Employees
  import opened Simulation
  import opened Summary

  /** One row of the offline dataset `synthetic_ewa.csv`. */
  datatype FeatureRow = FeatureRow(
    employeeId: string,
    department: string,
    jobLevel: string,
    salaryMonthly: real,
    tenureDays: int,
    savingsBalance: real,
    otherLoans: int,
    spend3dAvg: Option<real>,
    spend7dAvg: Option<real>,
    spend30dAvg: Option<real>,
    spendVelocity: Option<real>,
    daysToPayday: int,
    isMonthEnd: int,
    incomeExpenseRatio: Option<real>,
    /** The square of `spend_volatility`: the sample variance of the spends. */
    spendVariance: Option<real>,
    necessitySpend: real,
    discretionarySpend: real,
    balanceTrend: real,
    ewaCount: nat,
    ewaTotal: real,
    repaymentRate: Option<real>,
    finalBalance: real,
    ewaNext15: int)

  /** The columns of the offline dataset, in the order the feature dict is built. */
  const OFFLINE_COLUMNS: seq<string> := [
    "employee_id", "department", "job_level", "salary_monthly", "tenure_days",
    "savings_balance", "other_loans", "spend_3d_avg", "spend_7d_avg", "spend_30d_avg",
    "spend_velocity", "days_to_payday", "is_month_end", "income_expense_ratio",
    "spend_volatility", "necessity_spend", "discretionary_spend", "balance_trend",
    "ewa_count", "ewa_total", "repayment_rate", "final_balance", "ewa_next15"]

  /**
   * A sort key of a calendar day; on valid dates it orders exactly as
   * `Before` does (year, then month, then day).
   */
  function DateKey(d: Day): int
  {
    d.year * 512 + d.month * 32 + d.day
  }

  lemma DateKeyOrder(a: Day, b: Day)
    ensures Before(a, b) <==> DateKey(a) < DateKey(b)
  {
  }

  predicate SortedByDate(rs: seq<TxRecord>)
  {
    forall i, j :: 0 <= i < j < |rs| ==> DateKey(rs[i].date) <= DateKey(rs[j].date)
  }

  function InsertByDate(r: TxRecord, rs: seq<TxRecord>): (out: seq<TxRecord>)
    decreases |rs|
  {
    if rs == [] then [r]
    else if DateKey(r.date) <= DateKey(rs[0].date) then [r] + rs
    else [rs[0]] + InsertByDate(r, rs[1..])
  }

  /** Inserting one record adds exactly that record. */
  lemma {:induction false} InsertByDatePermutes(r: TxRecord, rs: seq<TxRecord>)
    ensures multiset(InsertByDate(r, rs)) == multiset(rs) + multiset{r}
    ensures |InsertByDate(r, rs)| == |rs| + 1
    decreases |rs|
  {
    if rs != [] && DateKey(r.date) > DateKey(rs[0].date) {
      InsertByDatePermutes(r, rs[1..]);
      assert rs == [rs[0]] + rs[1..];
    }
  }

  /** A lower bound on the keys of `r` and of `rs` bounds the keys after insertion. */
  lemma {:induction false} InsertByDateBounded(r: TxRecord, rs: seq<TxRecord>, b: int)
    requires b <= DateKey(r.date)
    requires forall i :: 0 <= i < |rs| ==> b <= DateKey(rs[i].date)
    ensures forall i :: 0 <= i < |InsertByDate(r, rs)| ==> b <= DateKey(InsertByDate(r, rs)[i].date)
    decreases |rs|
  {
    if rs != [] && DateKey(r.date) > DateKey(rs[0].date) {
      InsertByDateBounded(r, rs[1..], b);
    }
  }

  /** Inserting into a date-sorted sequence keeps it sorted. */
  lemma {:induction false} InsertByDateSorted(r: TxRecord, rs: seq<TxRecord>)
    requires SortedByDate(rs)
    ensures SortedByDate(InsertByDate(r, rs))
    decreases |rs|
  {
    if rs != [] && DateKey(r.date) > DateKey(rs[0].date) {
      InsertByDateSorted(r, rs[1..]);
      InsertByDateBounded(r, rs[1..], DateKey(rs[0].date));
    }
  }

  /**
   * `sort_values('date')`: a permutation of the group in date order. Records
   * of one date keep their order (pandas does not promise which order).
   */
  function SortByDate(rs: seq<TxRecord>): (out: seq<TxRecord>)
    decreases |rs|
  {
    if rs == [] then [] else InsertByDate(rs[0], SortByDate(rs[1..]))
  }

  /** The sort yields a date-sorted sequence. */
  lemma {:induction false} SortByDateSorts(rs: seq<TxRecord>)
    ensures SortedByDate(SortByDate(rs))
    decreases |rs|
  {
    if rs != [] {
      SortByDateSorts(rs[1..]);
      InsertByDateSorted(rs[0], SortByDate(rs[1..]));
    }
  }

  /** The sort yields a permutation of its input. */
  lemma {:induction false} SortByDatePermutes(rs: seq<TxRecord>)
    ensures multiset(SortByDate(rs)) == multiset(rs) && |SortByDate(rs)| == |rs|
    decreases |rs|
  {
    if rs != [] {
      var sorted := SortByDate(rs[1..]);
      SortByDatePermutes(rs[1..]);
      InsertByDatePermutes(rs[0], sorted);
      assert rs == [rs[0]] + rs[1..];
      assert multiset(rs) == multiset{rs[0]} + multiset(rs[1..]);
    }
  }

  /** A group already in date order is left as it is. */
  lemma {:induction false} SortByDateOfSorted(rs: seq<TxRecord>)
    requires SortedByDate(rs)
    ensures SortByDate(rs) == rs
    decreases |rs|
  {
    if rs != [] {
      SortByDateOfSorted(rs[1..]);
      assert rs == [rs[0]] + rs[1..];
    }
  }

  /**
   * The feature row of one employee: the profile's attributes, the rolling
   * columns at the last row, and the whole-history aggregates and label of
   * the date-sorted group.
   */
  function BuildFeatures(p: Profile, group: seq<TxRecord>): FeatureRow
    requires |group| > 0
  {
    SortByDatePermutes(group);
    var g := SortByDate(group);
    MakeRow(p, g, EwaNext15(g))
  }

  /**
   * What a feature row's rolling means promise: each is the mean of the last
   * 3, 7 or 30 spends when the history is that long, and NaN otherwise.
   */
  lemma MakeRowRolling(p: Profile, g: seq<TxRecord>, target: int)
    requires |g| > 0
    ensures var f := MakeRow(p, g, target);
            var s := Column(g, SpendOf);
            var n := |g|;
            && f.employeeId == p.employeeId
            && f.spend3dAvg == (if n >= 3 then Some(Mean(s[n - 3..])) else None)
            && f.spend7dAvg == (if n >= 7 then Some(Mean(s[n - 7..])) else None)
            && f.spend30dAvg == (if n >= 30 then Some(Mean(s[n - 30..])) else None)
  {
    var spends := Column(g, SpendOf);
    RollingAtLast(spends, 3);
    RollingAtLast(spends, 7);
    RollingAtLast(spends, 30);
  }

  /**
   * What a feature row's velocity promises: the spend change over the last
   * seven steps divided by 7 when there are eight records, NaN otherwise.
   */
  lemma MakeRowVelocity(p: Profile, g: seq<TxRecord>, target: int)
    requires |g| > 0
    ensures var s := Column(g, SpendOf);
            var n := |g|;
            MakeRow(p, g, target).spendVelocity == if n >= 8 then Some((s[n - 1] - s[n - 8]) / 7.0) else None
  {
    VelocityAtLast(Column(g, SpendOf));
  }

  /**
   * What the flags derived from the last date promise: the payday distance is
   * in 0..7 and zero exactly on the days with `(day - 1) % 15 == 0`; the
   * month-end flag is 0 or 1, and 1 exactly on the last day of its month.
   */
  lemma MakeRowCalendar(p: Profile, g: seq<TxRecord>, target: int)
    requires |g| > 0
    ensures var f := MakeRow(p, g, target);
            var last := g[|g| - 1].date;
            && 0 <= f.daysToPayday <= 7
            && (f.daysToPayday == 0 <==> (last.day - 1) % 15 == 0)
            && (f.isMonthEnd == 0 || f.isMonthEnd == 1)
            && (f.isMonthEnd == 1 <==> IsMonthEnd(last))
  {
  }

  /**
   * What a feature row's aggregates promise: the category totals partition
   * the spend and the advance count is at most the number of records.
   */
  lemma MakeRowAggregates(p: Profile, g: seq<TxRecord>, target: int)
    requires |g| > 0
    ensures var f := MakeRow(p, g, target);
            && f.necessitySpend + f.discretionarySpend == TotalSpend(g)
            && f.ewaCount <= |g|
  {
    SpendPartition(g);
    EwaCountAtMostLength(g);
  }

  /**
   * What the row of one group promises: the rolling and aggregate facts
   * above, a label of 0 or 1, and a positive label only beside a positive
   * advance count.
   */
  lemma BuildFeaturesFacts(p: Profile, group: seq<TxRecord>)
    requires |group| > 0
    ensures var f := BuildFeatures(p, group);
            && f.employeeId == p.employeeId
            && (f.spend3dAvg.Some? <==> |group| >= 3)
            && (f.spend7dAvg.Some? <==> |group| >= 7)
            && (f.spend30dAvg.Some? <==> |group| >= 30)
            && (f.spendVelocity.Some? <==> |group| >= 8)
            && 0 <= f.daysToPayday <= 7
            && (f.isMonthEnd == 0 || f.isMonthEnd == 1)
            && f.necessitySpend + f.discretionarySpend == TotalSpend(SortByDate(group))
            && f.ewaCount <= |group|
            && (f.ewaNext15 == 0 || f.ewaNext15 == 1)
            && (f.ewaNext15 == 1 ==> f.ewaCount >= 1)
  {
    SortByDatePermutes(group);
    var g := SortByDate(group);
    MakeRowRolling(p, g, EwaNext15(g));
    MakeRowVelocity(p, g, EwaNext15(g));
    MakeRowCalendar(p, g, EwaNext15(g));
    MakeRowAggregates(p, g, EwaNext15(g));
    if EwaNext15(g) == 1 {
      LabelImpliesEwaCount(g);
    }
  }

  /** Fills the feature dict of lines 95-120 from a sorted, non-empty group. */
  function MakeRow(p: Profile, g: seq<TxRecord>, target: int): (f: FeatureRow)
    requires |g| > 0
    ensures f.ewaNext15 == target && f.ewaCount == EwaCount(g)
  {
    var n := |g|;
    var spends := Column(g, SpendOf);
    var last := g[n - 1];
    FeatureRow(
      p.employeeId, p.department, p.jobLevel, p.salaryMonthly, p.tenureDays,
      p.savingsBalance, p.otherLoans,
      Rolling(Present(spends), 3)[n - 1],
      Rolling(Present(spends), 7)[n - 1],
      Rolling(Present(spends), 30)[n - 1],
      Rolling(Diff(spends), 7)[n - 1],
      DaysToPayday(last.date.day),
      if IsMonthEnd(last.date) then 1 else 0,
      IncomeExpenseRatio(g),
      SampleVariance(spends),
      CategorySpend(g, Necessity),
      CategorySpend(g, Discretionary),
      BalanceTrend(g),
      EwaCount(g),
      EwaTotal(g),
      RepaymentRate(g),
      last.balance,
      target)
  }

  /** `transactions.groupby('employee_id')`: the records of one employee, in table order. */
  function GroupOf(txs: seq<TxRecord>, id: string): (g: seq<TxRecord>)
    decreases |txs|
  {
    if txs == [] then []
    else GroupOf(txs[..|txs| - 1], id) + (if txs[|txs| - 1].employeeId == id then [txs[|txs| - 1]] else [])
  }

  /** Profile identifiers in strictly increasing string order: `groupby`'s key order. */
  predicate IdsIncreasing(ps: seq<Profile>)
  {
    forall i, j :: 0 <= i < j < |ps| ==> LexLess(ps[i].employeeId, ps[j].employeeId)
  }

  /** The generated ids `E00000`, `E00001`, ... are in `groupby`'s key order. */
  lemma GeneratedIdsIncreasing(ps: seq<Profile>)
    requires |ps| <= 100000
    requires forall i :: 0 <= i < |ps| ==> ps[i].employeeId == FormatId(i)
    ensures IdsIncreasing(ps)
  {
    forall i, j | 0 <= i < j < |ps| ensures LexLess(ps[i].employeeId, ps[j].employeeId) {
      FormatIdOrdered(i, j);
    }
  }

  predicate HasProfile(ps: seq<Profile>, id: string)
  {
    exists i :: 0 <= i < |ps| && ps[i].employeeId == id
  }

  /**
   * `groupby`'s groups: each profile that has transactions, paired with its
   * group, in key order.
   */
  function Groups(ps: seq<Profile>, txs: seq<TxRecord>): (gs: seq<(Profile, seq<TxRecord>)>)
    ensures |gs| <= |ps|
    ensures forall i :: 0 <= i < |gs| ==> |gs[i].1| > 0 && gs[i].1 == GroupOf(txs, gs[i].0.employeeId)
    decreases |ps|
  {
    if ps == [] then []
    else
      var p := ps[|ps| - 1];
      var g := GroupOf(txs, p.employeeId);
      Groups(ps[..|ps| - 1], txs) + (if |g| > 0 then [(p, g)] else [])
  }

  /** Every group's key is one of the profiles. */
  lemma {:induction false} GroupKeysAreProfiles(ps: seq<Profile>, txs: seq<TxRecord>)
    ensures forall i :: 0 <= i < |Groups(ps, txs)| ==> Groups(ps, txs)[i].0 in ps
    decreases |ps|
  {
    if ps != [] {
      var n := |ps|;
      var init := ps[..n - 1];
      var before := Groups(init, txs);
      var gs := Groups(ps, txs);
      GroupKeysAreProfiles(init, txs);
      forall i | 0 <= i < |gs| ensures gs[i].0 in ps {
        if i < |before| {
          assert gs[i] == before[i];
          assert before[i].0 in init;
        }
      }
    }
  }

  /** Every profile with transactions has its group among the groups. */
  lemma {:induction false} GroupsComplete(ps: seq<Profile>, txs: seq<TxRecord>)
    ensures forall k :: 0 <= k < |ps| && |GroupOf(txs, ps[k].employeeId)| > 0 ==>
              (ps[k], GroupOf(txs, ps[k].employeeId)) in Groups(ps, txs)
    decreases |ps|
  {
    if ps != [] {
      var n := |ps|;
      var init := ps[..n - 1];
      var p := ps[n - 1];
      var g := GroupOf(txs, p.employeeId);
      var before := Groups(init, txs);
      var gs := Groups(ps, txs);
      GroupsComplete(init, txs);
      assert gs == before + (if |g| > 0 then [(p, g)] else []);
      forall k | 0 <= k < n && |GroupOf(txs, ps[k].employeeId)| > 0
        ensures (ps[k], GroupOf(txs, ps[k].employeeId)) in gs
      {
        if k < n - 1 {
          assert init[k] == ps[k];
        } else {
          assert gs[|gs| - 1] == (p, g);
        }
      }
    }
  }

  /**
   * With ids in increasing order the group keys increase too, so no employee
   * has two groups.
   */
  lemma GroupsInKeyOrder(ps: seq<Profile>, txs: seq<TxRecord>)
    requires IdsIncreasing(ps)
    ensures var gs := Groups(ps, txs);
            forall i, j :: 0 <= i < j < |gs| ==>
              LexLess(gs[i].0.employeeId, gs[j].0.employeeId) && gs[i].0.employeeId != gs[j].0.employeeId
  {
    var gs := Groups(ps, txs);
    GroupKeysIncrease(ps, txs);
    forall i, j | 0 <= i < j < |gs| ensures gs[i].0.employeeId != gs[j].0.employeeId {
      LexLessIrreflexive(gs[i].0.employeeId);
    }
  }

  /** The keys of the groups increase along the group list. */
  lemma {:induction false} GroupKeysIncrease(ps: seq<Profile>, txs: seq<TxRecord>)
    requires IdsIncreasing(ps)
    ensures forall i, j :: 0 <= i < j < |Groups(ps, txs)| ==>
              LexLess(Groups(ps, txs)[i].0.employeeId, Groups(ps, txs)[j].0.employeeId)
    decreases |ps|
  {
    if ps != [] {
      var n := |ps|;
      var init := ps[..n - 1];
      var p := ps[n - 1];
      var g := GroupOf(txs, p.employeeId);
      var before := Groups(init, txs);
      var gs := Groups(ps, txs);
      assert IdsIncreasing(init);
      GroupKeysIncrease(init, txs);
      GroupKeysAreProfiles(init, txs);
      assert gs == before + (if |g| > 0 then [(p, g)] else []);
      forall i, j | 0 <= i < j < |gs| ensures LexLess(gs[i].0.employeeId, gs[j].0.employeeId) {
        assert gs[i] == before[i];
        if j < |before| {
          assert gs[j] == before[j];
        } else {
          assert gs[j] == (p, g);
          assert before[i].0 in init;
          var k :| 0 <= k < |init| && init[k] == before[i].0;
          assert LexLess(ps[k].employeeId, ps[n - 1].employeeId);
        }
      }
    }
  }



  /** The rows of the feature table: one per group, built from that group. */
  predicate RowsOfGroups(rows: seq<FeatureRow>, gs: seq<(Profile, seq<TxRecord>)>)
  {
    && |rows| == |gs|
    && forall i :: 0 <= i < |gs| ==> |gs[i].1| > 0 && rows[i] == BuildFeatures(gs[i].0, gs[i].1)
  }

  /**
   * The feature loop. `groupby` visits the distinct identifiers of the
   * transactions in sorted order and looks each one up in the profile table
   * (raising when it is missing); with profile identifiers in increasing
   * order and every transaction's identifier present, that is a walk over the
   * profiles that skips those without transactions.
   */
  method BuildFeatureTable(employees: seq<Profile>, transactions: seq<TxRecord>) returns (features: seq<FeatureRow>)
    requires IdsIncreasing(employees)
    requires forall r :: r in transactions ==> HasProfile(employees, r.employeeId)
    ensures RowsOfGroups(features, Groups(employees, transactions))
  {
    features := [];
    var i := 0;
    while i < |employees|
      invariant 0 <= i <= |employees|
      invariant RowsOfGroups(features, Groups(employees[..i], transactions))
    {
      var row := employees[i];
      var group := GroupOf(transactions, row.employeeId);
      assert employees[..i + 1][..i] == employees[..i];
      if |group| > 0 {
        features := AppendRow(features, Groups(employees[..i], transactions), row, group);
      }
      i := i + 1;
    }
    assert employees[..i] == employees;
  }

  /** One step of the feature loop: the row of one more group. */
  method AppendRow(features: seq<FeatureRow>, gs: seq<(Profile, seq<TxRecord>)>, p: Profile, group: seq<TxRecord>)
    returns (more: seq<FeatureRow>)
    requires |group| > 0 && RowsOfGroups(features, gs)
    ensures RowsOfGroups(more, gs + [(p, group)])
  {
    more := features + [BuildFeatures(p, group)];
    assert (gs + [(p, group)])[|gs|] == (p, group);
  }

  lemma {:induction false} GroupOfConcat(a: seq<TxRecord>, b: seq<TxRecord>, id: string)
    ensures GroupOf(a + b, id) == GroupOf(a, id) + GroupOf(b, id)
    decreases |b|
  {
    if b == [] {
      assert a + b == a;
    } else {
      var b' := b[..|b| - 1];
      assert (a + b)[..|a + b| - 1] == a + b';
      GroupOfConcat(a, b', id);
    }
  }

  /** Grouping a sequence whose records all carry `id` gives it back; another id gives nothing. */
  lemma {:induction false} GroupOfUniform(rs: seq<TxRecord>, owner: string, id: string)
    requires forall i :: 0 <= i < |rs| ==> rs[i].employeeId == owner
    ensures GroupOf(rs, id) == if owner == id then rs else []
    decreases |rs|
  {
    if rs != [] {
      GroupOfUniform(rs[..|rs| - 1], owner, id);
      assert rs == rs[..|rs| - 1] + [rs[|rs| - 1]];
    }
  }

  lemma HistoryOwner(p: Profile, e: EmployeeDraws)
    ensures forall i :: 0 <= i < |History(p, e)| ==> History(p, e)[i].employeeId == p.employeeId
  {
    RunShape(p.employeeId, p.salaryMonthly, e.payday, OpeningBalance(p, e.balanceFactor), e.days);
  }

  /** Histories laid end to end. */
  function Flatten(hs: seq<seq<TxRecord>>): seq<TxRecord>
    decreases |hs|
  {
    if hs == [] then [] else Flatten(hs[..|hs| - 1]) + hs[|hs| - 1]
  }

  /** Each history carries its owner's identifier on every record. */
  predicate OwnedBy(hs: seq<seq<TxRecord>>, ids: seq<string>)
  {
    && |hs| == |ids|
    && forall i, j :: 0 <= i < |hs| && 0 <= j < |hs[i]| ==> hs[i][j].employeeId == ids[i]
  }

  /** Grouping the flattened histories by an identifier of no owner gives nothing. */
  lemma {:induction false} GroupOfFlattenStranger(hs: seq<seq<TxRecord>>, ids: seq<string>, id: string)
    requires OwnedBy(hs, ids) && id !in ids
    ensures GroupOf(Flatten(hs), id) == []
    decreases |hs|
  {
    if hs != [] {
      var n := |hs|;
      assert OwnedBy(hs[..n - 1], ids[..n - 1]);
      assert id !in ids[..n - 1];
      GroupOfFlattenStranger(hs[..n - 1], ids[..n - 1], id);
      GroupOfConcat(Flatten(hs[..n - 1]), hs[n - 1], id);
      GroupOfUniform(hs[n - 1], ids[n - 1], id);
    }
  }

  /** With distinct owners, grouping the flattened histories by owner `k` gives history `k` back. */
  lemma {:induction false} GroupOfFlatten(hs: seq<seq<TxRecord>>, ids: seq<string>, k: nat)
    requires OwnedBy(hs, ids) && k < |hs|
    requires forall i, j :: 0 <= i < j < |ids| ==> ids[i] != ids[j]
    ensures GroupOf(Flatten(hs), ids[k]) == hs[k]
    decreases |hs|
  {
    var n := |hs|;
    var id := ids[k];
    assert OwnedBy(hs[..n - 1], ids[..n - 1]);
    GroupOfConcat(Flatten(hs[..n - 1]), hs[n - 1], id);
    GroupOfUniform(hs[n - 1], ids[n - 1], id);
    if k == n - 1 {
      assert id !in ids[..n - 1];
      GroupOfFlattenStranger(hs[..n - 1], ids[..n - 1], id);
    } else {
      assert ids[..n - 1][k] == id;
      GroupOfFlatten(hs[..n - 1], ids[..n - 1], k);
    }
  }

  /** The simulated histories, one per employee, and the employees' identifiers. */
  function Histories(ps: seq<Profile>, es: seq<EmployeeDraws>): (hs: seq<seq<TxRecord>>)
    requires |ps| == |es|
  {
    seq(|ps|, i requires 0 <= i < |ps| => History(ps[i], es[i]))
  }

  function Ids(ps: seq<Profile>): seq<string>
  {
    seq(|ps|, i requires 0 <= i < |ps| => ps[i].employeeId)
  }

  lemma {:induction false} AllRecordsFlatten(ps: seq<Profile>, es: seq<EmployeeDraws>)
    requires |ps| == |es|
    ensures AllRecords(ps, es) == Flatten(Histories(ps, es))
    decreases |ps|
  {
    if ps != [] {
      var n := |ps|;
      var hs := Histories(ps, es);
      assert hs[..n - 1] == Histories(ps[..n - 1], es[..n - 1]);
      AllRecordsFlatten(ps[..n - 1], es[..n - 1]);
      assert Flatten(hs) == Flatten(hs[..n - 1]) + hs[n - 1];
    }
  }

  lemma SimulatedOwners(ps: seq<Profile>, es: seq<EmployeeDraws>)
    requires |ps| == |es|
    ensures AllRecords(ps, es) == Flatten(Histories(ps, es))
    ensures OwnedBy(Histories(ps, es), Ids(ps))
  {
    AllRecordsFlatten(ps, es);
    var hs: seq<seq<TxRecord>> := Histories(ps, es);
    forall i: int, j: int | 0 <= i < |hs| && 0 <= j < |hs[i]| ensures hs[i][j].employeeId == Ids(ps)[i] {
      HistoryOwner(ps[i], es[i]);
    }
  }

  /** In the simulated table, an identifier of no employee has an empty group. */
  lemma GroupOfStranger(ps: seq<Profile>, es: seq<EmployeeDraws>, id: string)
    requires |ps| == |es| && !HasProfile(ps, id)
    ensures GroupOf(AllRecords(ps, es), id) == []
  {
    SimulatedOwners(ps, es);
    assert id !in Ids(ps) by {
      forall j | 0 <= j < |ps| ensures Ids(ps)[j] != id {
      }
    }
    GroupOfFlattenStranger(Histories(ps, es), Ids(ps), id);
  }

  /**
   * In the simulated table, the group of employee `k` is exactly that
   * employee's simulated history (identifiers being distinct).
   */
  lemma GroupOfAllRecords(ps: seq<Profile>, es: seq<EmployeeDraws>, k: nat)
    requires |ps| == |es| && k < |ps|
    requires forall i, j :: 0 <= i < j < |ps| ==> ps[i].employeeId != ps[j].employeeId
    ensures GroupOf(AllRecords(ps, es), ps[k].employeeId) == History(ps[k], es[k])
  {
    SimulatedOwners(ps, es);
    GroupOfFlatten(Histories(ps, es), Ids(ps), k);
  }

  /** Every simulated record belongs to a profile. */
  lemma {:induction false} AllRecordsHaveProfiles(ps: seq<Profile>, es: seq<EmployeeDraws>)
    requires |ps| == |es|
    ensures forall r :: r in AllRecords(ps, es) ==> HasProfile(ps, r.employeeId)
    decreases |ps|
  {
    if ps != [] {
      var n := |ps|;
      AllRecordsHaveProfiles(ps[..n - 1], es[..n - 1]);
      HistoryOwner(ps[n - 1], es[n - 1]);
      forall r | r in AllRecords(ps, es) ensures HasProfile(ps, r.employeeId) {
        if r in AllRecords(ps[..n - 1], es[..n - 1]) {
          var k :| 0 <= k < n - 1 && ps[..n - 1][k].employeeId == r.employeeId;
          assert ps[k].employeeId == r.employeeId;
        } else {
          var h := History(ps[n - 1], es[n - 1]);
          var k :| 0 <= k < |h| && h[k] == r;
          assert ps[n - 1].employeeId == r.employeeId;
        }
      }
    }
  }

  /** A simulated history is already in date order, so sorting leaves it unchanged. */
  lemma HistorySorted(p: Profile, e: EmployeeDraws)
    ensures SortedByDate(History(p, e))
    ensures SortByDate(History(p, e)) == History(p, e)
  {
    var h := History(p, e);
    RunShape(p.employeeId, p.salaryMonthly, e.payday, OpeningBalance(p, e.balanceFactor), e.days);
    forall i, j | 0 <= i < j < |h| ensures DateKey(h[i].date) <= DateKey(h[j].date) {
      DateKeyOrder(h[i].date, h[j].date);
    }
    SortByDateOfSorted(h);
  }

  /**
   * When every profile's group is a given non-empty sequence, `groupby`
   * yields exactly those groups, one per profile, in profile order.
   */
  lemma {:induction false} GroupsOfKnownGroups(ps: seq<Profile>, txs: seq<TxRecord>, hs: seq<seq<TxRecord>>, k: nat)
    requires |hs| == |ps| && k <= |ps|
    requires forall i :: 0 <= i < |ps| ==> |hs[i]| > 0 && GroupOf(txs, ps[i].employeeId) == hs[i]
    ensures var gs := Groups(ps[..k], txs);
            && |gs| == k
            && forall i :: 0 <= i < k ==> gs[i] == (ps[i], hs[i])
    decreases k
  {
    if k > 0 {
      assert ps[..k][..k - 1] == ps[..k - 1];
      GroupsOfKnownGroups(ps, txs, hs, k - 1);
    }
  }

  /**
   * Over the simulated transactions there is one group per employee, in
   * profile order, and it is that employee's own history in the order it
   * was simulated.
   */
  lemma GroupsOfSimulation(ps: seq<Profile>, es: seq<EmployeeDraws>)
    requires |ps| == |es|
    requires forall j :: 0 <= j < |es| ==> |es[j].days| == DAYS
    requires forall i, j :: 0 <= i < j < |ps| ==> ps[i].employeeId != ps[j].employeeId
    ensures var gs := Groups(ps, AllRecords(ps, es));
            && |gs| == |ps|
            && forall i :: 0 <= i < |ps| ==> gs[i] == (ps[i], History(ps[i], es[i]))
  {
    var txs := AllRecords(ps, es);
    var hs: seq<seq<TxRecord>> := Histories(ps, es);
    forall i | 0 <= i < |ps| ensures |hs[i]| > 0 && GroupOf(txs, ps[i].employeeId) == hs[i] {
      GroupOfAllRecords(ps, es, i);
    }
    GroupsOfKnownGroups(ps, txs, hs, |ps|);
    assert ps[..|ps|] == ps;
  }

  /**
   * The feature table of the simulated transactions: one row per employee,
   * in profile order, built from that employee's history as simulated (the
   * date sort leaves it unchanged).
   */
  lemma FeatureTableOfSimulation(ps: seq<Profile>, es: seq<EmployeeDraws>, rows: seq<FeatureRow>)
    requires |ps| == |es|
    requires forall j :: 0 <= j < |es| ==> |es[j].days| == DAYS
    requires forall i, j :: 0 <= i < j < |ps| ==> ps[i].employeeId != ps[j].employeeId
    requires RowsOfGroups(rows, Groups(ps, AllRecords(ps, es)))
    ensures |rows| == |ps|
    ensures forall i :: 0 <= i < |ps| ==>
              var h := History(ps[i], es[i]);
              rows[i] == MakeRow(ps[i], h, EwaNext15(h))
  {
    GroupsOfSimulation(ps, es);
    forall i | 0 <= i < |ps|
      ensures var h := History(ps[i], es[i]); rows[i] == MakeRow(ps[i], h, EwaNext15(h))
    {
      HistorySorted(ps[i], es[i]);
    }
  }
}
