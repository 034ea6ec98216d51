/**
 * The daily transaction simulation of data/synthetic_data.py (lines 24-62).
 * Every random draw of the original is a parameter: the opening-balance
 * factor and the payday per employee, and per day the raw spend, the
 * category, whether an advance is taken and its amount.
 */
module Simulation {
  import opened Calendar
  import opened Reductions
  import opened Employees

  datatype Category = Necessity | Discretionary

  /** One row of the `transactions` table: one employee on one day. */
  datatype TxRecord = TxRecord(
    employeeId: string,
    date: Day,
    deposit: real,
    spend: real,
    category: Category,
    balance: real,
    ewaUsed: bool,
    ewaAmount: real,
    repayment: real)

  /** The draws consumed by one simulated day. */
  datatype DayDraw = DayDraw(rawSpend: real, category: Category, ewaUsed: bool, ewaDraw: real)

  /** The draws consumed by one employee: opening factor, payday, and one entry per day. */
  datatype EmployeeDraws = EmployeeDraws(balanceFactor: real, payday: int, days: seq<DayDraw>)

  /** Number of simulated days per employee. */
  const DAYS: nat := 90

  /** Bounds of the uniform draw of an advance's amount. */
  const EWA_MIN: real := 100.0
  const EWA_MAX: real := 500.0

  /** `savings_balance + salary * uniform(0.5, 1.5)`, with the uniform draw given. */
  function OpeningBalance(p: Profile, factor: real): real
  {
    p.savingsBalance + p.salaryMonthly * factor
  }

  /** A draw sequence the generator can produce: advance amounts within [100, 500]. */
  predicate DrawsInRange(days: seq<DayDraw>)
  {
    forall i :: 0 <= i < |days| ==> EWA_MIN <= days[i].ewaDraw <= EWA_MAX
  }

  /**
   * The record written for one day, given the balance it starts from: spend
   * is clamped at zero, the half salary arrives on the payday, an advance is
   * credited, and on the payday an advance of that same day is repaid.
   */
  function DayRecord(empId: string, salary: real, payday: int, balance: real, date: Day, d: DayDraw): TxRecord
  {
    var deposit := if date.day == payday then salary / 2.0 else 0.0;
    var spend := if d.rawSpend > 0.0 then d.rawSpend else 0.0;
    var ewaAmount := if d.ewaUsed then d.ewaDraw else 0.0;
    var repayment := if date.day == payday && d.ewaUsed then ewaAmount else 0.0;
    TxRecord(empId, date, deposit, spend, d.category, balance + deposit - spend + ewaAmount - repayment,
             d.ewaUsed, ewaAmount, repayment)
  }

  /**
   * The day's bookkeeping: spend is `max(0, draw)`; the deposit is half the
   * salary on the payday and 0 otherwise; with a draw of at least 100 the
   * advance is 0 exactly when none is taken; an advance is the day's draw; a
   * repayment happens only on the payday, for that day's advance, and on the
   * payday that day's advance is always repaid in full; and the balance moves
   * by deposit - spend + advance - repayment.
   */
  lemma DayRecordFacts(empId: string, salary: real, payday: int, balance: real, date: Day, d: DayDraw)
    ensures var r := DayRecord(empId, salary, payday, balance, date, d);
            && r.employeeId == empId && r.date == date
            && r.category == d.category && r.ewaUsed == d.ewaUsed
            && r.spend >= 0.0 && r.spend >= d.rawSpend && (r.spend == d.rawSpend || r.spend == 0.0)
            && r.deposit == (if date.day == payday then salary / 2.0 else 0.0)
            && (EWA_MIN <= d.ewaDraw ==> (r.ewaAmount == 0.0 <==> !r.ewaUsed))
            && r.ewaAmount == (if d.ewaUsed then d.ewaDraw else 0.0)
            && (r.repayment != 0.0 ==> date.day == payday && r.ewaUsed && r.repayment == r.ewaAmount)
            && (date.day == payday && d.ewaUsed ==> r.repayment == r.ewaAmount)
            && r.balance == balance + r.deposit - r.spend + r.ewaAmount - r.repayment
  {
  }

  /** The balance after a run of records (the opening balance before any). */
  function ClosingBalance(opening: real, rs: seq<TxRecord>): real
  {
    if rs == [] then opening else rs[|rs| - 1].balance
  }

  /** The records of the first `|days|` simulated days of one employee. */
  function Run(empId: string, salary: real, payday: int, opening: real, days: seq<DayDraw>): (rs: seq<TxRecord>)
    ensures |rs| == |days|
    decreases |days|
  {
    if days == [] then []
    else
      var prev := Run(empId, salary, payday, opening, days[..|days| - 1]);
      prev + [DayRecord(empId, salary, payday, ClosingBalance(opening, prev),
                        AddDays(START, |days| - 1), days[|days| - 1])]
  }

  /** The simulated history of one employee. */
  function History(p: Profile, e: EmployeeDraws): (rs: seq<TxRecord>)
    ensures |rs| == |e.days|
  {
    Run(p.employeeId, p.salaryMonthly, e.payday, OpeningBalance(p, e.balanceFactor), e.days)
  }

  /** The whole `records` list: every employee's history, employee after employee. */
  function AllRecords(ps: seq<Profile>, es: seq<EmployeeDraws>): (rs: seq<TxRecord>)
    requires |ps| == |es|
    decreases |ps|
  {
    if ps == [] then []
    else AllRecords(ps[..|ps| - 1], es[..|es| - 1]) + History(ps[|ps| - 1], es[|es| - 1])
  }

  /** The dates on which an advance was taken (the unused `prev_ewa_dates` list). */
  function EwaDates(rs: seq<TxRecord>): seq<Date>
    decreases |rs|
  {
    if rs == [] then []
    else EwaDates(rs[..|rs| - 1]) + (if rs[|rs| - 1].ewaUsed then [rs[|rs| - 1].date] else [])
  }

  /**
   * The simulation's outer loop: for each employee in turn, simulate the
   * employee's days and append the records to `records`.
   */
  method SimulateTransactions(employees: seq<Profile>, draws: seq<EmployeeDraws>) returns (records: seq<TxRecord>)
    requires |draws| == |employees|
    requires forall j :: 0 <= j < |draws| ==> |draws[j].days| == DAYS
    ensures records == AllRecords(employees, draws)
  {
    records := [];
    var i := 0;
    while i < |employees|
      invariant 0 <= i <= |employees|
      invariant records == AllRecords(employees[..i], draws[..i])
    {
      var history, _ := SimulateEmployee(employees[i], draws[i]);
      records := records + history;
      assert employees[..i + 1][..i] == employees[..i] && draws[..i + 1][..i] == draws[..i];
      i := i + 1;
    }
    assert employees[..i] == employees && draws[..i] == draws;
  }

  /**
   * The simulation's inner loop for one employee: for each of the DAYS days,
   * simulate the day, note the date of an advance and append the record.
   */
  method SimulateEmployee(row: Profile, e: EmployeeDraws) returns (history: seq<TxRecord>, prevEwaDates: seq<Date>)
    requires |e.days| == DAYS
    ensures history == History(row, e)
    ensures prevEwaDates == EwaDates(history)
  {
    var empId := row.employeeId;
    var salary := row.salaryMonthly;
    var balance := row.savingsBalance + salary * e.balanceFactor;
    var payday := e.payday;
    ghost var opening := OpeningBalance(row, e.balanceFactor);
    prevEwaDates := [];
    history := [];
    var day := 0;
    while day < DAYS
      invariant 0 <= day <= DAYS
      invariant history == Run(empId, salary, payday, opening, e.days[..day])
      invariant balance == ClosingBalance(opening, history)
      invariant prevEwaDates == EwaDates(history)
    {
      ghost var before := history;
      var date := AddDays(START, day);
      var rec;
      rec, balance := SimulateDay(empId, salary, payday, balance, date, e.days[day]);
      if rec.ewaUsed {
        prevEwaDates := prevEwaDates + [date];
      }
      history := history + [rec];
      RunSnoc(empId, salary, payday, opening, e.days, day);
      EwaDatesSnoc(before, rec);
      day := day + 1;
    }
    assert e.days[..DAYS] == e.days;
  }

  /**
   * The body of the inner loop: the day's figures, with `balance` updated in
   * place three times (after spending, after the advance, after repayment).
   */
  method SimulateDay(empId: string, salary: real, payday: int, balance0: real, date: Day, d: DayDraw)
    returns (rec: TxRecord, balance: real)
    ensures rec == DayRecord(empId, salary, payday, balance0, date, d)
    ensures balance == rec.balance
  {
    balance := balance0;
    var deposit := if date.day == payday then salary / 2.0 else 0.0;
    var spend := d.rawSpend;
    spend := if spend > 0.0 then spend else 0.0;
    var category := d.category;
    balance := balance + deposit - spend;
    var ewaUsed := d.ewaUsed;
    var ewaAmount := if ewaUsed then d.ewaDraw else 0.0;
    balance := balance + ewaAmount;
    var repayment := if date.day == payday && ewaUsed then ewaAmount else 0.0;
    balance := balance - repayment;
    rec := TxRecord(empId, date, deposit, spend, category, balance, ewaUsed, ewaAmount, repayment);
  }

  lemma EwaDatesSnoc(rs: seq<TxRecord>, r: TxRecord)
    ensures EwaDates(rs + [r]) == EwaDates(rs) + (if r.ewaUsed then [r.date] else [])
  {
    assert (rs + [r])[..|rs|] == rs;
  }

  /** Extending the draws by one day appends that day's record. */
  lemma RunSnoc(empId: string, salary: real, payday: int, opening: real, days: seq<DayDraw>, k: nat)
    requires k < |days|
    ensures var prev := Run(empId, salary, payday, opening, days[..k]);
            Run(empId, salary, payday, opening, days[..k + 1]) ==
              prev + [DayRecord(empId, salary, payday, ClosingBalance(opening, prev), AddDays(START, k), days[k])]
  {
    assert days[..k + 1][..k] == days[..k];
  }

  /** A run's prefix is the run of the prefix of the draws. */
  lemma {:induction false} RunPrefix(empId: string, salary: real, payday: int, opening: real, days: seq<DayDraw>, k: nat)
    requires k <= |days|
    ensures Run(empId, salary, payday, opening, days[..k]) == Run(empId, salary, payday, opening, days)[..k]
    decreases |days|
  {
    if k < |days| {
      var days' := days[..|days| - 1];
      assert days'[..k] == days[..k];
      RunPrefix(empId, salary, payday, opening, days', k);
    } else {
      assert days[..k] == days;
    }
  }

  /** The balance a day starts from: the opening balance, or the previous day's. */
  function BalanceBefore(opening: real, rs: seq<TxRecord>, i: nat): real
    requires i <= |rs|
  {
    if i == 0 then opening else rs[i - 1].balance
  }

  /** Day `i` of a run is that day's step from the balance left by day `i - 1`. */
  lemma RunEntry(empId: string, salary: real, payday: int, opening: real, days: seq<DayDraw>, i: nat)
    requires i < |days|
    ensures var rs := Run(empId, salary, payday, opening, days);
            rs[i] == DayRecord(empId, salary, payday, BalanceBefore(opening, rs, i), AddDays(START, i), days[i])
  {
    var rs := Run(empId, salary, payday, opening, days);
    RunPrefix(empId, salary, payday, opening, days, i + 1);
    RunPrefix(empId, salary, payday, opening, days, i);
    var pre := days[..i + 1];
    assert pre[..|pre| - 1] == days[..i];
    assert rs[..i + 1][i] == rs[i];
  }

  /** A record satisfies the bookkeeping invariants of the transaction log. */
  predicate WellFormed(r: TxRecord)
  {
    && r.deposit >= 0.0 && r.spend >= 0.0 && r.ewaAmount >= 0.0 && r.repayment >= 0.0
    && (r.ewaAmount == 0.0 <==> !r.ewaUsed)
    && (r.ewaUsed ==> EWA_MIN <= r.ewaAmount <= EWA_MAX)
    && (r.repayment == 0.0 || r.repayment == r.ewaAmount)
  }

  /** Dates strictly increase along the sequence. */
  predicate DatesIncreasing(rs: seq<TxRecord>)
  {
    forall i, j :: 0 <= i < j < |rs| ==> Before(rs[i].date, rs[j].date)
  }

  /**
   * A simulated history has one record per draw, all for the one employee, on
   * the consecutive dates from 2025-06-01, hence in strictly increasing date
   * order; every record is well formed when the salary is non-negative and the
   * advance draws lie in [100, 500].
   */
  lemma RunShape(empId: string, salary: real, payday: int, opening: real, days: seq<DayDraw>)
    ensures var rs := Run(empId, salary, payday, opening, days);
            && (forall i :: 0 <= i < |rs| ==> rs[i].employeeId == empId && rs[i].date == AddDays(START, i))
            && DatesIncreasing(rs)
            && (salary >= 0.0 && DrawsInRange(days) ==> forall i :: 0 <= i < |rs| ==> WellFormed(rs[i]))
  {
    var rs := Run(empId, salary, payday, opening, days);
    forall i | 0 <= i < |rs|
      ensures rs[i].employeeId == empId && rs[i].date == AddDays(START, i)
      ensures salary >= 0.0 && DrawsInRange(days) ==> WellFormed(rs[i])
    {
      RunEntry(empId, salary, payday, opening, days, i);
    }
    forall i, j | 0 <= i < j < |rs|
      ensures Before(rs[i].date, rs[j].date)
    {
      AddDaysStrictlyIncreasing(START, i, j);
    }
  }

  function DepositOf(r: TxRecord): real { r.deposit }
  function SpendOf(r: TxRecord): real { r.spend }
  function BalanceOf(r: TxRecord): real { r.balance }
  function EwaAmountOf(r: TxRecord): real { r.ewaAmount }
  function RepaymentOf(r: TxRecord): real { r.repayment }

  /** One numeric column of a table of records, `group[name]`. */
  function Column(rs: seq<TxRecord>, f: TxRecord -> real): (c: seq<real>)
    ensures |c| == |rs|
    ensures forall i :: 0 <= i < |rs| ==> c[i] == f(rs[i])
  {
    seq(|rs|, i requires 0 <= i < |rs| => f(rs[i]))
  }

  lemma SumColumnAppend(rs: seq<TxRecord>, r: TxRecord, f: TxRecord -> real)
    ensures Sum(Column(rs + [r], f)) == Sum(Column(rs, f)) + f(r)
  {
    assert Column(rs + [r], f)[..|rs|] == Column(rs, f);
  }

  /**
   * Conservation of money: the closing balance is the opening balance plus all
   * deposits and advances, minus all spending and repayments.
   */
  lemma {:induction false} RunBalanceConserved(empId: string, salary: real, payday: int, opening: real, days: seq<DayDraw>)
    ensures var rs := Run(empId, salary, payday, opening, days);
            ClosingBalance(opening, rs) ==
              opening + Sum(Column(rs, DepositOf)) - Sum(Column(rs, SpendOf))
                      + Sum(Column(rs, EwaAmountOf)) - Sum(Column(rs, RepaymentOf))
    decreases |days|
  {
    if days != [] {
      var prev := Run(empId, salary, payday, opening, days[..|days| - 1]);
      var rs := Run(empId, salary, payday, opening, days);
      var r := rs[|rs| - 1];
      assert rs == prev + [r];
      RunBalanceConserved(empId, salary, payday, opening, days[..|days| - 1]);
      SumColumnAppend(prev, r, DepositOf);
      SumColumnAppend(prev, r, SpendOf);
      SumColumnAppend(prev, r, EwaAmountOf);
      SumColumnAppend(prev, r, RepaymentOf);
    }
  }
}
