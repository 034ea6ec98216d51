/**
 * The scoring service of app.py: the `Employee` request schema, the one-row
 * frame handed to the classifier, the three risk tiers and the response of
 * `POST /predict`. The fitted pipeline is a parameter: any total function
 * from a row to a probability.
 */
module Service {
  import opened Wrappers

  /** The request body: the twelve fields of the `Employee` model, in declaration order. */
  datatype Employee = Employee(
    employeeId: string,
    salaryMonthly: real,
    tenureDays: int,
    numWithdrawalsLast30d: int,
    numWithdrawalsLast90d: int,
    avgWithdrawAmount: real,
    avgWithdrawPctOfSalary: real,
    lastWithdrawDaysAgo: int,
    savingsBalance: real,
    otherLoans: int,
    department: string,
    jobLevel: string)

  /** The field names of `Employee`, in declaration order (the keys of `emp.dict()`). */
  const EMPLOYEE_FIELDS: seq<string> := [
    "employee_id", "salary_monthly", "tenure_days", "num_withdrawals_last_30d",
    "num_withdrawals_last_90d", "avg_withdraw_amount", "avg_withdraw_pct_of_salary",
    "last_withdraw_days_ago", "savings_balance", "other_loans", "department", "job_level"]

  /** A cell of the frame: a `str`, a `float` or an `int` field value. */
  datatype Value = Text(text: string) | Number(number: real) | Integer(integer: int)

  /** A one-row frame: its column names and, under them, its cells. */
  datatype Row = Row(columns: seq<string>, cells: seq<Value>)

  /** `pd.DataFrame([emp.dict()])`: every field, under its own name, in declaration order. */
  function RowOf(emp: Employee): (row: Row)
    ensures row.columns == EMPLOYEE_FIELDS && |row.cells| == |EMPLOYEE_FIELDS|
  {
    Row(EMPLOYEE_FIELDS,
        [Text(emp.employeeId), Number(emp.salaryMonthly), Integer(emp.tenureDays),
         Integer(emp.numWithdrawalsLast30d), Integer(emp.numWithdrawalsLast90d),
         Number(emp.avgWithdrawAmount), Number(emp.avgWithdrawPctOfSalary),
         Integer(emp.lastWithdrawDaysAgo), Number(emp.savingsBalance), Integer(emp.otherLoans),
         Text(emp.department), Text(emp.jobLevel)])
  }

  /** A `str` field accepts only text. */
  function TextField(v: Value): Option<string>
  {
    if v.Text? then Some(v.text) else None
  }

  /** A `float` field accepts a number, and an integer as the same number. */
  function NumberField(v: Value): Option<real>
  {
    match v
    case Number(r) => Some(r)
    case Integer(i) => Some(i as real)
    case Text(_) => None
  }

  /** An `int` field accepts only an integer. */
  function IntegerField(v: Value): Option<int>
  {
    if v.Integer? then Some(v.integer) else None
  }

  /**
   * Reading a request back from a frame, as the schema validates a body:
   * `None` unless the columns are the schema's fields and every cell has the
   * kind its field declares.
   */
  function EmployeeOfRow(row: Row): Option<Employee>
  {
    if row.columns != EMPLOYEE_FIELDS || |row.cells| != |EMPLOYEE_FIELDS| then None
    else
      var c := row.cells;
      var id, salary, tenure := TextField(c[0]), NumberField(c[1]), IntegerField(c[2]);
      var w30, w90 := IntegerField(c[3]), IntegerField(c[4]);
      var avgAmount, avgPct := NumberField(c[5]), NumberField(c[6]);
      var lastAgo, savings, loans := IntegerField(c[7]), NumberField(c[8]), IntegerField(c[9]);
      var dept, level := TextField(c[10]), TextField(c[11]);
      if id.Some? && salary.Some? && tenure.Some? && w30.Some? && w90.Some? && avgAmount.Some?
         && avgPct.Some? && lastAgo.Some? && savings.Some? && loans.Some? && dept.Some? && level.Some?
      then Some(Employee(id.value, salary.value, tenure.value, w30.value, w90.value, avgAmount.value,
                         avgPct.value, lastAgo.value, savings.value, loans.value, dept.value, level.value))
      else None
  }

  /** The frame carries the whole request: reading it back gives the same employee. */
  lemma RowOfRoundTrip(emp: Employee)
    ensures EmployeeOfRow(RowOf(emp)) == Some(emp)
  {
  }

  /** Distinct requests give distinct frames: the classifier sees every field. */
  lemma RowOfInjective(a: Employee, b: Employee)
    requires RowOf(a) == RowOf(b)
    ensures a == b
  {
    RowOfRoundTrip(a);
    RowOfRoundTrip(b);
  }

  datatype RiskLabel = Low | Medium | High

  /** The string `risk_label` of the response. */
  function LabelName(l: RiskLabel): string
  {
    match l
    case Low => "low"
    case Medium => "medium"
    case High => "high"
  }

  /** Tier order: low < medium < high. */
  function Rank(l: RiskLabel): nat
  {
    match l
    case Low => 0
    case Medium => 1
    case High => 2
  }

  /** `"high" if prob >= 0.6 else ("medium" if prob >= 0.3 else "low")`. */
  function Tier(p: real): RiskLabel
  {
    if p >= 0.6 then High else if p >= 0.3 then Medium else Low
  }

  /** Each cut point is inclusive at its lower bound: the three tiers are [0.6, ∞), [0.3, 0.6) and (-∞, 0.3). */
  lemma TierBands(p: real)
    ensures Tier(p) == High <==> p >= 0.6
    ensures Tier(p) == Medium <==> 0.3 <= p < 0.6
    ensures Tier(p) == Low <==> p < 0.3
  {
  }

  lemma TierExamples()
    ensures Tier(0.29) == Low && Tier(0.30) == Medium && Tier(0.59) == Medium && Tier(0.60) == High
  {
  }

  /** A higher score never gets a lower tier. */
  lemma TierMonotone(p: real, q: real)
    requires p <= q
    ensures Rank(Tier(p)) <= Rank(Tier(q))
  {
  }

  /** The label names are distinct, so a response's label names exactly one tier. */
  lemma LabelNameInjective(a: RiskLabel, b: RiskLabel)
    requires LabelName(a) == LabelName(b)
    ensures a == b
  {
    assert LabelName(a)[0] == LabelName(b)[0];
  }

  /** The JSON object returned by `predict`. */
  datatype Response = Response(employeeId: string, riskScore: real, riskLabel: string)

  /**
   * `predict`: build the one-row frame, take the classifier's probability of
   * class 1, and answer with the id, the score unchanged and its tier. There
   * is no rejection path: every request reaches the classifier.
   */
  function Predict(emp: Employee, classifier: Row -> real): (r: Response)
    ensures r.employeeId == emp.employeeId
    ensures r.riskScore == classifier(RowOf(emp))
    ensures r.riskLabel == "high" || r.riskLabel == "medium" || r.riskLabel == "low"
    ensures r.riskLabel == "high" <==> r.riskScore >= 0.6
    ensures r.riskLabel == "medium" <==> 0.3 <= r.riskScore < 0.6
    ensures r.riskLabel == "low" <==> r.riskScore < 0.3
  {
    var prob := classifier(RowOf(emp));
    TierBands(prob);
    Response(emp.employeeId, prob, LabelName(Tier(prob)))
  }

  /** A classifier that returns probabilities yields a score in [0, 1]. */
  lemma PredictScoreInRange(emp: Employee, classifier: Row -> real)
    requires forall row :: 0.0 <= classifier(row) <= 1.0
    ensures 0.0 <= Predict(emp, classifier).riskScore <= 1.0
  {
    assert 0.0 <= classifier(RowOf(emp)) <= 1.0;
  }

  /** Two classifiers that agree on the request's frame give the same response. */
  lemma PredictDependsOnRowOnly(emp: Employee, c1: Row -> real, c2: Row -> real)
    requires c1(RowOf(emp)) == c2(RowOf(emp))
    ensures Predict(emp, c1) == Predict(emp, c2)
  {
  }
}
