/**
 * Calendar dates as pandas' `Timestamp` holds them for the simulated period:
 * Gregorian month lengths, `Timestamp('2025-06-01') + timedelta(days=k)` and
 * `dt.is_month_end`.
 */
module Calendar {

  datatype Date = Date(year: int, month: int, day: int)

  predicate IsLeapYear(y: int)
  {
    (y % 4 == 0 && y % 100 != 0) || y % 400 == 0
  }

  function DaysInMonth(y: int, m: int): (n: int)
    requires 1 <= m <= 12
    ensures 28 <= n <= 31
  {
    if m == 2 then (if IsLeapYear(y) then 29 else 28)
    else if m == 4 || m == 6 || m == 9 || m == 11 then 30
    else 31
  }

  /** A date that exists on the Gregorian calendar. */
  predicate ValidDate(d: Date)
  {
    1 <= d.month <= 12 && 1 <= d.day <= DaysInMonth(d.year, d.month)
  }

  /** A date as a `Timestamp` holds it: always a real calendar day. */
  type Day = d: Date | ValidDate(d) witness Date(2025, 6, 1)

  /** Chronological order of dates (year, then month, then day). */
  predicate Before(a: Date, b: Date)
  {
    a.year < b.year
    || (a.year == b.year && a.month < b.month)
    || (a.year == b.year && a.month == b.month && a.day < b.day)
  }

  /** `dt.is_month_end`: the last calendar day of its month. */
  predicate IsMonthEnd(d: Date)
    requires ValidDate(d)
  {
    d.day == DaysInMonth(d.year, d.month)
  }

  /** The following calendar day; a month end is exactly a day followed by a 1st. */
  function NextDay(d: Date): (e: Date)
    requires ValidDate(d)
    ensures ValidDate(e) && Before(d, e)
    ensures e.day == 1 <==> IsMonthEnd(d)
  {
    if d.day < DaysInMonth(d.year, d.month) then Date(d.year, d.month, d.day + 1)
    else if d.month < 12 then Date(d.year, d.month + 1, 1)
    else Date(d.year + 1, 1, 1)
  }

  /** `d + timedelta(days=k)`. */
  function AddDays(d: Date, k: nat): (e: Date)
    requires ValidDate(d)
    ensures ValidDate(e)
    decreases k
  {
    if k == 0 then d else AddDays(NextDay(d), k - 1)
  }

  /** First simulated date, `Timestamp('2025-06-01')`. */
  const START: Date := Date(2025, 6, 1)

  lemma {:induction false} AddDaysAdditive(d: Date, a: nat, b: nat)
    requires ValidDate(d)
    ensures AddDays(d, a + b) == AddDays(AddDays(d, a), b)
    decreases a
  {
    if a > 0 {
      AddDaysAdditive(NextDay(d), a - 1, b);
    }
  }

  lemma BeforeTransitive(a: Date, b: Date, c: Date)
    requires Before(a, b) && Before(b, c)
    ensures Before(a, c)
  {
  }

  lemma {:induction false} AddDaysAdvances(d: Date, k: nat)
    requires ValidDate(d) && k > 0
    ensures Before(d, AddDays(d, k))
    decreases k
  {
    if k > 1 {
      AddDaysAdvances(NextDay(d), k - 1);
      BeforeTransitive(d, NextDay(d), AddDays(d, k));
    }
  }

  /** Later offsets give strictly later dates: the simulated days are in date order. */
  lemma AddDaysStrictlyIncreasing(d: Date, i: nat, j: nat)
    requires ValidDate(d) && i < j
    ensures Before(AddDays(d, i), AddDays(d, j))
  {
    AddDaysAdditive(d, i, j - i);
    AddDaysAdvances(AddDays(d, i), j - i);
  }

  /** Inside one month, adding days only moves the day of the month. */
  lemma {:induction false} AddDaysWithinMonth(d: Date, k: nat)
    requires ValidDate(d) && d.day + k <= DaysInMonth(d.year, d.month)
    ensures AddDays(d, k) == Date(d.year, d.month, d.day + k)
    decreases k
  {
    if k > 0 {
      AddDaysWithinMonth(NextDay(d), k - 1);
    }
  }

  /** June 2025 from its first day: offset `k` is June `1 + k`. */
  lemma JuneDays(k: nat)
    requires k < 30
    ensures AddDays(START, k) == Date(2025, 6, 1 + k)
  {
    AddDaysWithinMonth(START, k);
  }

  /** Offsets 30 to 60 fall in July 2025. */
  lemma JulyDays(k: nat)
    requires 30 <= k < 61
    ensures AddDays(START, k) == Date(2025, 7, k - 29)
  {
    var j: nat := k - 30;
    var i: nat := k - j - 1;
    JuneDays(i);
    AddDaysAdditive(START, i, j + 1);
    assert NextDay(Date(2025, 6, 30)) == Date(2025, 7, 1);
    AddDaysWithinMonth(Date(2025, 7, 1), j);
  }

  /** Offsets 61 to 91 fall in August 2025. */
  lemma AugustDays(k: nat)
    requires 61 <= k < 92
    ensures AddDays(START, k) == Date(2025, 8, k - 60)
  {
    var j: nat := k - 61;
    var i: nat := k - j - 1;
    JulyDays(i);
    AddDaysAdditive(START, i, j + 1);
    assert NextDay(Date(2025, 7, 31)) == Date(2025, 8, 1);
    AddDaysWithinMonth(Date(2025, 8, 1), j);
  }

  /**
   * The 90 simulated days run from 2025-06-01 to 2025-08-29, and exactly two
   * of them are month ends: 2025-06-30 (offset 29) and 2025-07-31 (offset 60).
   */
  lemma SimulatedPeriod(k: nat)
    requires k < 90
    ensures AddDays(START, k) == if k < 30 then Date(2025, 6, 1 + k)
                                 else if k < 61 then Date(2025, 7, k - 29)
                                 else Date(2025, 8, k - 60)
    ensures IsMonthEnd(AddDays(START, k)) <==> k == 29 || k == 60
  {
    if k < 30 {
      JuneDays(k);
    } else if k < 61 {
      JulyDays(k);
    } else {
      AugustDays(k);
    }
  }
}
