/**
 * The static employee profile and the identifier format `f'E{i:05d}'` of
 * data/synthetic_data.py.
 */
module Employees {
  import opened Wrappers

  /** One row of the generated `employees` table. */
  datatype Profile = Profile(
    employeeId: string,
    department: string,
    jobLevel: string,
    salaryMonthly: real,
    tenureDays: int,
    savingsBalance: real,
    otherLoans: int)

  predicate IsDigit(c: char)
  {
    '0' <= c <= '9'
  }

  predicate AllDigits(s: string)
  {
    forall i :: 0 <= i < |s| ==> IsDigit(s[i])
  }

  function DigitChar(d: nat): (c: char)
    requires d < 10
    ensures IsDigit(c)
  {
    (('0' as int) + d) as char
  }

  function DigitValue(c: char): (d: nat)
    requires IsDigit(c)
    ensures d < 10 && DigitChar(d) == c
  {
    (c as int) - ('0' as int)
  }

  /** Decimal digits of `n`, most significant first, no leading zeros. */
  function Digits(n: nat): (s: string)
    ensures |s| > 0 && AllDigits(s)
  {
    if n < 10 then [DigitChar(n)] else Digits(n / 10) + [DigitChar(n % 10)]
  }

  /** The number a string of decimal digits denotes (leading zeros allowed). */
  function ValueOf(s: string): nat
    requires AllDigits(s)
    decreases |s|
  {
    if s == [] then 0 else ValueOf(s[..|s| - 1]) * 10 + DigitValue(s[|s| - 1])
  }

  /** Format spec `05d`: left-pad with zeros up to width `w`. */
  function ZeroPad(s: string, w: nat): (p: string)
    requires AllDigits(s)
    ensures AllDigits(p)
    ensures |p| == if |s| >= w then |s| else w
  {
    if |s| >= w then s else seq(w - |s|, _ => '0') + s
  }

  /** `f'E{i:05d}'`. */
  function FormatId(i: nat): string
  {
    ['E'] + ZeroPad(Digits(i), 5)
  }

  /** Reads an identifier back: `E` followed by decimal digits. */
  function ParseId(s: string): Option<nat>
  {
    if |s| >= 2 && s[0] == 'E' && AllDigits(s[1..]) then Some(ValueOf(s[1..])) else None
  }

  lemma {:induction false} ValueOfDigits(n: nat)
    ensures ValueOf(Digits(n)) == n
  {
    if n >= 10 {
      var s := Digits(n);
      assert s[..|s| - 1] == Digits(n / 10);
      ValueOfDigits(n / 10);
    }
  }

  lemma {:induction false} ValueOfZeros(k: nat)
    ensures AllDigits(seq(k, _ => '0'))
    ensures ValueOf(seq(k, _ => '0')) == 0
  {
    if k > 0 {
      assert seq(k, _ => '0')[..k - 1] == seq(k - 1, _ => '0');
      ValueOfZeros(k - 1);
    }
  }

  /** Leading zeros do not change the value. */
  lemma {:induction false} ValueOfLeadingZeros(k: nat, s: string)
    requires AllDigits(s)
    ensures AllDigits(seq(k, _ => '0') + s)
    ensures ValueOf(seq(k, _ => '0') + s) == ValueOf(s)
    decreases |s|
  {
    var z := seq(k, _ => '0');
    ValueOfZeros(k);
    if s == [] {
      assert z + s == z;
    } else {
      var s' := s[..|s| - 1];
      assert (z + s)[..|z + s| - 1] == z + s';
      ValueOfLeadingZeros(k, s');
    }
  }

  /** Parsing inverts formatting; hence distinct indices give distinct identifiers. */
  lemma ParseFormatId(i: nat)
    ensures ParseId(FormatId(i)) == Some(i)
  {
    var d := Digits(i);
    var p := ZeroPad(d, 5);
    assert FormatId(i)[1..] == p;
    ValueOfDigits(i);
    if |d| < 5 {
      ValueOfLeadingZeros(5 - |d|, d);
    }
  }

  lemma FormatIdInjective(i: nat, j: nat)
    requires FormatId(i) == FormatId(j)
    ensures i == j
  {
    ParseFormatId(i);
    ParseFormatId(j);
  }

  lemma {:induction false} DigitsLength(n: nat)
    requires n < 100000
    ensures |Digits(n)| <= 5
  {
    if n >= 10 {
      DigitsLengthBelow(n / 10, 4);
    }
  }

  lemma {:induction false} DigitsLengthBelow(n: nat, k: nat)
    requires n < Pow10(k)
    ensures |Digits(n)| <= if k == 0 then 1 else k
    decreases k
  {
    if n >= 10 {
      assert k >= 2;
      DigitsLengthBelow(n / 10, k - 1);
    }
  }

  function Pow10(k: nat): (p: nat)
    ensures p >= 1
  {
    if k == 0 then 1 else 10 * Pow10(k - 1)
  }

  /** Every identifier of the generated population is six characters long. */
  lemma FormatIdLength(i: nat)
    requires i < 100000
    ensures |FormatId(i)| == 6
  {
    DigitsLength(i);
  }

  /** Python's string order: a proper prefix, or a smaller first differing character. */
  predicate LexLess(a: string, b: string)
  {
    (|a| < |b| && a == b[..|a|])
    || exists k :: 0 <= k < |a| && k < |b| && a[..k] == b[..k] && a[k] < b[k]
  }

  /** No id is below itself. */
  lemma LexLessIrreflexive(a: string)
    ensures !LexLess(a, a)
  {
  }

  lemma DigitCharMonotone(x: char, y: char)
    requires IsDigit(x) && IsDigit(y) && DigitValue(x) < DigitValue(y)
    ensures x < y
  {
  }

  /** Two digit strings of one length with the same value are the same string. */
  lemma {:induction false} ValueOfInjective(a: string, b: string)
    requires AllDigits(a) && AllDigits(b) && |a| == |b|
    requires ValueOf(a) == ValueOf(b)
    ensures a == b
    decreases |a|
  {
    if a != [] {
      var a', b' := a[..|a| - 1], b[..|b| - 1];
      var x, y := DigitValue(a[|a| - 1]), DigitValue(b[|b| - 1]);
      assert ValueOf(a') * 10 + x == ValueOf(b') * 10 + y;
      assert ValueOf(a') == ValueOf(b');
      ValueOfInjective(a', b');
      assert a == a' + [a[|a| - 1]] && b == b' + [b[|b| - 1]];
    }
  }

  /** For digit strings of one length, string order is numeric order. */
  lemma {:induction false} LexLessOfValue(a: string, b: string)
    requires AllDigits(a) && AllDigits(b) && |a| == |b|
    requires ValueOf(a) < ValueOf(b)
    ensures LexLess(a, b)
    decreases |a|
  {
    var a', b' := a[..|a| - 1], b[..|b| - 1];
    var x, y := DigitValue(a[|a| - 1]), DigitValue(b[|b| - 1]);
    assert ValueOf(a) == ValueOf(a') * 10 + x && ValueOf(b) == ValueOf(b') * 10 + y;
    if ValueOf(a') < ValueOf(b') {
      LexLessOfValue(a', b');
      var k :| 0 <= k < |a'| && k < |b'| && a'[..k] == b'[..k] && a'[k] < b'[k];
      assert a[..k] == a'[..k] && b[..k] == b'[..k];
      assert a[k] == a'[k] && b[k] == b'[k];
    } else if ValueOf(a') == ValueOf(b') {
      ValueOfInjective(a', b');
      DigitCharMonotone(a[|a| - 1], b[|b| - 1]);
      var k := |a'|;
      assert a[..k] == a' && b[..k] == b';
    } else {
      assert false;
    }
  }

  /** Below 100000 the padded digits are exactly five and denote the index. */
  lemma PaddedDigits(i: nat)
    requires i < 100000
    ensures |ZeroPad(Digits(i), 5)| == 5
    ensures ValueOf(ZeroPad(Digits(i), 5)) == i
  {
    var d := Digits(i);
    DigitsLength(i);
    ValueOfDigits(i);
    if |d| < 5 {
      ValueOfLeadingZeros(5 - |d|, d);
    }
  }

  /**
   * Below 100000, identifiers sort as their indices do, so pandas' `groupby`
   * on `employee_id` (sorted keys) visits employees in generation order.
   */
  lemma FormatIdOrdered(i: nat, j: nat)
    requires i < j < 100000
    ensures LexLess(FormatId(i), FormatId(j))
  {
    var pi, pj := ZeroPad(Digits(i), 5), ZeroPad(Digits(j), 5);
    PaddedDigits(i);
    PaddedDigits(j);
    LexLessOfValue(pi, pj);
    var k :| 0 <= k < |pi| && k < |pj| && pi[..k] == pj[..k] && pi[k] < pj[k];
    var a, b := FormatId(i), FormatId(j);
    assert a[..k + 1] == ['E'] + pi[..k] && b[..k + 1] == ['E'] + pj[..k];
    assert a[k + 1] == pi[k] && b[k + 1] == pj[k];
  }
}
