/** Calendar dates and the `YYYY-MM-DD` text the expense table stores them as. */
module Dates {

  /** A calendar date as the date picker hands it over (no time component). */
  datatype Date = Date(year: int, month: int, day: int)

  predicate IsLeapYear(year: int) {
    year % 4 == 0 && (year % 100 != 0 || year % 400 == 0)
  }

  function DaysInMonth(year: int, month: int): int
    requires 1 <= month <= 12
  {
    if month == 2 then (if IsLeapYear(year) then 29 else 28)
    else if month == 4 || month == 6 || month == 9 || month == 11 then 30
    else 31
  }

  /** The dates a date object can hold: years 1 through 9999, real days of real months. */
  predicate ValidDate(d: Date) {
    && 1 <= d.year <= 9999
    && 1 <= d.month <= 12
    && 1 <= d.day <= DaysInMonth(d.year, d.month)
  }

  predicate IsDigit(c: char) {
    '0' <= c <= '9'
  }

  predicate AllDigits(s: string) {
    forall i :: 0 <= i < |s| ==> IsDigit(s[i])
  }

  function Pow10(n: nat): nat {
    if n == 0 then 1 else 10 * Pow10(n - 1)
  }

  /** `n` in decimal, left-padded with zeros to exactly `width` digits (the %Y, %m and %d fields). */
  function Padded(n: nat, width: nat): (s: string)
    requires n < Pow10(width)
    ensures |s| == width && AllDigits(s)
  {
    if width == 0 then "" else Padded(n / 10, width - 1) + [('0' as int + n % 10) as char]
  }

  /** The number a string of decimal digits denotes. */
  function DigitsValue(s: string): nat
    requires AllDigits(s)
  {
    if s == [] then 0 else 10 * DigitsValue(s[..|s| - 1]) + (s[|s| - 1] as int - '0' as int)
  }

  lemma {:induction false} PaddedRoundTrip(n: nat, width: nat)
    requires n < Pow10(width)
    ensures DigitsValue(Padded(n, width)) == n
  {
    if width > 0 {
      var s := Padded(n, width);
      assert s[..|s| - 1] == Padded(n / 10, width - 1);
      PaddedRoundTrip(n / 10, width - 1);
    }
  }

  /** The shape of the text in the table's Date column: four digits, '-', two digits, '-', two digits. */
  predicate IsIsoDateText(s: string) {
    && |s| == 10
    && s[4] == '-' && s[7] == '-'
    && AllDigits(s[..4]) && AllDigits(s[5..7]) && AllDigits(s[8..])
  }

  /** strftime("%Y-%m-%d") of a date: the text insert_expense stores. */
  function FormatDate(d: Date): (s: string)
    requires ValidDate(d)
    ensures IsIsoDateText(s)
    ensures s[..4] == Padded(d.year, 4) && s[5..7] == Padded(d.month, 2) && s[8..] == Padded(d.day, 2)
  {
    assert Pow10(2) == 100 && Pow10(4) == 10000;
    var s := Padded(d.year, 4) + "-" + Padded(d.month, 2) + "-" + Padded(d.day, 2);
    assert s[..4] == Padded(d.year, 4);
    assert s[5..7] == Padded(d.month, 2);
    assert s[8..] == Padded(d.day, 2);
    s
  }

  /** A run of digits denotes a number below ten to the power of its length. */
  lemma {:induction false} DigitsValueBound(s: string)
    requires AllDigits(s)
    ensures DigitsValue(s) < Pow10(|s|)
  {
    if s != [] {
      DigitsValueBound(s[..|s| - 1]);
    }
  }

  /**
   * Reads a date text back with the "%Y-%m-%d" layout. The program itself never does this:
   * the converter it registers is keyed on a DATE column and the Date column is TEXT. Here it
   * shows that the stored text loses nothing.
   */
  function ParseDate(s: string): (d: Date)
    requires IsIsoDateText(s)
    ensures 0 <= d.year < 10000 && 0 <= d.month < 100 && 0 <= d.day < 100
  {
    DigitsValueBound(s[..4]);
    DigitsValueBound(s[5..7]);
    DigitsValueBound(s[8..]);
    assert Pow10(2) == 100 && Pow10(4) == 10000;
    Date(DigitsValue(s[..4]), DigitsValue(s[5..7]), DigitsValue(s[8..]))
  }

  /** A text that insert_expense can have stored: the formatted text of a real calendar date. */
  ghost predicate IsStoredDate(s: string) {
    exists d :: ValidDate(d) && FormatDate(d) == s
  }

  /** The stored text loses nothing: reading it back gives the date that was stored. */
  lemma FormatDateRoundTrip(d: Date)
    requires ValidDate(d)
    ensures ParseDate(FormatDate(d)) == d
  {
    assert Pow10(2) == 100 && Pow10(4) == 10000;
    PaddedRoundTrip(d.year, 4);
    PaddedRoundTrip(d.month, 2);
    PaddedRoundTrip(d.day, 2);
  }

  /** Distinct dates are stored as distinct texts. */
  lemma FormatDateInjective(d1: Date, d2: Date)
    requires ValidDate(d1) && ValidDate(d2)
    ensures FormatDate(d1) == FormatDate(d2) <==> d1 == d2
  {
    FormatDateRoundTrip(d1);
    FormatDateRoundTrip(d2);
  }

  /**
   * SQLite's strftime('%Y-%m', s) on a stored date text: its year-month prefix. This agrees
   * with SQLite on the texts FormatDate produces, which are the only ones the table holds.
   */
  function MonthKey(s: string): (k: string)
    ensures IsIsoDateText(s) ==> |k| == 7 && k[..4] == s[..4] && k[4] == '-' && k[5..] == s[5..7]
  {
    if |s| >= 7 then s[..7] else s
  }

  /** The month group of a stored date is its zero-padded year, a dash, and its zero-padded month. */
  lemma MonthKeyOfFormat(d: Date)
    requires ValidDate(d)
    ensures MonthKey(FormatDate(d)) == Padded(d.year, 4) + "-" + Padded(d.month, 2)
  {
  }

  /** Two stored dates fall in the same month group exactly when their years and months agree. */
  lemma MonthKeyOfDate(d1: Date, d2: Date)
    requires ValidDate(d1) && ValidDate(d2)
    ensures MonthKey(FormatDate(d1)) == MonthKey(FormatDate(d2))
            <==> d1.year == d2.year && d1.month == d2.month
  {
    var s1, s2 := FormatDate(d1), FormatDate(d2);
    assert Pow10(2) == 100 && Pow10(4) == 10000;
    PaddedRoundTrip(d1.year, 4);
    PaddedRoundTrip(d1.month, 2);
    PaddedRoundTrip(d2.year, 4);
    PaddedRoundTrip(d2.month, 2);
    assert MonthKey(s1)[..4] == s1[..4] && MonthKey(s1)[5..7] == s1[5..7];
    assert MonthKey(s2)[..4] == s2[..4] && MonthKey(s2)[5..7] == s2[5..7];
    if d1.year == d2.year && d1.month == d2.month {
      assert MonthKey(s1) == s1[..4] + "-" + s1[5..7];
      assert MonthKey(s2) == s2[..4] + "-" + s2[5..7];
    }
  }
}
