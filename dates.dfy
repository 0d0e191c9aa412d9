/** Calendar dates as Go's `time` package handles them in the core: parsing and
    formatting with the layout "2006-01-02", stepping one day forward
    (`AddDate(0, 0, 1)`) and comparing (`Before`, `After`). Times of day and
    time zones play no part: every date is midnight UTC. */
module Dates {
  import opened Wrappers

  datatype Date = Date(year: nat, month: nat, day: nat)

  predicate IsLeapYear(y: nat)
  {
    y % 4 == 0 && (y % 100 != 0 || y % 400 == 0)
  }

  function DaysInMonth(y: nat, m: nat): nat
    requires 1 <= m <= 12
  {
    if m == 2 then (if IsLeapYear(y) then 29 else 28)
    else if m == 4 || m == 6 || m == 9 || m == 11 then 30
    else 31
  }

  /** A real calendar day of the proleptic Gregorian calendar. */
  predicate Valid(d: Date)
  {
    1 <= d.month <= 12 && 1 <= d.day <= DaysInMonth(d.year, d.month)
  }

  function YearLength(y: nat): nat
  {
    if IsLeapYear(y) then 366 else 365
  }

  function DaysBeforeYear(y: nat): nat
  {
    if y == 0 then 0 else DaysBeforeYear(y - 1) + YearLength(y - 1)
  }

  /** Days in year `y` before the first of month `m` (13 stands for the end of the year). */
  function DaysBeforeMonth(y: nat, m: nat): nat
    requires 1 <= m <= 13
  {
    [0, 31, 59, 90, 120, 151, 181, 212, 243, 273, 304, 334, 365][m - 1]
      + (if m > 2 && IsLeapYear(y) then 1 else 0)
  }

  /** Days elapsed since 0000-01-01: the instant Go's `time.Time` would hold. */
  function DayNumber(d: Date): nat
    requires Valid(d)
  {
    DaysBeforeYear(d.year) + DaysBeforeMonth(d.year, d.month) + d.day - 1
  }

  /** Go's `t.AddDate(0, 0, 1)` on a valid date. */
  function NextDay(d: Date): (r: Date)
    requires Valid(d)
    ensures Valid(r)
  {
    if d.day < DaysInMonth(d.year, d.month) then Date(d.year, d.month, d.day + 1)
    else if d.month < 12 then Date(d.year, d.month + 1, 1)
    else Date(d.year + 1, 1, 1)
  }

  /** The day after `d` is one day later. */
  lemma NextDayNumber(d: Date)
    requires Valid(d)
    ensures DayNumber(NextDay(d)) == DayNumber(d) + 1
  {
    var y, m := d.year, d.month;
    if d.day < DaysInMonth(y, m) {
      assert NextDay(d) == Date(y, m, d.day + 1);
    } else if m < 12 {
      assert NextDay(d) == Date(y, m + 1, 1);
      DaysBeforeMonthGrows(y, m);
    } else {
      assert NextDay(d) == Date(y + 1, 1, 1);
      assert DaysBeforeYear(y + 1) == DaysBeforeYear(y) + YearLength(y);
    }
  }

  /** Go's `a.Before(b)` on midnight-UTC times: lexicographic order of the fields. */
  predicate Before(a: Date, b: Date)
  {
    a.year < b.year ||
    (a.year == b.year && (a.month < b.month || (a.month == b.month && a.day < b.day)))
  }

  lemma DaysBeforeMonthGrows(y: nat, m: nat)
    requires 1 <= m <= 12
    ensures DaysBeforeMonth(y, m + 1) == DaysBeforeMonth(y, m) + DaysInMonth(y, m)
  {
  }

  lemma {:induction false} DaysBeforeMonthMonotone(y: nat, m1: nat, m2: nat)
    requires 1 <= m1 <= m2 <= 13
    ensures DaysBeforeMonth(y, m1) <= DaysBeforeMonth(y, m2)
    decreases m2 - m1
  {
    if m1 < m2 {
      DaysBeforeMonthGrows(y, m1);
      DaysBeforeMonthMonotone(y, m1 + 1, m2);
    }
  }

  lemma {:induction false} DaysBeforeYearMonotone(y1: nat, y2: nat)
    requires y1 < y2
    ensures DaysBeforeYear(y1) + YearLength(y1) <= DaysBeforeYear(y2)
    decreases y2 - y1
  {
    if y1 + 1 < y2 {
      DaysBeforeYearMonotone(y1 + 1, y2);
    }
  }

  /** The day number of a date lies within its own year. */
  lemma DayWithinYear(d: Date)
    requires Valid(d)
    ensures DaysBeforeYear(d.year) <= DayNumber(d) < DaysBeforeYear(d.year) + YearLength(d.year)
  {
    DaysBeforeMonthGrows(d.year, d.month);
    DaysBeforeMonthMonotone(d.year, d.month + 1, 13);
  }

  /** Comparing fields agrees with comparing instants. */
  lemma BeforeIsEarlier(a: Date, b: Date)
    requires Valid(a) && Valid(b)
    ensures Before(a, b) <==> DayNumber(a) < DayNumber(b)
  {
    DayWithinYear(a);
    DayWithinYear(b);
    if a.year < b.year {
      DaysBeforeYearMonotone(a.year, b.year);
    } else if b.year < a.year {
      DaysBeforeYearMonotone(b.year, a.year);
    } else if a.month < b.month {
      DaysBeforeMonthGrows(a.year, a.month);
      DaysBeforeMonthMonotone(a.year, a.month + 1, b.month);
    } else if b.month < a.month {
      DaysBeforeMonthGrows(a.year, b.month);
      DaysBeforeMonthMonotone(a.year, b.month + 1, a.month);
    }
  }

  /** Two valid dates with the same instant are the same date. */
  lemma DayNumberInjective(a: Date, b: Date)
    requires Valid(a) && Valid(b)
    requires DayNumber(a) == DayNumber(b)
    ensures a == b
  {
    BeforeIsEarlier(a, b);
    BeforeIsEarlier(b, a);
  }

  // ---------------------------------------------------------------------------
  // The layout "2006-01-02"

  predicate IsDigit(c: char)
  {
    '0' <= c <= '9'
  }

  predicate AllDigits(s: string)
  {
    forall i :: 0 <= i < |s| ==> IsDigit(s[i])
  }

  function DigitChar(k: nat): (c: char)
    requires k < 10
    ensures IsDigit(c)
  {
    (48 + k) as char
  }

  /** The number a string of decimal digits denotes. */
  function DigitsValue(s: string): nat
    requires AllDigits(s)
  {
    if s == [] then 0
    else DigitsValue(s[..|s| - 1]) * 10 + (s[|s| - 1] as int - 48)
  }

  function Pow10(n: nat): nat
  {
    if n == 0 then 1 else 10 * Pow10(n - 1)
  }

  /** Go's `appendInt(b, n, width)`: the decimal digits of `n`, zero-padded on the
      left to at least `width` characters. */
  function Padded(n: nat, width: nat): (r: string)
    ensures AllDigits(r)
    ensures n < Pow10(width) && width > 0 ==> |r| == width
    decreases n, width
  {
    if n < 10 && width <= 1 then [DigitChar(n)]
    else Padded(n / 10, if width == 0 then 0 else width - 1) + [DigitChar(n % 10)]
  }

  /** Go's `time.Parse("2006-01-02", s)`: four year digits, two month digits and
      two day digits separated by '-', nothing more, and a real calendar day. */
  function Parse(s: string): (r: Option<Date>)
    ensures r.Some? ==> Valid(r.value) && r.value.year < 10000
  {
    if |s| == 10 && AllDigits(s[0..4]) && s[4] == '-' && AllDigits(s[5..7])
       && s[7] == '-' && AllDigits(s[8..10]) then
      var d := Date(DigitsValue(s[0..4]), DigitsValue(s[5..7]), DigitsValue(s[8..10]));
      assert d.year < 10000 by { DigitsValueBound(s[0..4]); }
      if Valid(d) then Some(d) else None
    else None
  }

  /** Go's `t.Format("2006-01-02")`. */
  function Format(d: Date): string
  {
    Padded(d.year, 4) + "-" + Padded(d.month, 2) + "-" + Padded(d.day, 2)
  }

  lemma {:induction false} DigitsValueBound(s: string)
    requires AllDigits(s)
    ensures DigitsValue(s) < Pow10(|s|)
    decreases |s|
  {
    if s != [] {
      DigitsValueBound(s[..|s| - 1]);
    }
  }

  lemma {:induction false} PaddedValue(n: nat, width: nat)
    ensures DigitsValue(Padded(n, width)) == n
    decreases n, width
  {
    var r := Padded(n, width);
    if !(n < 10 && width <= 1) {
      var w' := if width == 0 then 0 else width - 1;
      PaddedValue(n / 10, w');
      assert r[..|r| - 1] == Padded(n / 10, w');
    }
  }

  /** Reading back a string of digits and padding its value to the same width
      reproduces the string. */
  lemma {:induction false} PaddedDigits(s: string)
    requires AllDigits(s) && s != []
    ensures Padded(DigitsValue(s), |s|) == s
    decreases |s|
  {
    var v := DigitsValue(s);
    var init := s[..|s| - 1];
    if |s| == 1 {
      assert init == [];
      assert v == s[0] as int - 48;
      assert Padded(v, 1) == [DigitChar(v)];
    } else {
      DigitsValueBound(init);
      PaddedDigits(init);
      assert v / 10 == DigitsValue(init);
      assert v % 10 == s[|s| - 1] as int - 48;
      assert s == init + [s[|s| - 1]];
    }
  }

  /** Formatting a parsable date and parsing it back gives the date. */
  lemma ParseFormat(d: Date)
    requires Valid(d) && d.year < 10000
    ensures Parse(Format(d)) == Some(d)
  {
    var y, m, dd := Padded(d.year, 4), Padded(d.month, 2), Padded(d.day, 2);
    var s := Format(d);
    assert |y| == 4 && |m| == 2 && |dd| == 2;
    assert s[0..4] == y && s[5..7] == m && s[8..10] == dd;
    PaddedValue(d.year, 4);
    PaddedValue(d.month, 2);
    PaddedValue(d.day, 2);
  }

  /** Every string Parse accepts is already in the canonical form Format writes. */
  lemma FormatParse(s: string)
    requires Parse(s).Some?
    ensures Format(Parse(s).value) == s
  {
    PaddedDigits(s[0..4]);
    PaddedDigits(s[5..7]);
    PaddedDigits(s[8..10]);
    assert s == s[0..4] + "-" + s[5..7] + "-" + s[8..10];
  }
}
