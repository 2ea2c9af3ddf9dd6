/**
 * Calendar arithmetic on Python day ordinals: `date.weekday()`, the
 * Gregorian year/month/day of an ordinal, and the `strftime` patterns the
 * notification texts use (`%d/%m/%Y` and `%H:%M`).
 */
module Calendar {
  import opened Common
  import opened Text

  /** Python's `date.weekday()`: Monday is 0 and Sunday is 6; 0001-01-01 was a Monday. */
  function Weekday(d: Date): (r: int)
    ensures 0 <= r < 7
  {
    (d + 6) % 7
  }

  /** Day 1 is a Monday, and the weekday advances by one each day, wrapping after Sunday. */
  lemma WeekdayProgression(d: Date)
    ensures Weekday(1) == 0
    ensures Weekday(d + 1) == (Weekday(d) + 1) % 7
    ensures Weekday(d + 7) == Weekday(d)
  {
  }

  datatype Civil = Civil(year: int, month: int, day: int)

  /** Cumulative days before each month of a common year, indexed 1 to 12. */
  const DaysBeforeMonth: seq<int> := [-1, 0, 31, 59, 90, 120, 151, 181, 212, 243, 273, 304, 334]

  /** Days in each month of a common year, indexed 1 to 12. */
  const DaysInMonth: seq<int> := [-1, 31, 28, 31, 30, 31, 30, 31, 31, 30, 31, 30, 31]

  /**
   * The proleptic Gregorian date of a day ordinal, computed the way Python's
   * `date.fromordinal` does it: peel off 400-, 100-, 4- and 1-year cycles,
   * then estimate the month and correct the estimate by one.
   */
  function ToCivil(d: Date): (c: Civil)
    ensures 1 <= c.month <= 12 && 1 <= c.day <= 31
  {
    var n0 := d - 1;
    var n400, r400 := n0 / 146097, n0 % 146097;
    var n100, r100 := r400 / 36524, r400 % 36524;
    var n4, r4 := r100 / 1461, r100 % 1461;
    var n1, n := r4 / 365, r4 % 365;
    FromCycles(n400, n100, n4, n1, n)
  }

  /**
   * The date `n400` 400-year cycles, `n100` centuries, `n4` 4-year cycles,
   * `n1` years and `n` days after 0001-01-01. A count of 4 centuries or of
   * 4 years lands on the last day of the cycle before.
   */
  function FromCycles(n400: int, n100: int, n4: int, n1: int, n: int): (c: Civil)
    requires 0 <= n100 <= 4 && 0 <= n4 <= 24 && 0 <= n1 <= 4 && 0 <= n < 365
    ensures 1 <= c.month <= 12 && 1 <= c.day <= 31
  {
    var year := n400 * 400 + 1 + n100 * 100 + n4 * 4 + n1;
    if n1 == 4 || n100 == 4 then Civil(year - 1, 12, 31)
    else
      var leap := n1 == 3 && (n4 != 24 || n100 == 3);
      var month := (n + 50) / 32;
      assert 1 <= month <= 12;
      var preceding := DaysBeforeMonth[month] + (if month > 2 && leap then 1 else 0);
      if preceding > n then
        var m := month - 1;
        var p := preceding - (DaysInMonth[m] + (if m == 2 && leap then 1 else 0));
        Civil(year, m, n - p + 1)
      else
        Civil(year, month, n - preceding + 1)
  }

  /** Reference date: Python's `date(2000, 2, 29).toordinal()` is 730179 (a leap day). */
  lemma ToCivilLeapDay()
    ensures ToCivil(730179) == Civil(2000, 2, 29)
  {
    // 4 whole 400-year cycles, 3 centuries, 24 four-year cycles and 3 years precede it.
    assert 730178 / 146097 == 4 && 730178 % 146097 == 145790;
    assert 145790 / 36524 == 3 && 145790 % 36524 == 36218;
    assert 36218 / 1461 == 24 && 36218 % 1461 == 1154;
    assert 1154 / 365 == 3 && 1154 % 365 == 59;
    assert ToCivil(730179) == FromCycles(4, 3, 24, 3, 59);
  }

  /** The Gregorian leap-year rule. */
  predicate IsLeap(y: int) {
    y % 4 == 0 && (y % 100 != 0 || y % 400 == 0)
  }

  /** The number of days in month `m` of year `y`. */
  function DaysIn(y: int, m: int): (r: int)
    requires 1 <= m <= 12
    ensures 28 <= r <= 31
  {
    DaysInMonth[m] + (if m == 2 && IsLeap(y) then 1 else 0)
  }

  /** The days in the years before year `y`, counted the way `date.toordinal()` counts them. */
  function DaysBeforeYear(y: int): int {
    var p := y - 1;
    365 * p + p / 4 - p / 100 + p / 400
  }

  /**
   * Python's `date.toordinal()`: the days before the year, the days before
   * the month in that year, and the day of the month.
   */
  function ToOrdinal(c: Civil): int
    requires 1 <= c.month <= 12
  {
    DaysBeforeYear(c.year) + DaysBeforeMonth[c.month] + (if c.month > 2 && IsLeap(c.year) then 1 else 0) + c.day
  }

  /**
   * `ToCivil` inverts `ToOrdinal`: every day ordinal names a real calendar
   * date (its day lies within its month) whose ordinal is that day.
   */
  lemma ToCivilRoundTrip(d: Date)
    ensures var c := ToCivil(d); 1 <= c.day <= DaysIn(c.year, c.month) && ToOrdinal(c) == d
  {
    var n0 := d - 1;
    var r400 := n0 % 146097;
    var r100 := r400 % 36524;
    var r4 := r100 % 1461;
    CycleCounts(d);
    FromCyclesRoundTrip(n0 / 146097, r400 / 36524, r100 / 1461, r4 / 365, r4 % 365);
  }

  /** The cycle counts `ToCivil` peels off add back up to the day, and stay within their ranges. */
  lemma CycleCounts(d: Date)
    ensures var n0 := d - 1;
      var n400, r400 := n0 / 146097, n0 % 146097;
      var n100, r100 := r400 / 36524, r400 % 36524;
      var n4, r4 := r100 / 1461, r100 % 1461;
      var n1, n := r4 / 365, r4 % 365;
      && d == n400 * 146097 + n100 * 36524 + n4 * 1461 + n1 * 365 + n + 1
      && 0 <= n100 <= 4 && 0 <= n4 <= 24 && 0 <= n1 <= 4 && 0 <= n < 365
      && (n100 == 4 ==> n4 == 0 && n1 == 0 && n == 0)
      && (n4 == 24 ==> n1 <= 3)
      && (n1 == 4 ==> n == 0)
  {
  }

  /**
   * The date `FromCycles` names has its day within its month, and its
   * ordinal is the day the cycle counts add up to.
   */
  lemma FromCyclesRoundTrip(n400: int, n100: int, n4: int, n1: int, n: int)
    requires 0 <= n100 <= 4 && 0 <= n4 <= 24 && 0 <= n1 <= 4 && 0 <= n < 365
    requires n100 == 4 ==> n4 == 0 && n1 == 0 && n == 0
    requires n4 == 24 ==> n1 <= 3
    requires n1 == 4 ==> n == 0
    ensures var c := FromCycles(n400, n100, n4, n1, n);
      1 <= c.day <= DaysIn(c.year, c.month) && ToOrdinal(c) == n400 * 146097 + n100 * 36524 + n4 * 1461 + n1 * 365 + n + 1
  {
    if n1 == 4 || n100 == 4 {
      CycleEnd(n400, n100, n4, n1);
    } else {
      InYear(n400, n100, n4, n1, n);
    }
  }

  /** A count of 4 centuries or 4 years lands on 31 December of the leap year before. */
  lemma CycleEnd(n400: int, n100: int, n4: int, n1: int)
    requires 0 <= n100 <= 4 && 0 <= n4 <= 24 && 0 <= n1 <= 4
    requires n100 == 4 ==> n4 == 0 && n1 == 0
    requires n4 == 24 ==> n1 <= 3
    requires n1 == 4 || n100 == 4
    ensures var c := FromCycles(n400, n100, n4, n1, 0);
      c.month == 12 && c.day == 31 && IsLeap(c.year)
      && ToOrdinal(c) == n400 * 146097 + n100 * 36524 + n4 * 1461 + n1 * 365 + 1
  {
    if n100 == 4 {
      YearStart(n400, 3, 24, 3);
    } else {
      YearStart(n400, n100, n4, 3);
    }
  }

  /** Within a year the estimated and corrected month holds day `n`. */
  lemma InYear(n400: int, n100: int, n4: int, n1: int, n: int)
    requires 0 <= n100 <= 3 && 0 <= n4 <= 24 && 0 <= n1 <= 3 && 0 <= n < 365
    ensures var c := FromCycles(n400, n100, n4, n1, n);
      1 <= c.day <= DaysIn(c.year, c.month) && ToOrdinal(c) == n400 * 146097 + n100 * 36524 + n4 * 1461 + n1 * 365 + n + 1
  {
    YearStart(n400, n100, n4, n1);
    MonthFit(n, n1 == 3 && (n4 != 24 || n100 == 3));
  }

  /**
   * The first day of a year, written as whole 400-, 100-, 4- and 1-year
   * cycles: its days before and whether it is a leap year.
   */
  lemma YearStart(n400: int, n100: int, n4: int, n1: int)
    requires 0 <= n100 <= 3 && 0 <= n4 <= 24 && 0 <= n1 <= 3
    ensures DaysBeforeYear(n400 * 400 + 1 + n100 * 100 + n4 * 4 + n1)
      == n400 * 146097 + n100 * 36524 + n4 * 1461 + n1 * 365
    ensures IsLeap(n400 * 400 + 1 + n100 * 100 + n4 * 4 + n1) <==> n1 == 3 && (n4 != 24 || n100 == 3)
  {
    var p := n400 * 400 + n100 * 100 + n4 * 4 + n1;
    assert p / 4 == n400 * 100 + n100 * 25 + n4;
    assert p / 100 == n400 * 4 + n100;
    assert p / 400 == n400;
    YearLeap(n400, n100, n4, n1);
  }

  /** The leap-year rule on a year written as cycles. */
  lemma YearLeap(n400: int, n100: int, n4: int, n1: int)
    requires 0 <= n100 <= 3 && 0 <= n4 <= 24 && 0 <= n1 <= 3
    ensures IsLeap(n400 * 400 + 1 + n100 * 100 + n4 * 4 + n1) <==> n1 == 3 && (n4 != 24 || n100 == 3)
  {
    var y := n400 * 400 + 1 + n100 * 100 + n4 * 4 + n1;
    var q4 := n400 * 100 + n100 * 25 + n4;
    var q100 := n400 * 4 + n100;
    assert y == 4 * q4 + (n1 + 1);
    assert y % 4 == 0 <==> n1 == 3;
    assert y == 100 * q100 + (n4 * 4 + n1 + 1);
    assert y % 100 == 0 <==> n4 == 24 && n1 == 3;
    assert y == 400 * n400 + (n100 * 100 + n4 * 4 + n1 + 1);
    assert y % 400 == 0 <==> n100 == 3 && n4 == 24 && n1 == 3;
  }

  /**
   * Day `n` (counted from 0) of a year: the month `ToCivil` estimates and
   * corrects holds that day, and the day of the month stays within it.
   */
  lemma MonthFit(n: int, leap: bool)
    requires 0 <= n < 365
    ensures var month := (n + 50) / 32;
      var preceding := DaysBeforeMonth[month] + (if month > 2 && leap then 1 else 0);
      if preceding > n then
        var m := month - 1;
        1 <= m && preceding - DaysInMonth[m] - (if m == 2 && leap then 1 else 0) <= n
      else
        n - preceding < DaysInMonth[month] + (if month == 2 && leap then 1 else 0)
  {
    var month := (n + 50) / 32;
    assert 1 <= month <= 12;
    if month == 1 {
    } else if month == 2 {
    } else if month == 3 {
    } else if month == 4 {
    } else if month == 5 {
    } else if month == 6 {
    } else if month == 7 {
    } else if month == 8 {
    } else if month == 9 {
    } else if month == 10 {
    } else if month == 11 {
    } else {
    }
  }

  /** `date.strftime('%d/%m/%Y')`. */
  function FormatDate(d: Date): (r: string)
    ensures |r| >= 10 && r[2] == '/' && r[5] == '/'
  {
    var c := ToCivil(d);
    TwoDigits(c.day);
    TwoDigits(c.month);
    ZeroPad(c.day, 2) + "/" + ZeroPad(c.month, 2) + "/" + ZeroPad(if c.year < 0 then 0 else c.year, 4)
  }

  /** `time.strftime('%H:%M')`. */
  function FormatTime(t: Minute): (r: string)
    ensures |r| == 5 && r[2] == ':'
  {
    TwoDigits(t / 60);
    TwoDigits(t % 60);
    ZeroPad(t / 60, 2) + ":" + ZeroPad(t % 60, 2)
  }

  /** A number below 100 pads to exactly two characters. */
  lemma TwoDigits(n: nat)
    requires n < 100
    ensures |ZeroPad(n, 2)| == 2
  {
    if n >= 10 {
      assert NatToString(n) == NatToString(n / 10) + [DigitChar(n % 10)];
    }
  }
}
