/**
 * Calendar arithmetic of ECMAScript dates (ECMA-262, section 21.4.1), on whole
 * days: every date the goal engine handles is a UTC midnight, so a time value
 * is `day * 86400000` ms and is kept here as its day number, counted from
 * 1970-01-01.  Covers DayFromYear, the YearFromTime/MonthFromTime/DateFromTime
 * decomposition, MakeDay, TimeClip, `Date.UTC` and the date part of
 * `toISOString`.
 */
module Calendar {
  import opened JsValues

  /** TimeClip keeps time values with |t| <= 8.64e15 ms, i.e. |day| <= 10^8. */
  const MaxDay: int := 100000000

  type Day = d: int | -100000000 <= d <= 100000000

  /** A `Date` object: a valid UTC midnight, or an Invalid Date (time value NaN). */
  datatype JsDate = ValidDate(day: Day) | InvalidDate

  /** A proleptic Gregorian calendar date. */
  datatype Civil = Civil(year: int, month: int, day: int)

  function TimeClip(d: int): (r: JsDate)
    ensures r.ValidDate? <==> -MaxDay <= d <= MaxDay
    ensures r.ValidDate? ==> r.day == d
  {
    if -MaxDay <= d <= MaxDay then ValidDate(d) else InvalidDate
  }

  predicate IsLeapYear(y: int)
  {
    y % 4 == 0 && (y % 100 != 0 || y % 400 == 0)
  }

  function DaysInYear(y: int): int
  {
    if IsLeapYear(y) then 366 else 365
  }

  /** ECMA-262 DayFromYear: the day number of 1 January of year `y`. */
  function DayFromYear(y: int): int
  {
    365 * (y - 1970) + (y - 1969) / 4 - (y - 1901) / 100 + (y - 1601) / 400
  }

  /** Each of the three leap-year counts of DayFromYear moves on exactly at a multiple of its period. */
  lemma QuadrennialStep(y: int)
    ensures (y - 1968) / 4 == (y - 1969) / 4 + (if y % 4 == 0 then 1 else 0)
  {
  }

  lemma CentennialStep(y: int)
    ensures (y - 1900) / 100 == (y - 1901) / 100 + (if y % 100 == 0 then 1 else 0)
  {
  }

  lemma QuadricentennialStep(y: int)
    ensures (y - 1600) / 400 == (y - 1601) / 400 + (if y % 400 == 0 then 1 else 0)
  {
  }

  lemma CenturyOfQuadricentury(y: int)
    requires y % 400 == 0
    ensures y % 100 == 0
  {
    var k := y / 400;
    assert y == 100 * (4 * k);
  }

  lemma QuadrenniumOfCentury(y: int)
    requires y % 100 == 0
    ensures y % 4 == 0
  {
    var k := y / 100;
    assert y == 4 * (25 * k);
  }

  lemma LeapCount(y: int)
    ensures DaysInYear(y) == 365 + (if y % 4 == 0 then 1 else 0) - (if y % 100 == 0 then 1 else 0) + (if y % 400 == 0 then 1 else 0)
  {
    if y % 400 == 0 { CenturyOfQuadricentury(y); }
    if y % 100 == 0 { QuadrenniumOfCentury(y); }
  }

  lemma DayFromYearStep(y: int)
    ensures DayFromYear(y + 1) == DayFromYear(y) + DaysInYear(y)
  {
    QuadrennialStep(y);
    CentennialStep(y);
    QuadricentennialStep(y);
    LeapCount(y);
    assert DayFromYear(y + 1) == 365 * (y - 1969) + (y - 1968) / 4 - (y - 1900) / 100 + (y - 1600) / 400;
  }

  /** Four hundred Gregorian years are exactly 146097 days. */
  lemma EraStart(e: int)
    ensures DayFromYear(400 * e) == DayFromYear(0) + 146097 * e
  {
    assert (400 * e - 1969) / 4 == 100 * e + (-1969) / 4;
    assert (400 * e - 1901) / 100 == 4 * e + (-1901) / 100;
    assert (400 * e - 1601) / 400 == e + (-1601) / 400;
  }

  lemma {:induction false} DayFromYearGrows(a: int, b: int)
    requires a < b
    ensures DayFromYear(a) + 365 * (b - a) <= DayFromYear(b)
    decreases b - a
  {
    DayFromYearStep(b - 1);
    if a < b - 1 {
      DayFromYearGrows(a, b - 1);
    }
  }

  /** At most one year contains a given day. */
  lemma YearUnique(n: int, a: int, b: int)
    requires DayFromYear(a) <= n < DayFromYear(a + 1)
    requires DayFromYear(b) <= n < DayFromYear(b + 1)
    ensures a == b
  {
    if a < b {
      if a + 1 < b { DayFromYearGrows(a + 1, b); }
    } else if b < a {
      if b + 1 < a { DayFromYearGrows(b + 1, a); }
    }
  }

  function YearSearch(n: int, y: int): (r: int)
    requires DayFromYear(y) <= n
    ensures DayFromYear(r) <= n < DayFromYear(r + 1)
    decreases n - DayFromYear(y)
  {
    DayFromYearStep(y);
    if n < DayFromYear(y + 1) then y else YearSearch(n, y + 1)
  }

  /** ECMA-262 YearFromTime: the year whose days include day `n`. */
  function YearFromDay(n: int): (y: int)
    ensures DayFromYear(y) <= n < DayFromYear(y + 1)
  {
    var e := (n - DayFromYear(0)) / 146097;
    EraStart(e);
    YearSearch(n, 400 * e)
  }

  /** Days of the year before month `m0` (0 = January). */
  function DaysBeforeMonth(m0: int, leap: bool): int
    requires 0 <= m0 < 12
  {
    [0, 31, 59, 90, 120, 151, 181, 212, 243, 273, 304, 334][m0] + (if leap && m0 >= 2 then 1 else 0)
  }

  function MonthLength(m0: int, leap: bool): int
    requires 0 <= m0 < 12
  {
    [31, if leap then 29 else 28, 31, 30, 31, 30, 31, 31, 30, 31, 30, 31][m0]
  }

  lemma MonthTable(m0: int, leap: bool)
    requires 0 <= m0 < 12
    ensures 28 <= MonthLength(m0, leap)
    ensures m0 < 11 ==> DaysBeforeMonth(m0 + 1, leap) == DaysBeforeMonth(m0, leap) + MonthLength(m0, leap)
    ensures m0 == 11 ==> DaysBeforeMonth(m0, leap) + MonthLength(m0, leap) == if leap then 366 else 365
  {
  }

  lemma {:induction false} DaysBeforeMonthGrows(a: int, b: int, leap: bool)
    requires 0 <= a < b < 12
    ensures DaysBeforeMonth(a, leap) + MonthLength(a, leap) <= DaysBeforeMonth(b, leap)
    decreases b - a
  {
    MonthTable(a, leap);
    if a + 1 < b {
      MonthTable(a + 1, leap);
      DaysBeforeMonthGrows(a + 1, b, leap);
    }
  }

  function MonthSearch(doy: int, leap: bool, m0: int): (r: int)
    requires 0 <= m0 < 12 && DaysBeforeMonth(m0, leap) <= doy < (if leap then 366 else 365)
    ensures m0 <= r < 12
    ensures DaysBeforeMonth(r, leap) <= doy < DaysBeforeMonth(r, leap) + MonthLength(r, leap)
    decreases 12 - m0
  {
    MonthTable(m0, leap);
    if m0 == 11 || doy < DaysBeforeMonth(m0 + 1, leap) then m0 else MonthSearch(doy, leap, m0 + 1)
  }

  lemma {:induction false} MonthSearchFinds(doy: int, leap: bool, m0: int, target: int)
    requires 0 <= m0 <= target < 12
    requires DaysBeforeMonth(target, leap) <= doy < DaysBeforeMonth(target, leap) + MonthLength(target, leap)
    ensures DaysBeforeMonth(m0, leap) <= doy < (if leap then 366 else 365)
    ensures MonthSearch(doy, leap, m0) == target
    decreases target - m0
  {
    MonthTable(target, leap);
    if target < 11 {
      DaysBeforeMonthGrows(target, 11, leap);
      MonthTable(11, leap);
    }
    if m0 < target {
      DaysBeforeMonthGrows(m0, target, leap);
      MonthTable(m0, leap);
      if m0 + 1 < target { DaysBeforeMonthGrows(m0 + 1, target, leap); }
      MonthSearchFinds(doy, leap, m0 + 1, target);
    }
  }

  predicate ValidCivil(c: Civil)
  {
    1 <= c.month <= 12 && 1 <= c.day <= MonthLength(c.month - 1, IsLeapYear(c.year))
  }

  /** The day number of a calendar date (MakeDay of an in-range month and day). */
  function DaysFromCivil(c: Civil): int
    requires 1 <= c.month <= 12
  {
    DayFromYear(c.year) + DaysBeforeMonth(c.month - 1, IsLeapYear(c.year)) + c.day - 1
  }

  /** YearFromTime, MonthFromTime and DateFromTime of day `n`. */
  function CivilFromDays(n: int): (c: Civil)
    ensures ValidCivil(c) && DaysFromCivil(c) == n
  {
    var y := YearFromDay(n);
    DayFromYearStep(y);
    var leap := IsLeapYear(y);
    var doy := n - DayFromYear(y);
    var m0 := MonthSearch(doy, leap, 0);
    Civil(y, m0 + 1, doy - DaysBeforeMonth(m0, leap) + 1)
  }

  /** Every calendar date is recovered from its day number. */
  lemma CivilRoundTrip(c: Civil)
    requires ValidCivil(c)
    ensures CivilFromDays(DaysFromCivil(c)) == c
  {
    DaysFromCivilInjective(CivilFromDays(DaysFromCivil(c)), c);
  }

  /** Distinct calendar dates have distinct day numbers. */
  lemma DaysFromCivilInjective(a: Civil, b: Civil)
    requires ValidCivil(a) && ValidCivil(b) && DaysFromCivil(a) == DaysFromCivil(b)
    ensures a == b
  {
    SameYear(a, b);
    var leap := IsLeapYear(a.year);
    SameDayOfYear(a.month - 1, a.day, b.month - 1, b.day, leap);
  }

  lemma SameYear(a: Civil, b: Civil)
    requires ValidCivil(a) && ValidCivil(b) && DaysFromCivil(a) == DaysFromCivil(b)
    ensures a.year == b.year
  {
    var n := DaysFromCivil(a);
    assert DayFromYear(a.year) <= n < DayFromYear(a.year + 1) by { DayInYear(a); }
    assert DayFromYear(b.year) <= n < DayFromYear(b.year + 1) by { DayInYear(b); }
    YearUnique(n, a.year, b.year);
  }

  /** Within one year, month and day are determined by the day of the year. */
  lemma SameDayOfYear(ma: int, da: int, mb: int, db: int, leap: bool)
    requires 0 <= ma < 12 && 1 <= da <= MonthLength(ma, leap)
    requires 0 <= mb < 12 && 1 <= db <= MonthLength(mb, leap)
    requires DaysBeforeMonth(ma, leap) + da == DaysBeforeMonth(mb, leap) + db
    ensures ma == mb && da == db
  {
    if ma < mb {
      DaysBeforeMonthGrows(ma, mb, leap);
    } else if mb < ma {
      DaysBeforeMonthGrows(mb, ma, leap);
    }
  }

  lemma DayInYear(c: Civil)
    requires ValidCivil(c)
    ensures DayFromYear(c.year) <= DaysFromCivil(c) < DayFromYear(c.year + 1)
  {
    DayOfYearBound(c);
    DayFromYearStep(c.year);
  }

  /** The day of the year of a calendar date is within its year. */
  lemma DayOfYearBound(c: Civil)
    requires ValidCivil(c)
    ensures 0 <= DaysBeforeMonth(c.month - 1, IsLeapYear(c.year)) + c.day - 1 < DaysInYear(c.year)
  {
    var leap := IsLeapYear(c.year);
    MonthTable(c.month - 1, leap);
    if c.month - 1 < 11 {
      DaysBeforeMonthGrows(c.month - 1, 11, leap);
      MonthTable(11, leap);
    }
  }


  /** ToIntegerOrInfinity of a finite value: truncation toward zero. */
  function Truncate(r: real): int
  {
    if r >= 0.0 then r.Floor else -((-r).Floor)
  }

  /** ECMA-262 MakeDay; `None` is NaN. */
  function MakeDay(year: JsNumber, month: JsNumber, date: JsNumber): Option<int>
  {
    if !(year.Finite? && month.Finite? && date.Finite?) then None
    else
      var y, m, dt := Truncate(year.r), Truncate(month.r), Truncate(date.r);
      var ym := y + m / 12;
      Some(DayFromYear(ym) + DaysBeforeMonth(m % 12, IsLeapYear(ym)) + dt - 1)
  }

  /** `new Date(Date.UTC(year, month, date))` with all three arguments present. */
  function DateUtc(year: JsNumber, month: JsNumber, date: JsNumber): JsDate
  {
    var yr :=
      if year.Finite? && 0 <= Truncate(year.r) <= 99 then Finite((1900 + Truncate(year.r)) as real)
      else year;
    match MakeDay(yr, month, date)
    case None => InvalidDate
    case Some(d) => TimeClip(d)
  }

  /** For an in-range integer month (0-based) and day, Date.UTC is day arithmetic on the calendar. */
  lemma DateUtcOfCivil(c: Civil)
    requires ValidCivil(c) && (c.year < 0 || 99 < c.year)
    ensures DateUtc(Finite(c.year as real), Finite((c.month - 1) as real), Finite(c.day as real))
         == TimeClip(DaysFromCivil(c))
  {
    var m := c.month - 1;
    assert Truncate(c.year as real) == c.year;
    assert Truncate(m as real) == m;
    assert Truncate(c.day as real) == c.day;
    assert m / 12 == 0 && m % 12 == m;
    assert MakeDay(Finite(c.year as real), Finite(m as real), Finite(c.day as real)) == Some(DaysFromCivil(c));
  }


  /** `v` written with exactly `w` decimal digits, zero-padded on the left. */
  function Digits(v: nat, w: nat): (s: string)
    ensures |s| == w && forall i :: 0 <= i < |s| ==> IsDigit(s[i])
  {
    if w == 0 then "" else Digits(v / 10, w - 1) + [('0' as int + v % 10) as char]
  }

  lemma {:induction false} DigitsValueOfDigits(v: nat, w: nat)
    requires v < Pow10(w)
    ensures DigitsValue(Digits(v, w)) == v
  {
    if w > 0 {
      var s := Digits(v, w);
      assert s[..|s| - 1] == Digits(v / 10, w - 1);
      DigitsValueOfDigits(v / 10, w - 1);
    }
  }

  /** The year field of `toISOString`: four digits for 0..9999, otherwise a sign and six digits. */
  function IsoYear(y: int): string
    requires -1000000 < y < 1000000
  {
    if 0 <= y <= 9999 then Digits(y, 4)
    else (if y < 0 then "-" else "+") + Digits(if y < 0 then -y else y, 6)
  }

  lemma DayYearBound(n: Day)
    ensures -1000000 < CivilFromDays(n).year < 1000000
  {
    var y := CivilFromDays(n).year;
    if y >= 1000000 {
      DayFromYearGrows(1970, y);
    } else if y <= -1000000 {
      DayFromYearGrows(y + 1, 1970);
      DayFromYearStep(y);
    }
  }

  /** `date.toISOString().split('T')[0]` for a valid date. */
  function IsoDateString(n: Day): string
  {
    var c := CivilFromDays(n);
    DayYearBound(n);
    IsoYear(c.year) + "-" + Digits(c.month, 2) + "-" + Digits(c.day, 2)
  }

  /** The ISO date of a calendar date with a four-digit year. */
  lemma IsoDateOfCivil(c: Civil)
    requires ValidCivil(c) && 0 <= c.year <= 9999
    requires -MaxDay <= DaysFromCivil(c) <= MaxDay
    ensures IsoDateString(DaysFromCivil(c)) == Digits(c.year, 4) + "-" + Digits(c.month, 2) + "-" + Digits(c.day, 2)
  {
    CivilRoundTrip(c);
  }
}
