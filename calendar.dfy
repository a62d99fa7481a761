/**
 * The proleptic Gregorian calendar that JavaScript `Date` uses, at day
 * granularity. A day is a `CalDate(year, month, day)` triple; `DayNumber`
 * counts days from 1 January of year 1 (day 0), so comparing two dates is
 * comparing two integers. Time of day, time zones and daylight saving are
 * not part of the model.
 */
module Calendar {
  import opened Wrappers

  datatype CalDate = CalDate(year: int, month: int, day: int)

  predicate IsLeapYear(y: int)
  {
    y % 4 == 0 && (y % 100 != 0 || y % 400 == 0)
  }

  function DaysInYear(y: int): int
  {
    if IsLeapYear(y) then 366 else 365
  }

  function DaysInMonth(y: int, m: int): (n: int)
    requires 1 <= m <= 12
    ensures 28 <= n <= 31
  {
    if m == 2 then (if IsLeapYear(y) then 29 else 28)
    else if m == 4 || m == 6 || m == 9 || m == 11 then 30
    else 31
  }

  /** A real calendar day: month 1..12 and day 1..length of that month. */
  predicate ValidDate(d: CalDate)
  {
    1 <= d.month <= 12 && 1 <= d.day <= DaysInMonth(d.year, d.month)
  }

  /** Days in the months of year `y` before month `m` (m = 13 gives the whole year). */
  function DaysBeforeMonth(y: int, m: int): int
    requires 1 <= m <= 13
  {
    var common :=
      if m == 1 then 0 else if m == 2 then 31 else if m == 3 then 59
      else if m == 4 then 90 else if m == 5 then 120 else if m == 6 then 151
      else if m == 7 then 181 else if m == 8 then 212 else if m == 9 then 243
      else if m == 10 then 273 else if m == 11 then 304 else if m == 12 then 334
      else 365;
    common + (if m > 2 && IsLeapYear(y) then 1 else 0)
  }

  /** Days from 1 January of year 1 to 1 January of year `y` (negative before year 1). */
  function DaysBeforeYear(y: int): int
  {
    365 * (y - 1) + (y - 1) / 4 - (y - 1) / 100 + (y - 1) / 400
  }

  /** Day index of (y, m, d) counted from 1 January of year 1; `d` may run past the month, as in `new Date(y, m - 1, d)`. */
  function DayIndex(y: int, m: int, d: int): int
    requires 1 <= m <= 12
  {
    DaysBeforeYear(y) + DaysBeforeMonth(y, m) + d - 1
  }

  function DayNumber(d: CalDate): int
    requires 1 <= d.month <= 12
  {
    DayIndex(d.year, d.month, d.day)
  }

  const DaysPer400Years: int := 146097

  /** The date `n` days after 1 January of year 1 (before it when negative). */
  function FromDayNumber(n: int): (d: CalDate)
    ensures ValidDate(d) && DayNumber(d) == n
  {
    var q := n / DaysPer400Years;
    var r := n % DaysPer400Years;
    var (y, doy) := LocateYear(r, 1);
    var (m, dd) := LocateMonth(y, doy, 1);
    CycleShift(y, q);
    CalDate(y + 400 * q, m, dd)
  }

  function LocateYear(rem: nat, y: int): (p: (int, nat))
    ensures p.0 >= y && p.1 < DaysInYear(p.0)
    ensures DaysBeforeYear(p.0) + p.1 == DaysBeforeYear(y) + rem
    decreases rem
  {
    YearLength(y);
    if rem < DaysInYear(y) then (y, rem) else LocateYear(rem - DaysInYear(y), y + 1)
  }

  function LocateMonth(y: int, doy: nat, m: int): (p: (int, int))
    requires 1 <= m <= 12
    requires DaysBeforeMonth(y, m) + doy < DaysInYear(y)
    ensures 1 <= p.0 <= 12 && 1 <= p.1 <= DaysInMonth(y, p.0)
    ensures DaysBeforeMonth(y, p.0) + p.1 - 1 == DaysBeforeMonth(y, m) + doy
    decreases 12 - m
  {
    if doy < DaysInMonth(y, m) then (m, doy + 1)
    else LocateMonth(y, doy - DaysInMonth(y, m), m + 1)
  }

  // ---------------------------------------------------------------------
  // Calendar arithmetic
  // ---------------------------------------------------------------------

  lemma FloorStep(x: int, k: int)
    requires k == 4 || k == 100 || k == 400
    ensures (x + 1) / k - x / k == if (x + 1) % k == 0 then 1 else 0
  {
    if k == 4 {
      assert x == 4 * (x / 4) + x % 4;
    } else if k == 100 {
      assert x == 100 * (x / 100) + x % 100;
    } else {
      assert x == 400 * (x / 400) + x % 400;
    }
  }

  /** Consecutive years are `DaysInYear` apart. */
  lemma YearLength(y: int)
    ensures DaysBeforeYear(y + 1) == DaysBeforeYear(y) + DaysInYear(y)
  {
    FloorStep(y - 1, 4);
    FloorStep(y - 1, 100);
    FloorStep(y - 1, 400);
    DivisorsNest(y);
  }

  /** A multiple of 400 is a multiple of 100, and a multiple of 100 is a multiple of 4. */
  lemma DivisorsNest(y: int)
    ensures y % 400 == 0 ==> y % 100 == 0
    ensures y % 100 == 0 ==> y % 4 == 0
  {
    if y % 400 == 0 {
      var m := 4 * (y / 400);
      assert y == 100 * m;
      assert y / 100 == m;
    }
    if y % 100 == 0 {
      var m := 25 * (y / 100);
      assert y == 4 * m;
      assert y / 4 == m;
    }
  }

  lemma FloorShift(x: int, q: int)
    ensures (x + 400 * q) / 4 == x / 4 + 100 * q && (x + 400 * q) % 4 == x % 4
    ensures (x + 400 * q) / 100 == x / 100 + 4 * q && (x + 400 * q) % 100 == x % 100
    ensures (x + 400 * q) / 400 == x / 400 + q && (x + 400 * q) % 400 == x % 400
  {
  }

  /** The calendar repeats every 400 years (146097 days). */
  lemma CycleShift(y: int, q: int)
    ensures DaysBeforeYear(y + 400 * q) == DaysBeforeYear(y) + DaysPer400Years * q
    ensures IsLeapYear(y + 400 * q) == IsLeapYear(y)
  {
    FloorShift(y - 1, q);
    FloorShift(y, q);
  }

  /** Years further apart start further apart, by at least the earlier year's length. */
  lemma {:induction false} YearsOrdered(a: int, b: int)
    requires a < b
    ensures DaysBeforeYear(a) + DaysInYear(a) <= DaysBeforeYear(b)
    decreases b - a
  {
    YearLength(a);
    if a + 1 < b {
      YearsOrdered(a + 1, b);
    }
  }

  /** Day numbers order dates as (year, month, day) does. */
  lemma DayNumberOrder(a: CalDate, b: CalDate)
    requires ValidDate(a) && ValidDate(b)
    ensures DayNumber(a) < DayNumber(b) <==> LexLess(a, b)
  {
    if a.year < b.year {
      YearsOrdered(a.year, b.year);
    } else if b.year < a.year {
      YearsOrdered(b.year, a.year);
    }
  }

  predicate LexLess(a: CalDate, b: CalDate)
  {
    a.year < b.year
    || (a.year == b.year && (a.month < b.month || (a.month == b.month && a.day < b.day)))
  }

  /** Distinct real dates have distinct day numbers. */
  lemma DayNumberInjective(a: CalDate, b: CalDate)
    requires ValidDate(a) && ValidDate(b) && DayNumber(a) == DayNumber(b)
    ensures a == b
  {
    DayNumberOrder(a, b);
    DayNumberOrder(b, a);
  }

  /** `FromDayNumber` is the inverse of `DayNumber` on real dates. */
  lemma FromDayNumberOf(d: CalDate)
    requires ValidDate(d)
    ensures FromDayNumber(DayNumber(d)) == d
  {
    DayNumberInjective(FromDayNumber(DayNumber(d)), d);
  }

  /** JavaScript weekday of a day number: 0 is Sunday; 1 January of year 1 was a Monday. */
  function Weekday(n: int): (w: int)
    ensures 0 <= w < 7
  {
    (n + 1) % 7
  }

  /** `Math.ceil(x / 7)` on an integer. */
  function CeilDiv7(x: int): (c: int)
    ensures 7 * c - 7 < x <= 7 * c
  {
    -((-x) / 7)
  }

  // ---------------------------------------------------------------------
  // JavaScript `Date` at day granularity
  // ---------------------------------------------------------------------

  /** 1 January 1970, the origin of JavaScript time values. */
  const EpochDay: int := 719162

  lemma EpochDayIs()
    ensures DayNumber(CalDate(1970, 1, 1)) == EpochDay
  {
  }

  /** A day whose time value lies within the +-8.64e15 ms that a `Date` can hold; others are `Invalid Date`. */
  predicate Representable(n: int)
  {
    -100000000 <= n - EpochDay <= 100000000
  }

  /**
   * `new Date(year, monthIndex, day)` in local time: years 0..99 mean 1900..1999,
   * months and days outside their ranges roll over into neighbouring months and
   * years, and a result outside the time range is `Invalid Date` (None).
   */
  function MakeLocalDate(year: int, monthIndex: int, day: int): (r: Option<CalDate>)
    ensures r.Some? ==> ValidDate(r.value) && Representable(DayNumber(r.value))
  {
    var yr := if 0 <= year <= 99 then 1900 + year else year;
    var n := DayIndex(yr + monthIndex / 12, monthIndex % 12 + 1, day);
    if Representable(n) then Some(FromDayNumber(n)) else None
  }

  /** `d.setDate(d.getDate() + k)`: move a date by `k` days (None when it leaves the time range). */
  function ShiftDays(d: CalDate, k: int): (r: Option<CalDate>)
    requires ValidDate(d)
    ensures r.Some? <==> Representable(DayNumber(d) + k)
    ensures r.Some? ==> ValidDate(r.value) && DayNumber(r.value) == DayNumber(d) + k
  {
    if Representable(DayNumber(d) + k) then Some(FromDayNumber(DayNumber(d) + k)) else None
  }

  /** A real, in-range date passed back through `new Date(y, m - 1, d)` is itself (years from 100 on). */
  lemma MakeLocalDateOf(d: CalDate)
    requires ValidDate(d) && d.year >= 100 && Representable(DayNumber(d))
    ensures MakeLocalDate(d.year, d.month - 1, d.day) == Some(d)
  {
    MakeLocalDateInYear(d.year, d.month - 1, d.day);
    FromDayNumberOf(d);
  }

  /** From year 100 on, with a month index inside the year, `new Date` is the day at that index. */
  lemma MakeLocalDateInYear(year: int, monthIndex: int, day: int)
    requires year >= 100 && 0 <= monthIndex < 12
    ensures var n := DayIndex(year, monthIndex + 1, day);
      MakeLocalDate(year, monthIndex, day) == if Representable(n) then Some(FromDayNumber(n)) else None
  {
    assert monthIndex / 12 == 0 && monthIndex % 12 == monthIndex;
  }

  /** `new Date` reads a year 0..99 as 1900..1999. */
  lemma MakeLocalDateTwoDigitYear(year: int, monthIndex: int, day: int)
    requires 0 <= year <= 99
    ensures MakeLocalDate(year, monthIndex, day) == MakeLocalDate(1900 + year, monthIndex, day)
  {
  }

  /**
   * From year 100 on, a month index outside 0..11 rolls over whole years: index 12 is
   * January of the next year, index -1 December of the previous one.
   */
  lemma MakeLocalDateRollover(year: int, monthIndex: int, day: int)
    requires year >= 100
    ensures var n := DayIndex(year + monthIndex / 12, monthIndex % 12 + 1, day);
      MakeLocalDate(year, monthIndex, day) == if Representable(n) then Some(FromDayNumber(n)) else None
  {
  }

  /** Month index 12 of 2025 (the text "01/13/2025") is 1 January 2026. */
  lemma MonthThirteenIsNextJanuary()
    ensures MakeLocalDate(2025, 12, 1) == Some(CalDate(2026, 1, 1))
  {
    var d := CalDate(2026, 1, 1);
    assert DayIndex(2026, 1, 1) == DayNumber(d);
    FromDayNumberOf(d);
  }

  /** Day 31 of February 2025 (the text "31/02/2025") rolls over to 3 March 2025. */
  lemma DayThirtyOneOfFebruaryIsMarchThird()
    ensures MakeLocalDate(2025, 1, 31) == Some(CalDate(2025, 3, 3))
  {
    var d := CalDate(2025, 3, 3);
    assert DayIndex(2025, 2, 31) == DayNumber(d);
    FromDayNumberOf(d);
  }

  /** Within years 1..9999 a day index (even one running past its month) stays well inside the time range. */
  lemma DayIndexBounds(y: int, m: int, d: int)
    requires 1 <= y <= 9999 && 1 <= m <= 12 && 1 <= d <= 31
    ensures Representable(DayIndex(y, m, d))
  {
    var x := y - 1;
    assert 0 <= x / 4 <= x && 0 <= x / 100 <= x && 0 <= x / 400 <= x;
    assert 0 <= DaysBeforeMonth(y, m) <= 335;
  }

  /** `new Date(year, monthIndex, day)` is a valid date for every year 0..9999, month index in the year and day 1..31. */
  lemma MakeLocalDateDefined(year: int, monthIndex: int, day: int)
    requires 0 <= year <= 9999 && 0 <= monthIndex < 12 && 1 <= day <= 31
    ensures MakeLocalDate(year, monthIndex, day).Some?
  {
    var yr := if 0 <= year <= 99 then 1900 + year else year;
    assert monthIndex / 12 == 0 && monthIndex % 12 == monthIndex;
    DayIndexBounds(yr, monthIndex + 1, day);
  }

  /** Days since 1 January of the same year. */
  function DayOfYear0(d: CalDate): (n: int)
    requires ValidDate(d)
    ensures 0 <= n < DaysInYear(d.year)
  {
    DaysBeforeMonth(d.year, d.month) + d.day - 1
  }

  /**
   * The dashboard's approximate week number of a date:
   * ceil((days since 1 January + weekday of 1 January + 1) / 7).
   */
  function WeekNumber(d: CalDate): (w: int)
    requires ValidDate(d)
    ensures 1 <= w <= 54
  {
    CeilDiv7(DayOfYear0(d) + Weekday(DayIndex(d.year, 1, 1)) + 1)
  }

  /** Within one year, later days never have smaller week numbers. */
  lemma WeekNumberMonotone(a: CalDate, b: CalDate)
    requires ValidDate(a) && ValidDate(b) && a.year == b.year
    requires DayNumber(a) <= DayNumber(b)
    ensures WeekNumber(a) <= WeekNumber(b)
  {
    var w := Weekday(DayIndex(a.year, 1, 1));
    var x, y := DayOfYear0(a) + w + 1, DayOfYear0(b) + w + 1;
    assert x <= y;
  }
}
