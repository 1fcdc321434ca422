/**
  Calendar arithmetic behind the planner's use of JavaScript `Date`: the
  Gregorian month lengths, a day count from 0001-01-01, the weekday that
  `getDay()` returns (0 is Sunday), stepping by whole days as
  `setDate(getDate() + n)` does, and the overflow normalisation of
  `new Date(year, monthIndex, day)`. Dates are compared as calendar dates.
 */
module Dates {
  import opened Types

  predicate IsLeapYear(y: int)
  {
    y % 4 == 0 && (y % 100 != 0 || y % 400 == 0)
  }

  /** The Gregorian length of month `m` (1..12) of year `y`. */
  function DaysInMonth(y: int, m: int): int
    requires 1 <= m <= 12
  {
    if m == 2 then (if IsLeapYear(y) then 29 else 28)
    else if m == 4 || m == 6 || m == 9 || m == 11 then 30
    else 31
  }

  function DaysInYear(y: int): int
  {
    if IsLeapYear(y) then 366 else 365
  }

  /** A real calendar date of year 1 or later. */
  predicate ValidDate(d: Date)
  {
    1 <= d.year && 1 <= d.month <= 12 && 1 <= d.day <= DaysInMonth(d.year, d.month)
  }

  /** Days from 0001-01-01 to the first of January of `y`. */
  function DaysBeforeYear(y: int): (r: int)
    requires y >= 1
    ensures r >= 0
  {
    if y == 1 then 0 else DaysBeforeYear(y - 1) + DaysInYear(y - 1)
  }

  /** Days from the first of January to the first of month `m` in year `y`. */
  function DaysBeforeMonth(y: int, m: int): int
    requires 1 <= m <= 12
  {
    [0, 31, 59, 90, 120, 151, 181, 212, 243, 273, 304, 334][m - 1]
      + (if m > 2 && IsLeapYear(y) then 1 else 0)
  }

  /** The number of days from 0001-01-01 to `d`. */
  function DayNumber(d: Date): (n: int)
    requires ValidDate(d)
    ensures n >= 0
  {
    DaysBeforeYear(d.year) + DaysBeforeMonth(d.year, d.month) + d.day - 1
  }

  /** `getDay()`: 0 is Sunday, 1 is Monday, ... 0001-01-01 was a Monday. */
  function Weekday(d: Date): (w: int)
    requires ValidDate(d)
    ensures 0 <= w < 7
  {
    (DayNumber(d) + 1) % 7
  }

  /** The long weekday name of a `getDay()` value. */
  function DayNameOf(w: int): (n: DayName)
    requires 0 <= w < 7
    ensures DayIndex(n) == w
  {
    [Sunday, Monday, Tuesday, Wednesday, Thursday, Friday, Saturday][w]
  }

  /** The `getDay()` value of a weekday name. */
  function DayIndex(n: DayName): (w: int)
    ensures 0 <= w < 7
  {
    match n
    case Sunday => 0
    case Monday => 1
    case Tuesday => 2
    case Wednesday => 3
    case Thursday => 4
    case Friday => 5
    case Saturday => 6
  }

  lemma DayNameRoundTrip(n: DayName)
    ensures DayNameOf(DayIndex(n)) == n
  {
  }

  lemma MonthLength(y: int, m: int)
    requires 1 <= m <= 12
    ensures m < 12 ==> DaysBeforeMonth(y, m + 1) == DaysBeforeMonth(y, m) + DaysInMonth(y, m)
    ensures m == 12 ==> DaysBeforeMonth(y, m) + DaysInMonth(y, m) == DaysInYear(y)
  {
  }

  /** The following calendar date. */
  function NextDay(d: Date): (r: Date)
    requires ValidDate(d)
    ensures ValidDate(r) && DayNumber(r) == DayNumber(d) + 1
  {
    MonthLength(d.year, d.month);
    if d.day < DaysInMonth(d.year, d.month) then Date(d.year, d.month, d.day + 1)
    else if d.month < 12 then Date(d.year, d.month + 1, 1)
    else Date(d.year + 1, 1, 1)
  }

  /** The preceding calendar date; 0001-01-01 has none. */
  function PrevDay(d: Date): (r: Date)
    requires ValidDate(d) && DayNumber(d) > 0
    ensures ValidDate(r) && DayNumber(r) == DayNumber(d) - 1
  {
    if d.day > 1 then Date(d.year, d.month, d.day - 1)
    else if d.month > 1 then
      MonthLength(d.year, d.month - 1);
      Date(d.year, d.month - 1, DaysInMonth(d.year, d.month - 1))
    else
      MonthLength(d.year - 1, 12);
      Date(d.year - 1, 12, 31)
  }

  /** The date `n` days after (or, for negative `n`, before) `d`. */
  function AddDays(d: Date, n: int): (r: Date)
    requires ValidDate(d) && DayNumber(d) + n >= 0
    ensures ValidDate(r) && DayNumber(r) == DayNumber(d) + n
    decreases if n < 0 then -n else n
  {
    if n == 0 then d
    else if n > 0 then AddDays(NextDay(d), n - 1)
    else AddDays(PrevDay(d), n + 1)
  }

  /** Moving by `n` days moves the weekday by `n` modulo 7. */
  lemma WeekdayAfter(d: Date, n: int)
    requires ValidDate(d) && DayNumber(d) + n >= 0
    ensures Weekday(AddDays(d, n)) == (Weekday(d) + n) % 7
  {
    var x := DayNumber(d) + 1;
    ShiftMod7(x / 7, x % 7 + n);
    assert x + n == 7 * (x / 7) + (x % 7 + n);
  }

  lemma ShiftMod7(q: int, r: int)
    ensures (7 * q + r) % 7 == r % 7
  {
  }

  /**
    `new Date(year, monthIndex, day)`: a month index outside 0..11 moves into
    the neighbouring years and a day outside the month moves into the
    neighbouring months.
   */
  function NormalizedDate(year: int, monthIndex: int, day: int): (r: Date)
    requires year + monthIndex / 12 >= 1
    requires DayNumber(Date(year + monthIndex / 12, monthIndex % 12 + 1, 1)) + day - 1 >= 0
    ensures ValidDate(r)
    ensures DayNumber(r) == DayNumber(Date(year + monthIndex / 12, monthIndex % 12 + 1, 1)) + (day - 1)
  {
    AddDays(Date(year + monthIndex / 12, monthIndex % 12 + 1, 1), day - 1)
  }

  /** Inside the month, `new Date(year, monthIndex, day)` is that very date. */
  lemma NormalizedDateInMonth(year: int, monthIndex: int, day: int)
    requires year >= 1 && 0 <= monthIndex < 12 && 1 <= day <= DaysInMonth(year, monthIndex + 1)
    ensures NormalizedDate(year, monthIndex, day) == Date(year, monthIndex + 1, day)
  {
    var first := Date(year, monthIndex + 1, 1);
    assert Date(year + monthIndex / 12, monthIndex % 12 + 1, 1) == first;
    var n := AddDays(first, day - 1);
    assert DayNumber(Date(year, monthIndex + 1, day)) == DayNumber(first) + day - 1;
    DateLeIsDayNumberOrder(n, Date(year, monthIndex + 1, day));
  }

  /** The weekday of day `day` of a month is that of the first shifted by `day - 1`. */
  lemma WeekdayInMonth(year: int, month: int, day: int)
    requires year >= 1 && 1 <= month <= 12 && 1 <= day <= DaysInMonth(year, month)
    ensures Weekday(Date(year, month, day)) == (Weekday(Date(year, month, 1)) + day - 1) % 7
  {
    var x := DayNumber(Date(year, month, 1)) + 1;
    assert DayNumber(Date(year, month, day)) + 1 == x + day - 1;
    ShiftMod7(x / 7, x % 7 + day - 1);
    assert x + day - 1 == 7 * (x / 7) + (x % 7 + day - 1);
  }

  /** Calendar order of dates: what comparing the instants of two date-only ISO keys computes. */
  predicate DateLe(a: Date, b: Date)
  {
    a.year < b.year || (a.year == b.year && (a.month < b.month || (a.month == b.month && a.day <= b.day)))
  }

  /** `d` lies in the inclusive range `r`. */
  predicate InRange(r: DateRange, d: Date)
  {
    DateLe(r.start, d) && DateLe(d, r.end)
  }

  lemma DaysBeforeYearGrows(y1: int, y2: int)
    requires 1 <= y1 < y2
    ensures DaysBeforeYear(y1) + DaysInYear(y1) <= DaysBeforeYear(y2)
    decreases y2 - y1
  {
    if y1 + 1 < y2 {
      DaysBeforeYearGrows(y1 + 1, y2);
    }
  }

  lemma DaysBeforeMonthGrows(y: int, m1: int, m2: int)
    requires 1 <= m1 < m2 <= 12
    ensures DaysBeforeMonth(y, m1) + DaysInMonth(y, m1) <= DaysBeforeMonth(y, m2)
  {
  }

  /**
    The calendar order of valid dates is the order of their day numbers, so
    comparing them as calendar dates and as instants agree, and a date is
    determined by its day number.
   */
  lemma {:induction false} DateLeIsDayNumberOrder(a: Date, b: Date)
    requires ValidDate(a) && ValidDate(b)
    ensures DateLe(a, b) <==> DayNumber(a) <= DayNumber(b)
    ensures DayNumber(a) == DayNumber(b) ==> a == b
  {
    MonthLength(a.year, a.month);
    MonthLength(b.year, b.month);
    if a.year < b.year {
      DaysBeforeMonthBound(a.year, a.month);
      DaysBeforeYearGrows(a.year, b.year);
    } else if b.year < a.year {
      DaysBeforeMonthBound(b.year, b.month);
      DaysBeforeYearGrows(b.year, a.year);
    } else if a.month < b.month {
      DaysBeforeMonthGrows(a.year, a.month, b.month);
    } else if b.month < a.month {
      DaysBeforeMonthGrows(a.year, b.month, a.month);
    }
  }

  lemma DaysBeforeMonthBound(y: int, m: int)
    requires 1 <= m <= 12
    ensures DaysBeforeMonth(y, m) + DaysInMonth(y, m) <= DaysInYear(y)
  {
  }
}
