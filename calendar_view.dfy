/**
  The semester calendar (components/CalendarView.tsx): month lengths, the
  weekday of the first of a month, the "YYYY-MM-DD" key of a day, the day
  classifier and the padded array of day cells of one month grid.
 */
module CalendarView {
  import opened Types
  import opened Text
  import opened Dates
  import opened Seqs
  import opened Constants

  /** `new Date(year, monthIndex + 1, 0)` is the last day of month `monthIndex` (0-based). */
  lemma DayZeroIsLastOfMonth(year: int, monthIndex: int)
    requires year >= 1 && 0 <= monthIndex < 12
    ensures year + (monthIndex + 1) / 12 >= 1
    ensures DayNumber(Date(year + (monthIndex + 1) / 12, (monthIndex + 1) % 12 + 1, 1)) > 0
    ensures NormalizedDate(year, monthIndex + 1, 0) == Date(year, monthIndex + 1, DaysInMonth(year, monthIndex + 1))
  {
    var first := Date(year + (monthIndex + 1) / 12, (monthIndex + 1) % 12 + 1, 1);
    if monthIndex < 11 {
      assert first == Date(year, monthIndex + 2, 1);
      MonthLength(year, monthIndex + 1);
    } else {
      assert first == Date(year + 1, 1, 1);
      MonthLength(year, 12);
    }
    assert AddDays(first, -1) == AddDays(PrevDay(first), 0) == PrevDay(first);
  }

  /** `getDaysInMonth(year, month)`: the Gregorian length of the month, month counted from 0. */
  function GetDaysInMonth(year: int, monthIndex: int): (r: int)
    requires year >= 1 && 0 <= monthIndex < 12
    ensures r == DaysInMonth(year, monthIndex + 1)
    ensures monthIndex == 1 ==> r == (if IsLeapYear(year) then 29 else 28)
    ensures monthIndex == 3 || monthIndex == 5 || monthIndex == 8 || monthIndex == 10 ==> r == 30
    ensures (monthIndex == 0 || monthIndex == 2 || monthIndex == 4 || monthIndex == 6
             || monthIndex == 7 || monthIndex == 9 || monthIndex == 11) ==> r == 31
  {
    DayZeroIsLastOfMonth(year, monthIndex);
    NormalizedDate(year, monthIndex + 1, 0).day
  }

  /** `getFirstDayOfMonth(year, month)`: the `getDay()` of the first of the month. */
  function GetFirstDayOfMonth(year: int, monthIndex: int): (r: int)
    requires year >= 1 && 0 <= monthIndex < 12
    ensures 0 <= r < 7
    ensures r == Weekday(Date(year, monthIndex + 1, 1))
  {
    NormalizedDateInMonth(year, monthIndex, 1);
    Weekday(NormalizedDate(year, monthIndex, 1))
  }

  /** `formatDateKey(year, month, day)`: "YYYY-MM-DD" with the 0-based month shifted to 1-based. */
  function FormatDateKey(year: nat, monthIndex: nat, day: nat): (r: string)
    ensures |r| >= |DecimalString(year)| + 6 && r[..|DecimalString(year)|] == DecimalString(year)
    ensures monthIndex < 12 && day < 100 ==>
      |r| == |DecimalString(year)| + 6 && r[|r| - 6] == '-' && r[|r| - 3] == '-'
      && AllDigits(r[|r| - 5..|r| - 3]) && AllDigits(r[|r| - 2..])
  {
    DecimalString(year) + "-" + PadStart2(monthIndex + 1) + "-" + PadStart2(day)
  }

  /** Reads a "YYYY-MM-DD" key back into a date; anything of another shape is rejected. */
  function ParseDateKey(s: string): Option<Date>
  {
    if |s| == 10 && s[4] == '-' && s[7] == '-'
      && AllDigits(s[..4]) && AllDigits(s[5..7]) && AllDigits(s[8..])
    then Some(Date(ParseDigits(s[..4]), ParseDigits(s[5..7]), ParseDigits(s[8..])))
    else None
  }

  /**
    For four-digit years the key is ten characters with dashes at positions 4
    and 7, and reading it back gives the date with its month counted from 1.
   */
  lemma FormatDateKeyRoundTrip(year: nat, monthIndex: nat, day: nat)
    requires 1000 <= year < 10000 && monthIndex < 12 && day < 100
    ensures |FormatDateKey(year, monthIndex, day)| == 10
    ensures FormatDateKey(year, monthIndex, day)[4] == '-' && FormatDateKey(year, monthIndex, day)[7] == '-'
    ensures ParseDateKey(FormatDateKey(year, monthIndex, day)) == Some(Date(year, monthIndex + 1, day))
  {
    var y, m, d := DecimalString(year), PadStart2(monthIndex + 1), PadStart2(day);
    ParseDecimalString(year);
    PadStart2RoundTrip(monthIndex + 1);
    PadStart2RoundTrip(day);
    var s := FormatDateKey(year, monthIndex, day);
    assert s == y + "-" + m + "-" + d;
    assert s[..4] == y && s[5..7] == m && s[8..] == d;
  }

  /** Distinct days of four-digit years get distinct keys, so keying the tables by date loses nothing. */
  lemma FormatDateKeyInjective(y1: nat, m1: nat, d1: nat, y2: nat, m2: nat, d2: nat)
    requires 1000 <= y1 < 10000 && m1 < 12 && d1 < 100
    requires 1000 <= y2 < 10000 && m2 < 12 && d2 < 100
    ensures FormatDateKey(y1, m1, d1) == FormatDateKey(y2, m2, d2) <==> y1 == y2 && m1 == m2 && d1 == d2
  {
    FormatDateKeyRoundTrip(y1, m1, d1);
    FormatDateKeyRoundTrip(y2, m2, d2);
  }

  /**
    `getDayType(dateKey, dayOfWeek)`: the first rule that applies wins: the
    special-dates entry, then Sunday, then membership of an inclusive class
    range, then NONE.
   */
  function GetDayType(date: Date, dayOfWeek: int): (r: EventType)
    ensures date in SpecialDates() ==> r == SpecialDates()[date].kind
    ensures date !in SpecialDates() && dayOfWeek == 0 ==> r == SUNDAY
    ensures date !in SpecialDates() && dayOfWeek != 0 ==>
      (r == CLASSES <==> exists i :: 0 <= i < |ClassRanges()| && InRange(ClassRanges()[i], date))
    ensures date !in SpecialDates() && dayOfWeek != 0 && r != CLASSES ==> r == NONE
  {
    if date in SpecialDates() then SpecialDates()[date].kind
    else if dayOfWeek == 0 then SUNDAY
    else if Any(ClassRanges(), (range: DateRange) => InRange(range, date)) then CLASSES
    else NONE
  }

  /**
    With the semester's tables, a day is CLASSES exactly when it has no
    special entry, is not a Sunday and lies in a class range; it is SUNDAY
    exactly when it has no special entry and is a Sunday. So CLASSES is never
    the answer on a Sunday.
   */
  lemma ClassesOnlyOnRangeWeekdays(date: Date, dayOfWeek: int)
    ensures GetDayType(date, dayOfWeek) == CLASSES <==>
      date !in SpecialDates() && dayOfWeek != 0 && exists i :: 0 <= i < |ClassRanges()| && InRange(ClassRanges()[i], date)
    ensures GetDayType(date, dayOfWeek) == SUNDAY <==> date !in SpecialDates() && dayOfWeek == 0
    ensures dayOfWeek == 0 ==> GetDayType(date, dayOfWeek) != CLASSES
  {
    SpecialDateKinds();
  }

  /** Exam days classify as EXAM whatever their weekday, and never as class days. */
  lemma ExamDaysAreExams(date: Date, dayOfWeek: int)
    requires date in SpecialDates() && SpecialDates()[date].kind == EXAM
    ensures GetDayType(date, dayOfWeek) == EXAM
    ensures forall i :: 0 <= i < |ClassRanges()| ==> !InRange(ClassRanges()[i], date)
  {
    ExamsOutsideClassRanges();
  }

  /** 2026-03-04 opens the second class range, yet the holiday entry wins. */
  lemma HoliIsHolidayNotClasses()
    ensures InRange(ClassRanges()[1], Date(2026, 3, 4))
    ensures GetDayType(Date(2026, 3, 4), Weekday(Date(2026, 3, 4))) == HOLIDAY
  {
    HoliOpensSecondRange();
  }

  /**
    The `days` array of a month grid, built from the month's `firstDay` and
    `daysInMonth`: that many empty cells, then the day numbers 1 .. daysInMonth
    in order.
   */
  method BuildMonthDays(firstDay: int, daysInMonth: int) returns (days: seq<Option<int>>)
    requires 0 <= firstDay && 0 <= daysInMonth
    ensures |days| == firstDay + daysInMonth
    ensures forall i :: 0 <= i < firstDay ==> days[i] == None
    ensures forall i :: firstDay <= i < |days| ==> days[i] == Some(i - firstDay + 1)
  {
    days := [];
    var i := 0;
    while i < firstDay
      invariant 0 <= i <= firstDay
      invariant |days| == i
      invariant forall k :: 0 <= k < i ==> days[k] == None
    {
      days := days + [None];
      i := i + 1;
    }
    i := 1;
    while i <= daysInMonth
      invariant 1 <= i <= daysInMonth + 1
      invariant |days| == firstDay + i - 1
      invariant forall k :: 0 <= k < firstDay ==> days[k] == None
      invariant forall k :: firstDay <= k < |days| ==> days[k] == Some(k - firstDay + 1)
    {
      days := days + [Some(i)];
      i := i + 1;
    }
  }

  /**
    The cell at index `i` holding day `d` sits in column `i % 7` under the
    SUN..SAT header, and that column is the `getDay()` of day `d` of the month,
    which is the date `new Date(year, monthIndex, d)` denotes
    (Dates.NormalizedDateInMonth).
   */
  lemma MonthGridColumnIsWeekday(year: int, monthIndex: int, i: int, d: int)
    requires year >= 1 && 0 <= monthIndex < 12
    requires 1 <= d <= GetDaysInMonth(year, monthIndex)
    requires i == GetFirstDayOfMonth(year, monthIndex) + d - 1
    ensures ValidDate(Date(year, monthIndex + 1, d))
    ensures Weekday(Date(year, monthIndex + 1, d)) == i % 7
  {
    ColumnOfDay(year, monthIndex + 1, i, d);
  }

  lemma ColumnOfDay(year: int, month: int, i: int, d: int)
    requires year >= 1 && 1 <= month <= 12
    requires 1 <= d <= DaysInMonth(year, month)
    requires i == Weekday(Date(year, month, 1)) + d - 1
    ensures ValidDate(Date(year, month, d))
    ensures Weekday(Date(year, month, d)) == i % 7
  {
    WeekdayInMonth(year, month, d);
  }
}
