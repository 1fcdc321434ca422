/**
  The weekly grid (components/TimetableView.tsx): the seven dates of the
  current Monday-to-Sunday week, the occurrence shown in the cell of a date
  and an hour, and whether that cell is hidden under a longer class that
  started in an earlier row.
 */
module TimetableView {
  import opened Types
  import opened Seqs
  import opened Dates
  import opened PlannerContext
  import TodayView

  /**
    The grid's `currentWeekDates`: step `today` back to the Monday on or
    before it (a Sunday goes back six days), then push that Monday and the six
    days after it.
   */
  method CurrentWeekDates(today: Date) returns (dates: seq<Date>)
    requires ValidDate(today)
    ensures |dates| == 7
    ensures forall i :: 0 <= i < 7 ==> ValidDate(dates[i])
    ensures forall i :: 0 <= i < 7 ==> DayNumber(dates[i]) == DayNumber(today) - (Weekday(today) + 6) % 7 + i
    ensures forall i :: 0 <= i < 7 ==> Weekday(dates[i]) == (i + 1) % 7
    ensures dates[(Weekday(today) + 6) % 7] == today
  {
    var day := Weekday(today);
    var offset := -day + (if day == 0 then -6 else 1);
    OffsetLandsOnWeekStart(today, day, offset);
    var monday := AddDays(today, offset);
    dates := [];
    var i := 0;
    while i < 7
      invariant 0 <= i <= 7 && |dates| == i
      invariant forall k :: 0 <= k < i ==> dates[k] == AddDays(monday, k)
    {
      dates := dates + [AddDays(monday, i)];
      i := i + 1;
    }
    WeekFromMonday(today, dates);
  }

  /** The grid's offset from `today` leads to the Monday on or before it. */
  lemma OffsetLandsOnWeekStart(today: Date, day: int, offset: int)
    requires ValidDate(today) && day == Weekday(today)
    requires offset == -day + (if day == 0 then -6 else 1)
    ensures DayNumber(today) + offset >= 0
    ensures AddDays(today, offset) == WeekStart(today)
  {
    BackToMonday(day);
    MondayOnOrBefore(today);
  }

  /** Seven days counted from the Monday on or before `today` are Monday to Sunday and include `today`. */
  lemma WeekFromMonday(today: Date, dates: seq<Date>)
    requires ValidDate(today)
    requires |dates| == 7 && forall k :: 0 <= k < 7 ==> dates[k] == AddDays(WeekStart(today), k)
    ensures forall i :: 0 <= i < 7 ==> ValidDate(dates[i])
    ensures forall i :: 0 <= i < 7 ==> DayNumber(dates[i]) == DayNumber(today) - (Weekday(today) + 6) % 7 + i
    ensures forall i :: 0 <= i < 7 ==> Weekday(dates[i]) == (i + 1) % 7
    ensures dates[(Weekday(today) + 6) % 7] == today
  {
    var monday, back := WeekStart(today), (Weekday(today) + 6) % 7;
    forall i | 0 <= i < 7
      ensures ValidDate(dates[i]) && DayNumber(dates[i]) == DayNumber(monday) + i
      ensures Weekday(dates[i]) == (i + 1) % 7
    {
      WeekdayFromMonday(monday, i);
    }
    assert DayNumber(dates[back]) == DayNumber(today);
    DateLeIsDayNumberOrder(dates[back], today);
  }

  /**
    `today.setDate(today.getDate() + offset)` with the offset the grid
    computes: the Monday on or before `today`.
   */
  function WeekStart(today: Date): (monday: Date)
    requires ValidDate(today)
    ensures ValidDate(monday) && Weekday(monday) == 1 && DayNumber(monday) >= 0
    ensures DayNumber(monday) == DayNumber(today) - (Weekday(today) + 6) % 7
  {
    var day := Weekday(today);
    MondayOnOrBefore(today);
    WeekdayAfter(today, -((day + 6) % 7));
    BackToMonday(day);
    AddDays(today, -((day + 6) % 7))
  }

  /** Day `k` of a week that starts on a Monday falls on weekday `(k + 1) % 7`. */
  lemma WeekdayFromMonday(monday: Date, k: nat)
    requires ValidDate(monday) && Weekday(monday) == 1
    ensures DayNumber(monday) + k >= 0
    ensures ValidDate(AddDays(monday, k)) && DayNumber(AddDays(monday, k)) == DayNumber(monday) + k
    ensures Weekday(AddDays(monday, k)) == (k + 1) % 7
  {
    WeekdayAfter(monday, k);
  }

  /**
    The grid's offset `-day + (day == 0 ? -6 : 1)` goes back `(day + 6) % 7`
    days and lands on a Monday.
   */
  lemma BackToMonday(day: int)
    requires 0 <= day < 7
    ensures -day + (if day == 0 then -6 else 1) == -((day + 6) % 7)
    ensures (day - (day + 6) % 7) % 7 == 1
  {
    if day == 0 {
      assert (day + 6) % 7 == 6;
    } else {
      assert (day + 6) % 7 == day - 1 by {
        ShiftMod7(1, day - 1);
      }
    }
  }

  /** Day numbers count from a Monday, so stepping back to Monday never leaves the calendar. */
  lemma MondayOnOrBefore(today: Date)
    requires ValidDate(today)
    ensures DayNumber(today) - (Weekday(today) + 6) % 7 >= 0
  {
    MondayStep(DayNumber(today), Weekday(today));
  }

  /**
    Going back from day `n`, whose `getDay()` is `w`, to the preceding Monday
    lands on a multiple of seven.
   */
  lemma MondayStep(n: int, w: int)
    requires n >= 0 && w == (n + 1) % 7
    ensures (w + 6) % 7 == n % 7
    ensures n - (w + 6) % 7 >= 0
  {
    var q, r := n / 7, n % 7;
    assert n == 7 * q + r;
    ShiftMod7(q, r + 1);
    if r < 6 {
      assert w == r + 1;
      ShiftMod7(1, r);
    } else {
      assert w == 0;
    }
  }

  /** An extra on `date` whose `parseInt(startTime)` is `hour`. */
  predicate ExtraAt(e: ExtraClass, date: Date, hour: int)
  {
    e.date == date && e.start.hour == hour
  }

  /** A template slot of `dayName` whose start-time hour is `hour`. */
  predicate RecurringAt(s: CourseSlot, dayName: DayName, hour: int)
  {
    s.day == dayName && s.start.hour == hour
  }

  /**
    `getSlotForCell(dateStr, dayName, hour)`: the first extra on that date
    starting at that hour shadows the template; otherwise the first template
    slot of that weekday starting at that hour, flagged cancelled when a
    cancellation names that date and slot; otherwise nothing. The hour of an
    "HH:MM" start time is what `parseInt` reads (Text.ParseIntReadsHour).
   */
  function GetSlotForCell(timetable: seq<CourseSlot>, extraClasses: seq<ExtraClass>, cancellations: seq<Cancellation>,
                          date: Date, dayName: DayName, hour: int): (r: Option<Occurrence>)
    ensures r.Some? && r.value.source.Extra? <==> exists e :: e in extraClasses && ExtraAt(e, date, hour)
    ensures r.Some? && r.value.source.Extra? ==>
      !r.value.isCancelled
      && exists i :: 0 <= i < |extraClasses| && extraClasses[i] == r.value.source.extra && ExtraAt(extraClasses[i], date, hour)
                     && forall j :: 0 <= j < i ==> !ExtraAt(extraClasses[j], date, hour)
    ensures r.Some? && r.value.source.Recurring? ==>
      (r.value.isCancelled <==> exists c :: c in cancellations && Cancels(c, date, r.value.source.slot.id))
      && exists i :: 0 <= i < |timetable| && timetable[i] == r.value.source.slot && RecurringAt(timetable[i], dayName, hour)
                     && forall j :: 0 <= j < i ==> !RecurringAt(timetable[j], dayName, hour)
    ensures r.None? <==>
      (forall e :: e in extraClasses ==> !ExtraAt(e, date, hour)) && (forall s :: s in timetable ==> !RecurringAt(s, dayName, hour))
  {
    match Find(extraClasses, (e: ExtraClass) => ExtraAt(e, date, hour))
    case Some(e) => Some(Occurrence(Extra(e), false))
    case None =>
      match Find(timetable, (s: CourseSlot) => RecurringAt(s, dayName, hour))
      case Some(s) =>
        assert IsCancelled(cancellations, date, s.id) <==> exists c :: c in cancellations && Cancels(c, date, s.id) by {
          if IsCancelled(cancellations, date, s.id) {
            var k :| 0 <= k < |cancellations| && Cancels(cancellations[k], date, s.id);
            assert cancellations[k] in cancellations;
          }
          if c :| c in cancellations && Cancels(c, date, s.id) {
            var k :| 0 <= k < |cancellations| && cancellations[k] == c;
          }
        }
        Some(Occurrence(Recurring(s), IsCancelled(cancellations, date, s.id)))
      case None => None
  }

  /** The occurrence in the cell at row `h` reaches down past row `hour`. */
  predicate Spans(cell: Option<Occurrence>, h: int, hour: int)
  {
    cell.Some? && h + cell.value.source.Duration() > hour
  }

  /** Some row from 8 up to `hour - 1` holds an occurrence that reaches past `hour`. */
  predicate CoveredAt(timetable: seq<CourseSlot>, extraClasses: seq<ExtraClass>, cancellations: seq<Cancellation>,
                      date: Date, dayName: DayName, hour: int)
  {
    exists h :: 8 <= h < hour && Spans(GetSlotForCell(timetable, extraClasses, cancellations, date, dayName, h), h, hour)
  }

  /**
    `isCovered(dateStr, dayName, hour)`: scans the rows from 8 up to `hour - 1`
    and stops at the first whose occurrence lasts past `hour`. The first row
    (8:00) is never covered.
   */
  method IsCovered(timetable: seq<CourseSlot>, extraClasses: seq<ExtraClass>, cancellations: seq<Cancellation>,
                   date: Date, dayName: DayName, hour: int) returns (covered: bool)
    ensures covered <==> CoveredAt(timetable, extraClasses, cancellations, date, dayName, hour)
    ensures hour <= 8 ==> !covered
  {
    var h := 8;
    while h < hour
      invariant 8 <= h && (h <= hour || h == 8)
      invariant forall k :: 8 <= k < h ==> !Spans(GetSlotForCell(timetable, extraClasses, cancellations, date, dayName, k), k, hour)
    {
      var slot := GetSlotForCell(timetable, extraClasses, cancellations, date, dayName, h);
      if slot.Some? && h + slot.value.source.Duration() > hour {
        assert Spans(slot, h, hour);
        return true;
      }
      h := h + 1;
    }
    return false;
  }

  /**
    An occurrence of duration `d` drawn at row `h` hides the cells of the
    same column in rows `h + 1` .. `h + d - 1`.
   */
  lemma SpanHidesFollowingRows(timetable: seq<CourseSlot>, extraClasses: seq<ExtraClass>, cancellations: seq<Cancellation>,
                               date: Date, dayName: DayName, h: int, hour: int)
    requires 8 <= h < hour
    requires GetSlotForCell(timetable, extraClasses, cancellations, date, dayName, h).Some?
    requires hour < h + GetSlotForCell(timetable, extraClasses, cancellations, date, dayName, h).value.source.Duration()
    ensures CoveredAt(timetable, extraClasses, cancellations, date, dayName, hour)
  {
    assert Spans(GetSlotForCell(timetable, extraClasses, cancellations, date, dayName, h), h, hour);
  }

  /**
    The grid and today's list agree: on today's column (headed by today's
    weekday name), an occurrence shown without the cancelled flag is on
    today's timeline, and one shown cancelled is a template slot today's
    timeline leaves out.
   */
  lemma CellAgreesWithToday(timetable: seq<CourseSlot>, extraClasses: seq<ExtraClass>, cancellations: seq<Cancellation>,
                            today: Date, hour: int)
    requires ValidDate(today)
    requires GetSlotForCell(timetable, extraClasses, cancellations, today, DayNameOf(Weekday(today)), hour).Some?
    ensures var o := GetSlotForCell(timetable, extraClasses, cancellations, today, DayNameOf(Weekday(today)), hour).value;
      (o.source in TodayView.TodaysSlots(timetable, extraClasses, cancellations, today) <==> !o.isCancelled)
  {
    var o := GetSlotForCell(timetable, extraClasses, cancellations, today, DayNameOf(Weekday(today)), hour).value;
    TodayView.TodaysSlotsMembers(timetable, extraClasses, cancellations, today);
    if o.source.Extra? {
      var i :| 0 <= i < |extraClasses| && extraClasses[i] == o.source.extra && ExtraAt(extraClasses[i], today, hour);
      assert o.source.extra in extraClasses;
    } else {
      var i :| 0 <= i < |timetable| && timetable[i] == o.source.slot && RecurringAt(timetable[i], DayNameOf(Weekday(today)), hour);
      assert o.source.slot in timetable;
      var slot := o.source.slot;
      assert IsCancelled(cancellations, today, slot.id) <==> exists c :: c in cancellations && Cancels(c, today, slot.id) by {
        if IsCancelled(cancellations, today, slot.id) {
          var k :| 0 <= k < |cancellations| && Cancels(cancellations[k], today, slot.id);
          assert cancellations[k] in cancellations;
        }
        if c :| c in cancellations && Cancels(c, today, slot.id) {
          var k :| 0 <= k < |cancellations| && cancellations[k] == c;
        }
      }
    }
  }
}
