/**
  The semester's constant tables (constants.ts): the semester bounds, the
  special dates, the two inclusive class-day ranges, and the seed subjects and
  weekly timetable, with what holds of them.
 */
module Constants {
  import opened Types
  import opened Dates

  const SemesterStart := Date(2026, 1, 1)
  const SemesterEnd := Date(2026, 7, 31)

  /** SPECIAL_DATES, keyed by calendar date instead of its "YYYY-MM-DD" text. */
  function SpecialDates(): map<Date, SpecialDate>
  {
    map[
      Date(2026, 1, 7) := SpecialDate(COMMENCEMENT, Some("Classes Begin")),
      Date(2026, 1, 26) := SpecialDate(HOLIDAY, Some("Republic Day")),
      Date(2026, 2, 23) := SpecialDate(EXAM, Some("Mid Sem")),
      Date(2026, 2, 24) := SpecialDate(EXAM, Some("Mid Sem")),
      Date(2026, 2, 25) := SpecialDate(EXAM, Some("Mid Sem")),
      Date(2026, 2, 26) := SpecialDate(EXAM, Some("Mid Sem")),
      Date(2026, 2, 27) := SpecialDate(EXAM, Some("Mid Sem")),
      Date(2026, 2, 28) := SpecialDate(EXAM, Some("Mid Sem")),
      Date(2026, 3, 2) := SpecialDate(EXAM, Some("Mid Sem")),
      Date(2026, 3, 3) := SpecialDate(EXAM, Some("Mid Sem")),
      Date(2026, 3, 4) := SpecialDate(HOLIDAY, Some("Holi")),
      Date(2026, 3, 19) := SpecialDate(HOLIDAY, Some("Gudi Padava")),
      Date(2026, 3, 21) := SpecialDate(HOLIDAY, Some("Id-ul-Fitr")),
      Date(2026, 3, 26) := SpecialDate(HOLIDAY, Some("Ram Navami")),
      Date(2026, 3, 31) := SpecialDate(HOLIDAY, Some("Mahavir Jayanti")),
      Date(2026, 4, 3) := SpecialDate(HOLIDAY, Some("Good Friday")),
      Date(2026, 4, 14) := SpecialDate(HOLIDAY, Some("Ambedkar Jayanti")),
      Date(2026, 4, 27) := SpecialDate(EXAM, Some("End Sem")),
      Date(2026, 4, 28) := SpecialDate(EXAM, Some("End Sem")),
      Date(2026, 4, 29) := SpecialDate(EXAM, Some("End Sem")),
      Date(2026, 4, 30) := SpecialDate(EXAM, Some("End Sem")),
      Date(2026, 5, 1) := SpecialDate(HOLIDAY, Some("Maharashtra Day")),
      Date(2026, 5, 2) := SpecialDate(EXAM, Some("End Sem")),
      Date(2026, 5, 4) := SpecialDate(EXAM, Some("End Sem")),
      Date(2026, 5, 5) := SpecialDate(EXAM, Some("End Sem")),
      Date(2026, 5, 6) := SpecialDate(EXAM, Some("End Sem")),
      Date(2026, 5, 20) := SpecialDate(RE_EXAM, Some("Re-Exam")),
      Date(2026, 5, 21) := SpecialDate(RE_EXAM, Some("Re-Exam")),
      Date(2026, 5, 22) := SpecialDate(RE_EXAM, Some("Re-Exam")),
      Date(2026, 5, 23) := SpecialDate(RE_EXAM, Some("Re-Exam")),
      Date(2026, 5, 27) := SpecialDate(HOLIDAY, Some("Id-ul-Zuha")),
      Date(2026, 6, 26) := SpecialDate(HOLIDAY, Some("Muharram"))
    ]
  }

  /** CLASS_RANGES, in their written order. */
  function ClassRanges(): seq<DateRange>
  {
    [DateRange(Date(2026, 1, 8), Date(2026, 2, 21)), DateRange(Date(2026, 3, 4), Date(2026, 4, 24))]
  }

  function InitialSubjects(): seq<Subject>
  {
    [
      Subject("FEM", "FEM", "Finite Element Method", "#10b981", None),
      Subject("HM", "HM", "Heat Transfer", "#3b82f6", None),
      Subject("DE", "DE", "Design Engineering", "#8b5cf6", None),
      Subject("PM", "PM", "Production Management", "#f59e0b", None),
      Subject("CM", "CM", "Computational Methods", "#ec4899", None),
      Subject("TP", "TP", "Thermal Power", "#06b6d4", None),
      Subject("TTHT", "TTHT", "Thermal Turbo", "#ef4444", None),
      Subject("LUNCH", "LUNCH", "Lunch Break", "#64748b", None)
    ]
  }

  /**
    INITIAL_TIMETABLE. The source draws each slot id at random when the module
    loads; here the thirty ids are supplied by the caller.
   */
  function InitialTimetable(ids: seq<string>): (r: seq<CourseSlot>)
    requires |ids| == 30
    ensures |r| == 30 && forall i :: 0 <= i < 30 ==> r[i].id == ids[i]
  {
    [
      CourseSlot(ids[0], "FEM", LECTURE, Time(8, 0), Time(9, 0), 1, Monday),
      CourseSlot(ids[1], "HM", LECTURE, Time(10, 0), Time(11, 0), 1, Monday),
      CourseSlot(ids[2], "DE", LECTURE, Time(11, 0), Time(12, 0), 1, Monday),
      CourseSlot(ids[3], "PM", LECTURE, Time(12, 0), Time(13, 0), 1, Monday),
      CourseSlot(ids[4], "LUNCH", LUNCH, Time(13, 0), Time(14, 0), 1, Monday),
      CourseSlot(ids[5], "TTHT", LAB, Time(14, 0), Time(16, 0), 2, Monday),
      CourseSlot(ids[6], "TP", LAB, Time(16, 0), Time(18, 0), 2, Monday),
      CourseSlot(ids[7], "FEM", LECTURE, Time(9, 0), Time(10, 0), 1, Tuesday),
      CourseSlot(ids[8], "CM", LECTURE, Time(10, 0), Time(11, 0), 1, Tuesday),
      CourseSlot(ids[9], "TP", LECTURE, Time(11, 0), Time(12, 0), 1, Tuesday),
      CourseSlot(ids[10], "TTHT", LECTURE, Time(12, 0), Time(13, 0), 1, Tuesday),
      CourseSlot(ids[11], "LUNCH", LUNCH, Time(13, 0), Time(14, 0), 1, Tuesday),
      CourseSlot(ids[12], "CM", LECTURE, Time(8, 0), Time(9, 0), 1, Wednesday),
      CourseSlot(ids[13], "HM", LECTURE, Time(10, 0), Time(11, 0), 1, Wednesday),
      CourseSlot(ids[14], "TP", LECTURE, Time(11, 0), Time(12, 0), 1, Wednesday),
      CourseSlot(ids[15], "TTHT", LECTURE, Time(12, 0), Time(13, 0), 1, Wednesday),
      CourseSlot(ids[16], "LUNCH", LUNCH, Time(13, 0), Time(14, 0), 1, Wednesday),
      CourseSlot(ids[17], "HM", LECTURE, Time(8, 0), Time(9, 0), 1, Thursday),
      CourseSlot(ids[18], "PM", LECTURE, Time(9, 0), Time(10, 0), 1, Thursday),
      CourseSlot(ids[19], "DE", LECTURE, Time(10, 0), Time(11, 0), 1, Thursday),
      CourseSlot(ids[20], "FEM", LECTURE, Time(11, 0), Time(12, 0), 1, Thursday),
      CourseSlot(ids[21], "CM", LECTURE, Time(12, 0), Time(13, 0), 1, Thursday),
      CourseSlot(ids[22], "LUNCH", LUNCH, Time(13, 0), Time(14, 0), 1, Thursday),
      CourseSlot(ids[23], "PM", LAB, Time(14, 0), Time(16, 0), 2, Thursday),
      CourseSlot(ids[24], "PM", LECTURE, Time(9, 0), Time(10, 0), 1, Friday),
      CourseSlot(ids[25], "DE", LECTURE, Time(10, 0), Time(11, 0), 1, Friday),
      CourseSlot(ids[26], "TTHT", LECTURE, Time(11, 0), Time(12, 0), 1, Friday),
      CourseSlot(ids[27], "TP", LECTURE, Time(12, 0), Time(13, 0), 1, Friday),
      CourseSlot(ids[28], "LUNCH", LUNCH, Time(13, 0), Time(14, 0), 1, Friday),
      CourseSlot(ids[29], "CM", LECTURE, Time(16, 0), Time(17, 0), 1, Friday)
    ]
  }

  /** Every special date is a real calendar date within the semester. */
  lemma SpecialDatesWithinSemester()
    ensures forall d :: d in SpecialDates() ==> ValidDate(d) && DateLe(SemesterStart, d) && DateLe(d, SemesterEnd)
  {
  }

  /**
    The table only marks commencement, holidays, exams and re-exams: it never
    says CLASSES, SUNDAY or NONE, so those come from the classifier's later rules.
   */
  lemma SpecialDateKinds()
    ensures forall d :: d in SpecialDates() ==> SpecialDates()[d].kind in {COMMENCEMENT, HOLIDAY, EXAM, RE_EXAM}
  {
  }

  /** Both ranges are well formed, the first ends before the second starts, and no date is in both. */
  lemma ClassRangesOrdered()
    ensures |ClassRanges()| == 2
    ensures forall i :: 0 <= i < 2 ==> ValidDate(ClassRanges()[i].start) && ValidDate(ClassRanges()[i].end) && DateLe(ClassRanges()[i].start, ClassRanges()[i].end)
    ensures DateLe(ClassRanges()[0].end, ClassRanges()[1].start) && ClassRanges()[0].end != ClassRanges()[1].start
    ensures forall d :: !(InRange(ClassRanges()[0], d) && InRange(ClassRanges()[1], d))
  {
  }

  /** No exam day falls inside a class range. */
  lemma ExamsOutsideClassRanges()
    ensures forall d, i :: d in SpecialDates() && SpecialDates()[d].kind == EXAM && 0 <= i < |ClassRanges()| ==> !InRange(ClassRanges()[i], d)
  {
  }

  /** 2026-03-04 (Holi) is a holiday and also the first day of the second class range. */
  lemma HoliOpensSecondRange()
    ensures Date(2026, 3, 4) in SpecialDates() && SpecialDates()[Date(2026, 3, 4)].kind == HOLIDAY
    ensures InRange(ClassRanges()[1], Date(2026, 3, 4)) && ClassRanges()[1].start == Date(2026, 3, 4)
  {
  }

  /** Seed subjects have distinct ids and each id equals its code. */
  lemma InitialSubjectsKeyedByCode()
    ensures forall j :: 0 <= j < |InitialSubjects()| ==> InitialSubjects()[j].id == InitialSubjects()[j].code
    ensures forall j, k :: 0 <= j < k < |InitialSubjects()| ==> InitialSubjects()[j].id != InitialSubjects()[k].id
  {
  }

  /** Every seed slot starts on the hour and ends `duration` hours later. */
  lemma InitialSlotsSpanDuration(ids: seq<string>)
    requires |ids| == 30
    ensures forall i :: 0 <= i < 30 ==>
      var s := InitialTimetable(ids)[i];
      1 <= s.duration && s.start.minute == 0 && s.end == Time(s.start.hour + s.duration, 0)
  {
  }

  /** Every seed slot names a seed subject. */
  lemma InitialSlotsNameSubjects(ids: seq<string>)
    requires |ids| == 30
    ensures forall i :: 0 <= i < 30 ==>
      exists j :: 0 <= j < |InitialSubjects()| && InitialSubjects()[j].id == InitialTimetable(ids)[i].subjectId
  {
    var t, subjects := InitialTimetable(ids), InitialSubjects();
    forall i | 0 <= i < 30
      ensures exists j :: 0 <= j < |subjects| && subjects[j].id == t[i].subjectId
    {
      SeedSubjectListed(t[i].subjectId);
    }
  }

  lemma SeedSubjectListed(k: string)
    requires k in ["FEM", "HM", "DE", "PM", "CM", "TP", "TTHT", "LUNCH"]
    ensures exists j :: 0 <= j < |InitialSubjects()| && InitialSubjects()[j].id == k
  {
    var subjects := InitialSubjects();
    if k == "FEM" { assert subjects[0].id == k; }
    else if k == "HM" { assert subjects[1].id == k; }
    else if k == "DE" { assert subjects[2].id == k; }
    else if k == "PM" { assert subjects[3].id == k; }
    else if k == "CM" { assert subjects[4].id == k; }
    else if k == "TP" { assert subjects[5].id == k; }
    else if k == "TTHT" { assert subjects[6].id == k; }
    else { assert subjects[7].id == k; }
  }

  /** Two slots on the same weekday whose [start, end) intervals intersect. */
  predicate Overlap(a: CourseSlot, b: CourseSlot)
  {
    a.day == b.day && a.start.Minutes() < b.end.Minutes() && b.start.Minutes() < a.end.Minutes()
  }

  /** Within each weekday no two seed slots overlap. */
  lemma InitialSlotsDoNotOverlap(ids: seq<string>)
    requires |ids| == 30
    ensures forall i, j :: 0 <= i < j < 30 ==> !Overlap(InitialTimetable(ids)[i], InitialTimetable(ids)[j])
  {
    var t := InitialTimetable(ids);
    InitialTimetableChained(ids);
    forall i, j | 0 <= i < j < 30
      ensures !Overlap(t[i], t[j])
    {
      if t[i].day == t[j].day {
        ChainedApart(t, i, j);
      }
    }
  }

  lemma InitialTimetableChained(ids: seq<string>)
    requires |ids| == 30
    ensures Chained(InitialTimetable(ids))
  {
    InitialSlotsNonEmpty(ids);
    InitialSlotsInDayOrder(ids);
    InitialSlotsEndBeforeNext(ids);
  }

  lemma InitialSlotsNonEmpty(ids: seq<string>)
    requires |ids| == 30
    ensures forall i :: 0 <= i < 30 ==> InitialTimetable(ids)[i].start.Minutes() < InitialTimetable(ids)[i].end.Minutes()
  {
  }

  lemma InitialSlotsInDayOrder(ids: seq<string>)
    requires |ids| == 30
    ensures forall i :: 0 <= i < 29 ==> DayIndex(InitialTimetable(ids)[i].day) <= DayIndex(InitialTimetable(ids)[i + 1].day)
  {
  }

  lemma InitialSlotsEndBeforeNext(ids: seq<string>)
    requires |ids| == 30
    ensures forall i :: 0 <= i < 29 ==> InitialTimetable(ids)[i].day == InitialTimetable(ids)[i + 1].day ==>
      InitialTimetable(ids)[i].end.Minutes() <= InitialTimetable(ids)[i + 1].start.Minutes()
  {
  }

  /**
    Slots listed weekday by weekday, each non-empty and each ending no later
    than the next one on the same weekday starts.
   */
  predicate Chained(s: seq<CourseSlot>)
  {
    (forall i :: 0 <= i < |s| ==> s[i].start.Minutes() < s[i].end.Minutes())
    && forall i :: 0 <= i < |s| - 1 ==>
      DayIndex(s[i].day) <= DayIndex(s[i + 1].day)
      && (s[i].day == s[i + 1].day ==> s[i].end.Minutes() <= s[i + 1].start.Minutes())
  }

  lemma {:induction false} ChainedDays(s: seq<CourseSlot>, i: int, j: int)
    requires Chained(s) && 0 <= i <= j < |s|
    ensures DayIndex(s[i].day) <= DayIndex(s[j].day)
    decreases j - i
  {
    if i < j {
      ChainedDays(s, i + 1, j);
    }
  }

  lemma {:induction false} ChainedApart(s: seq<CourseSlot>, i: int, j: int)
    requires Chained(s) && 0 <= i < j < |s| && s[i].day == s[j].day
    ensures s[i].end.Minutes() <= s[j].start.Minutes()
    decreases j - i
  {
    if i + 1 < j {
      ChainedDays(s, i, j - 1);
      DayNameRoundTrip(s[j - 1].day);
      DayNameRoundTrip(s[j].day);
      ChainedApart(s, i, j - 1);
    }
  }
}
