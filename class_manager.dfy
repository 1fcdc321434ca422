/**
  The class manager (components/ClassManager.tsx): the end time of a new or
  moved class, the add-class and add-subject forms, the reschedule dialog's
  sequence of store mutations, and the list of the next seven days' classes.
 */
module ClassManager {
  import opened Types
  import opened Seqs
  import opened Dates
  import opened Text
  import opened PlannerContext
  import TodayView

  /**
    The end of a class starting at `start` and lasting `duration` hours:
    `endHour = startHour + duration`, on the hour.
   */
  function EndTimeOf(start: Time, duration: int): (r: Time)
    ensures r.Minutes() == start.Minutes() - start.minute + 60 * duration
    ensures ValidTime(start) && 0 <= start.hour + duration < 100 ==> ValidTime(r)
  {
    Time(start.hour + duration, 0)
  }

  /**
    `${String(endHour).padStart(2, '0')}:00` is five characters, the
    two-digit end hour then ":00", and reads back as the end hour, which lies
    `duration` hours after the start hour.
   */
  lemma EndTimeText(start: Time, duration: int)
    requires ValidTime(start) && 0 <= start.hour + duration < 100
    ensures FormatTime(EndTimeOf(start, duration)) == PadStart2(start.hour + duration) + ":00"
    ensures |FormatTime(EndTimeOf(start, duration))| == 5
    ensures ParseInt(FormatTime(EndTimeOf(start, duration))) == start.hour + duration
    ensures EndTimeOf(start, duration).hour - start.hour == duration
  {
    PadStart2RoundTrip(start.hour + duration);
    assert PadStart2(0) == "00" by {
      assert DecimalString(0) == ['0'];
    }
    ParseIntReadsHour(EndTimeOf(start, duration));
  }

  /**
    `AddClassForm.handleSubmit`: appends a template slot ending `duration`
    hours after its start. `id` stands for the random id the source draws.
   */
  method HandleAddClass(p: Planner, id: string, subjectId: string, day: DayName, start: Time, duration: int, kind: ExtraType)
    requires forall s :: s in p.timetable ==> s.id != id
    modifies p
    ensures p.State() == old(p.State()).(timetable := old(p.timetable) + [CourseSlot(id, subjectId, kind, start, EndTimeOf(start, duration), duration, day)])
    ensures p.timetable[|p.timetable| - 1].end.hour == start.hour + duration
  {
    var endTime := EndTimeOf(start, duration);
    p.AddSlot(CourseSlot(id, subjectId, kind, start, endTime, duration, day));
  }

  /** ASCII upper-casing of one character. */
  function UpperChar(c: char): (u: char)
    ensures !('a' <= u <= 'z')
    ensures 'a' <= c <= 'z' ==> u as int == c as int - 32
    ensures !('a' <= c <= 'z') ==> u == c
  {
    if 'a' <= c <= 'z' then (c as int - 32) as char else c
  }

  /** `toUpperCase()` on ASCII text. */
  function ToUpper(s: string): (r: string)
    ensures |r| == |s|
    ensures forall i :: 0 <= i < |s| ==> r[i] == UpperChar(s[i])
    ensures forall i :: 0 <= i < |r| ==> !('a' <= r[i] <= 'z')
  {
    Map(s, UpperChar)
  }

  /** Upper-casing twice is upper-casing once, so a code stored upper-cased shows as stored. */
  lemma ToUpperIdempotent(s: string)
    ensures ToUpper(ToUpper(s)) == ToUpper(s)
  {
    var u := ToUpper(s);
    assert forall i :: 0 <= i < |u| ==> ToUpper(u)[i] == UpperChar(u[i]) == u[i];
  }

  /** The subject the add-subject form creates: id and code are the upper-cased input. */
  function NewSubject(code: string): Subject
  {
    Subject(ToUpper(code), ToUpper(code), "New Subject", "#94a3b8", None)
  }

  /** `handleAddSubject`: an empty code does nothing, any other adds `NewSubject(code)`. */
  method HandleAddSubject(p: Planner, newSubCode: string)
    modifies p
    ensures newSubCode == [] ==> p.State() == old(p.State())
    ensures newSubCode != [] ==> p.State() == old(p.State()).(subjects := old(p.subjects) + [NewSubject(newSubCode)])
  {
    if newSubCode == [] {
      return;
    }
    p.AddSubject(Subject(ToUpper(newSubCode), ToUpper(newSubCode), "New Subject", "#94a3b8", None));
  }

  /**
    Subjects added by the form keep the list keyed by code, and the new
    subject is found under its upper-cased code unless an earlier subject
    already answers to it.
   */
  lemma NewSubjectKeyedByCode(subjects: seq<Subject>, code: string)
    ensures KeyedByCode(subjects) ==> KeyedByCode(subjects + [NewSubject(code)])
    ensures FindSubject(subjects + [NewSubject(code)], ToUpper(code)).Some?
    ensures (forall x :: x in subjects ==> x.id != ToUpper(code) && x.code != ToUpper(code)) ==>
      FindSubject(subjects + [NewSubject(code)], ToUpper(code)) == Some(NewSubject(code))
    ensures NewSubject(code).code == ToUpper(NewSubject(code).code)
  {
    var all := subjects + [NewSubject(code)];
    assert NewSubject(code) in all;
    ToUpperIdempotent(code);
    assert forall j :: 0 <= j < |subjects| ==> all[j] == subjects[j] && subjects[j] in subjects;
  }

  /**
    The occurrence the reschedule dialog was opened on: the slot or extra
    (`isExtra` is `source.Extra?`) and the date of the occurrence.
   */
  datatype RescheduleTarget = RescheduleTarget(source: Source, date: Date)

  /**
    The store after `RescheduleModal.handleSubmit`. Template mode (the box is
    ticked and the target is a template slot) replaces the slot by one on the
    weekday of the new date; instance mode cancels the occurrence (or deletes
    the extra) and adds an extra on the new date. `newId` and `cancelId`
    stand for the random ids the source draws.
   */
  function RescheduleEffect(s: Snapshot, target: RescheduleTarget, updateRecurring: bool, newDate: Date, newTime: Time,
                            duration: int, kind: ExtraType, newId: string, cancelId: string): (r: Snapshot)
    requires ValidDate(newDate)
    ensures r.subjects == s.subjects && r.notes == s.notes && r.customEvents == s.customEvents
    ensures updateRecurring && target.source.Recurring? ==>
      r.cancellations == s.cancellations && r.extraClasses == s.extraClasses
      && r.timetable != [] && r.timetable[|r.timetable| - 1] == MovedSlot(target, newDate, newTime, duration, kind, newId)
    ensures !(updateRecurring && target.source.Recurring?) ==>
      r.timetable == s.timetable
      && r.extraClasses != [] && r.extraClasses[|r.extraClasses| - 1] == MovedExtra(target, newDate, newTime, duration, kind, newId)
    ensures target.source.Extra? ==> r.cancellations == s.cancellations
    ensures !updateRecurring && target.source.Recurring? ==>
      r.cancellations == s.cancellations + [Cancellation(cancelId, target.date, target.source.Id())]
  {
    var id := target.source.Id();
    if updateRecurring && !target.source.Extra? then
      var removed := Filter(s.timetable, (slot: CourseSlot) => slot.id != id);
      s.(timetable := removed + [MovedSlot(target, newDate, newTime, duration, kind, newId)])
    else
      var s1 := if target.source.Extra? then s.(extraClasses := Filter(s.extraClasses, (e: ExtraClass) => e.id != id))
                else AfterCancelClass(s, cancelId, target.date, id);
      s1.(extraClasses := s1.extraClasses + [MovedExtra(target, newDate, newTime, duration, kind, newId)])
  }

  /** The template slot template mode adds: same subject, on the weekday of the new date. */
  function MovedSlot(target: RescheduleTarget, newDate: Date, newTime: Time, duration: int, kind: ExtraType, newId: string): (r: CourseSlot)
    requires ValidDate(newDate)
    ensures r.id == newId && r.subjectId == target.source.SubjectId()
    ensures DayIndex(r.day) == Weekday(newDate)
    ensures r.start == newTime && r.end.hour - r.start.hour == duration && r.duration == duration
  {
    CourseSlot(newId, target.source.SubjectId(), kind, newTime, EndTimeOf(newTime, duration), duration, DayNameOf(Weekday(newDate)))
  }

  /** The extra instance mode adds: same subject, on the new date. */
  function MovedExtra(target: RescheduleTarget, newDate: Date, newTime: Time, duration: int, kind: ExtraType, newId: string): (r: ExtraClass)
    ensures r.id == newId && r.subjectId == target.source.SubjectId() && r.date == newDate
    ensures r.start == newTime && r.end.hour - r.start.hour == duration && r.duration == duration
  {
    ExtraClass(newId, newDate, target.source.SubjectId(), kind, newTime, EndTimeOf(newTime, duration), duration)
  }

  /** `RescheduleModal.handleSubmit`: the ordered store mutations of either mode. */
  method Reschedule(p: Planner, target: RescheduleTarget, updateRecurring: bool, newDate: Date, newTime: Time,
                    duration: int, kind: ExtraType, newId: string, cancelId: string)
    requires ValidDate(newDate)
    requires forall c :: c in p.cancellations ==> c.id != cancelId
    modifies p
    ensures p.State() == RescheduleEffect(old(p.State()), target, updateRecurring, newDate, newTime, duration, kind, newId, cancelId)
  {
    ghost var before := p.State();
    var endTime := EndTimeOf(newTime, duration);
    if updateRecurring && !target.source.Extra? {
      p.RemoveSlot(target.source.Id());
      var newDay := DayNameOf(Weekday(newDate));
      p.AddSlot(CourseSlot(newId, target.source.SubjectId(), kind, newTime, endTime, duration, newDay));
      assert p.State() == RescheduleEffect(before, target, updateRecurring, newDate, newTime, duration, kind, newId, cancelId);
    } else {
      if target.source.Extra? {
        p.RemoveExtraClass(target.source.Id());
      } else {
        p.CancelClass(cancelId, target.date, target.source.Id());
      }
      p.AddExtraClass(ExtraClass(newId, newDate, target.source.SubjectId(), kind, newTime, endTime, duration));
      assert p.State() == RescheduleEffect(before, target, updateRecurring, newDate, newTime, duration, kind, newId, cancelId);
    }
  }

  /**
    Template mode removes every slot with the target's id, adds one slot of
    the same subject on the weekday of the new date, ending `duration` hours
    after its start, and touches nothing else.
   */
  lemma TemplateReschedule(s: Snapshot, target: RescheduleTarget, newDate: Date, newTime: Time,
                           duration: int, kind: ExtraType, newId: string, cancelId: string)
    requires ValidDate(newDate) && target.source.Recurring?
    ensures var a := RescheduleEffect(s, target, true, newDate, newTime, duration, kind, newId, cancelId);
      var slot := MovedSlot(target, newDate, newTime, duration, kind, newId);
      (forall x :: x in a.timetable <==> (x in s.timetable && x.id != target.source.Id()) || x == slot)
      && slot.subjectId == target.source.slot.subjectId && DayIndex(slot.day) == Weekday(newDate)
      && slot.end.hour - slot.start.hour == duration
      && a.(timetable := s.timetable) == s
  {
  }

  /**
    Template mode takes the old slot off every day's timeline (the new slot
    has a new id) and puts the new slot on the new date's timeline, since no
    cancellation can name its new id.
   */
  lemma TemplateRescheduleMovesTimeline(s: Snapshot, target: RescheduleTarget, newDate: Date, newTime: Time,
                                        duration: int, kind: ExtraType, newId: string, cancelId: string, day: Date)
    requires ValidDate(newDate) && ValidDate(day) && target.source.Recurring?
    requires newId != target.source.Id()
    requires forall c :: c in s.cancellations ==> c.slotId != newId
    ensures var a := RescheduleEffect(s, target, true, newDate, newTime, duration, kind, newId, cancelId);
      Recurring(target.source.slot) !in TodayView.TodaysSlots(a.timetable, a.extraClasses, a.cancellations, day)
      && Recurring(MovedSlot(target, newDate, newTime, duration, kind, newId))
           in TodayView.TodaysSlots(a.timetable, a.extraClasses, a.cancellations, newDate)
  {
    var a := RescheduleEffect(s, target, true, newDate, newTime, duration, kind, newId, cancelId);
    var slot := MovedSlot(target, newDate, newTime, duration, kind, newId);
    var id := target.source.Id();
    var removed := Filter(s.timetable, (slot: CourseSlot) => slot.id != id);
    assert a.timetable == removed + [slot] && a.cancellations == s.cancellations;
    assert target.source.slot !in a.timetable;
    assert slot in a.timetable;
    assert forall k :: 0 <= k < |s.cancellations| ==> s.cancellations[k] in s.cancellations;
    assert !IsCancelled(a.cancellations, newDate, newId);
    TodayView.TodaysSlotsMembers(a.timetable, a.extraClasses, a.cancellations, day);
    TodayView.TodaysSlotsMembers(a.timetable, a.extraClasses, a.cancellations, newDate);
  }

  /**
    Instance mode on a template slot appends one cancellation of the
    occurrence, appends one extra of the same subject on the new date, and
    leaves the template and everything else unchanged.
   */
  lemma InstanceRescheduleOfSlot(s: Snapshot, target: RescheduleTarget, newDate: Date, newTime: Time,
                                 duration: int, kind: ExtraType, newId: string, cancelId: string)
    requires ValidDate(newDate) && target.source.Recurring?
    ensures var a := RescheduleEffect(s, target, false, newDate, newTime, duration, kind, newId, cancelId);
      var extra := MovedExtra(target, newDate, newTime, duration, kind, newId);
      a.timetable == s.timetable
      && a.cancellations == s.cancellations + [Cancellation(cancelId, target.date, target.source.slot.id)]
      && IsCancelled(a.cancellations, target.date, target.source.slot.id)
      && a.extraClasses == s.extraClasses + [extra]
      && extra.subjectId == target.source.slot.subjectId && extra.date == newDate
      && a.(cancellations := s.cancellations, extraClasses := s.extraClasses) == s
  {
    var a := RescheduleEffect(s, target, false, newDate, newTime, duration, kind, newId, cancelId);
    assert Cancels(a.cancellations[|s.cancellations|], target.date, target.source.slot.id);
  }

  /**
    Instance mode on a template slot takes the occurrence off the timeline of
    its date and puts the moved class on the timeline of the new date.
   */
  lemma InstanceRescheduleMovesTimeline(s: Snapshot, target: RescheduleTarget, newDate: Date, newTime: Time,
                                        duration: int, kind: ExtraType, newId: string, cancelId: string)
    requires ValidDate(newDate) && ValidDate(target.date) && target.source.Recurring?
    ensures var a := RescheduleEffect(s, target, false, newDate, newTime, duration, kind, newId, cancelId);
      Recurring(target.source.slot) !in TodayView.TodaysSlots(a.timetable, a.extraClasses, a.cancellations, target.date)
      && Extra(MovedExtra(target, newDate, newTime, duration, kind, newId))
           in TodayView.TodaysSlots(a.timetable, a.extraClasses, a.cancellations, newDate)
  {
    var a := RescheduleEffect(s, target, false, newDate, newTime, duration, kind, newId, cancelId);
    InstanceRescheduleOfSlot(s, target, newDate, newTime, duration, kind, newId, cancelId);
    TodayView.TodaysSlotsMembers(a.timetable, a.extraClasses, a.cancellations, target.date);
    TodayView.TodaysSlotsMembers(a.timetable, a.extraClasses, a.cancellations, newDate);
    assert MovedExtra(target, newDate, newTime, duration, kind, newId) in a.extraClasses;
  }

  /**
    Rescheduling an extra removes every extra with its id and adds the moved
    one; the template and the cancellations are unchanged, so the old extra
    leaves the timeline of its date.
   */
  lemma InstanceRescheduleOfExtra(s: Snapshot, target: RescheduleTarget, updateRecurring: bool, newDate: Date, newTime: Time,
                                  duration: int, kind: ExtraType, newId: string, cancelId: string)
    requires ValidDate(newDate) && target.source.Extra? && newId != target.source.Id()
    ensures var a := RescheduleEffect(s, target, updateRecurring, newDate, newTime, duration, kind, newId, cancelId);
      var extra := MovedExtra(target, newDate, newTime, duration, kind, newId);
      (forall e :: e in a.extraClasses <==> (e in s.extraClasses && e.id != target.source.Id()) || e == extra)
      && a.(extraClasses := s.extraClasses) == s
      && (ValidDate(target.source.extra.date) ==>
            Extra(target.source.extra) !in TodayView.TodaysSlots(a.timetable, a.extraClasses, a.cancellations, target.source.extra.date))
  {
    var a := RescheduleEffect(s, target, updateRecurring, newDate, newTime, duration, kind, newId, cancelId);
    if ValidDate(target.source.extra.date) {
      TodayView.TodaysSlotsMembers(a.timetable, a.extraClasses, a.cancellations, target.source.extra.date);
    }
  }

  /**
    An entry of the upcoming list: the day, the slot or extra (`isExtra` is
    `source.Extra?`, `sortTime` is `TodayView.StartKey(source)`) and the
    cancelled flag.
   */
  datatype UpcomingItem = UpcomingItem(date: Date, source: Source, isCancelled: bool)

  /** The upcoming list skips template slots of type EMPTY and LUNCH. */
  predicate Listed(slot: CourseSlot)
  {
    slot.kind != EMPTY && slot.kind != LUNCH
  }

  /** The entries the recurring loop pushes for `slots` on `date`, in order. */
  function RecurringItems(slots: seq<CourseSlot>, cancellations: seq<Cancellation>, date: Date): (r: seq<UpcomingItem>)
    ensures forall x :: x in r <==>
      x.date == date && x.source.Recurring? && x.source.slot in slots && Listed(x.source.slot)
      && x.isCancelled == IsCancelled(cancellations, date, x.source.slot.id)
  {
    if slots == [] then []
    else
      var last := slots[|slots| - 1];
      assert forall y :: y in slots <==> y in slots[..|slots| - 1] || y == last by {
        assert slots == slots[..|slots| - 1] + [last];
      }
      RecurringItems(slots[..|slots| - 1], cancellations, date)
        + (if Listed(last) then [UpcomingItem(date, Recurring(last), IsCancelled(cancellations, date, last.id))] else [])
  }

  /** The entries the extras loop pushes for `extras` on `date`, in order; never flagged cancelled. */
  function ExtraItems(extras: seq<ExtraClass>, date: Date): (r: seq<UpcomingItem>)
    ensures |r| == |extras|
    ensures forall x :: x in r <==> x.date == date && x.source.Extra? && x.source.extra in extras && !x.isCancelled
  {
    if extras == [] then []
    else
      var last := extras[|extras| - 1];
      assert forall y :: y in extras <==> y in extras[..|extras| - 1] || y == last by {
        assert extras == extras[..|extras| - 1] + [last];
      }
      ExtraItems(extras[..|extras| - 1], date) + [UpcomingItem(date, Extra(last), false)]
  }

  /** The entries pushed for one day: its template slots, then its extras. */
  function DayItems(timetable: seq<CourseSlot>, cancellations: seq<Cancellation>, extraClasses: seq<ExtraClass>, date: Date): seq<UpcomingItem>
    requires ValidDate(date)
  {
    var dayName := DayNameOf(Weekday(date));
    RecurringItems(Filter(timetable, (s: CourseSlot) => s.day == dayName), cancellations, date)
      + ExtraItems(Filter(extraClasses, (e: ExtraClass) => e.date == date), date)
  }

  /** The `n` days from `today` on, in order: `today`, the day after, ... */
  function DaysFrom(today: Date, n: nat): (r: seq<Date>)
    requires ValidDate(today)
    ensures |r| == n
    ensures forall d :: d in r ==> ValidDate(d)
  {
    if n == 0 then [] else DaysFrom(today, n - 1) + [AddDays(today, n - 1)]
  }

  /** The entries pushed for the days of `dates`, day after day, before sorting. */
  function ItemsOn(timetable: seq<CourseSlot>, cancellations: seq<Cancellation>, extraClasses: seq<ExtraClass>, dates: seq<Date>): seq<UpcomingItem>
    requires forall d :: d in dates ==> ValidDate(d)
  {
    if dates == [] then []
    else
      var last := dates[|dates| - 1];
      assert last in dates;
      ItemsOn(timetable, cancellations, extraClasses, dates[..|dates| - 1]) + DayItems(timetable, cancellations, extraClasses, last)
  }

  /** The entries pushed for the first `n` days from `today`, before sorting. */
  function ItemsFrom(timetable: seq<CourseSlot>, cancellations: seq<Cancellation>, extraClasses: seq<ExtraClass>, today: Date, n: nat): seq<UpcomingItem>
    requires ValidDate(today)
  {
    ItemsOn(timetable, cancellations, extraClasses, DaysFrom(today, n))
  }

  /** Day `i` appends its own entries to those of the days before it. */
  lemma ItemsFromNext(timetable: seq<CourseSlot>, cancellations: seq<Cancellation>, extraClasses: seq<ExtraClass>, today: Date, i: nat)
    requires ValidDate(today)
    ensures ItemsFrom(timetable, cancellations, extraClasses, today, i + 1)
      == ItemsFrom(timetable, cancellations, extraClasses, today, i) + DayItems(timetable, cancellations, extraClasses, AddDays(today, i))
  {
    var days := DaysFrom(today, i + 1);
    assert days[..i] == DaysFrom(today, i);
  }

  /** `YYYYMMDD` as a number; for real dates its order is the calendar order. */
  function DateOrdinal(d: Date): int
  {
    d.year * 10000 + d.month * 100 + d.day
  }

  /** The sort key: date first, then `sortTime` (HH*100+MM). */
  function UpcomingKey(item: UpcomingItem): int
  {
    DateOrdinal(item.date) * 10000 + TodayView.StartKey(item.source)
  }

  /**
    `UpcomingClasses`: for each of the seven days from `today`, push the
    listed template slots of that weekday (flagged cancelled when a
    cancellation names that date and slot) and then the extras of that date;
    finally sort by date, then start time. The sort is stable.
   */
  method UpcomingClasses(timetable: seq<CourseSlot>, cancellations: seq<Cancellation>, extraClasses: seq<ExtraClass>, today: Date)
    returns (upcoming: seq<UpcomingItem>)
    requires ValidDate(today)
    ensures upcoming == SortBy(ItemsFrom(timetable, cancellations, extraClasses, today, 7), UpcomingKey)
    ensures SortedBy(upcoming, UpcomingKey)
    ensures multiset(upcoming) == multiset(ItemsFrom(timetable, cancellations, extraClasses, today, 7))
    ensures forall k :: WithKey(upcoming, UpcomingKey, k) == WithKey(ItemsFrom(timetable, cancellations, extraClasses, today, 7), UpcomingKey, k)
  {
    upcoming := [];
    for i := 0 to 7
      invariant upcoming == ItemsFrom(timetable, cancellations, extraClasses, today, i)
    {
      var date := AddDays(today, i);
      var dayName := DayNameOf(Weekday(date));
      var slots := Filter(timetable, (s: CourseSlot) => s.day == dayName);
      var before := upcoming;
      upcoming := PushRecurring(upcoming, slots, cancellations, date);
      var extras := Filter(extraClasses, (e: ExtraClass) => e.date == date);
      upcoming := PushExtras(upcoming, extras, date);
      ConcatAssoc(before, RecurringItems(slots, cancellations, date), ExtraItems(extras, date));
      ItemsFromNext(timetable, cancellations, extraClasses, today, i);
    }
    var unsorted := upcoming;
    upcoming := SortBy(unsorted, UpcomingKey);
    forall k
      ensures WithKey(upcoming, UpcomingKey, k) == WithKey(unsorted, UpcomingKey, k)
    {
      SortByIsStable(unsorted, UpcomingKey, k);
    }
  }

  /**
    The recurring loop of one day: pushes each slot of `slots` that is not
    EMPTY or LUNCH, with its cancelled flag for `date`.
   */
  method PushRecurring(upcoming: seq<UpcomingItem>, slots: seq<CourseSlot>, cancellations: seq<Cancellation>, date: Date)
    returns (r: seq<UpcomingItem>)
    ensures r == upcoming + RecurringItems(slots, cancellations, date)
  {
    r := upcoming;
    for j := 0 to |slots|
      invariant r == upcoming + RecurringItems(slots[..j], cancellations, date)
    {
      assert slots[..j + 1][..j] == slots[..j];
      var slot := slots[j];
      if slot.kind == EMPTY || slot.kind == LUNCH {
        continue;
      }
      var isCancelled := IsCancelled(cancellations, date, slot.id);
      r := r + [UpcomingItem(date, Recurring(slot), isCancelled)];
    }
    assert slots[..|slots|] == slots;
  }

  /** The extras loop of one day: pushes each extra of `extras`, never flagged cancelled. */
  method PushExtras(upcoming: seq<UpcomingItem>, extras: seq<ExtraClass>, date: Date) returns (r: seq<UpcomingItem>)
    ensures r == upcoming + ExtraItems(extras, date)
  {
    r := upcoming;
    for j := 0 to |extras|
      invariant r == upcoming + ExtraItems(extras[..j], date)
    {
      assert extras[..j + 1][..j] == extras[..j];
      r := r + [UpcomingItem(date, Extra(extras[j]), false)];
    }
    assert extras[..|extras|] == extras;
  }

  /** The day `item` belongs to is one of the first `n` days from `today`, and it is an entry of that day. */
  predicate OnDay(timetable: seq<CourseSlot>, cancellations: seq<Cancellation>, extraClasses: seq<ExtraClass>, item: UpcomingItem)
    requires ValidDate(item.date)
  {
    if item.source.Recurring? then
      item.source.slot in timetable && item.source.slot.day == DayNameOf(Weekday(item.date)) && Listed(item.source.slot)
      && item.isCancelled == IsCancelled(cancellations, item.date, item.source.slot.id)
    else
      item.source.extra in extraClasses && item.source.extra.date == item.date && !item.isCancelled
  }

  /**
    The unsorted list of the first `n` days holds exactly the listed template
    slots of each day's weekday, flagged cancelled iff a cancellation names
    that date and slot, and the extras dated on one of those days, never
    flagged.
   */
  lemma ItemsFromMembers(timetable: seq<CourseSlot>, cancellations: seq<Cancellation>, extraClasses: seq<ExtraClass>,
                         today: Date, n: nat, x: UpcomingItem)
    requires ValidDate(today)
    ensures x in ItemsFrom(timetable, cancellations, extraClasses, today, n) <==>
      ValidDate(x.date) && DayNumber(today) <= DayNumber(x.date) < DayNumber(today) + n
      && OnDay(timetable, cancellations, extraClasses, x)
  {
    var days := DaysFrom(today, n);
    ItemsOnMembers(timetable, cancellations, extraClasses, days, x);
    if ValidDate(x.date) {
      DaysFromMembers(today, n, x.date);
    }
  }

  /** The entries pushed for `dates` are exactly the entries of those days. */
  lemma {:induction false} ItemsOnMembers(timetable: seq<CourseSlot>, cancellations: seq<Cancellation>, extraClasses: seq<ExtraClass>,
                                          dates: seq<Date>, x: UpcomingItem)
    requires forall d :: d in dates ==> ValidDate(d)
    ensures x in ItemsOn(timetable, cancellations, extraClasses, dates) <==>
      x.date in dates && OnDay(timetable, cancellations, extraClasses, x)
  {
    if dates != [] {
      var init, last := dates[..|dates| - 1], dates[|dates| - 1];
      assert dates == init + [last];
      assert x.date in dates <==> x.date in init || x.date == last;
      ItemsOnMembers(timetable, cancellations, extraClasses, init, x);
      DayItemsMembers(timetable, cancellations, extraClasses, last, x);
    }
  }

  /** The first `n` days from `today` are the real dates whose day number is less than `n` past today's. */
  lemma {:induction false} DaysFromMembers(today: Date, n: nat, d: Date)
    requires ValidDate(today) && ValidDate(d)
    ensures d in DaysFrom(today, n) <==> DayNumber(today) <= DayNumber(d) < DayNumber(today) + n
  {
    if n > 0 {
      var prev, last := DaysFrom(today, n - 1), AddDays(today, n - 1);
      assert DaysFrom(today, n) == prev + [last];
      assert d in prev + [last] <==> d in prev || d == last;
      DaysFromMembers(today, n - 1, d);
      IsNthDay(today, n - 1, d);
    }
  }

  /** A real date is the `k`-th day from `today` exactly when its day number is `k` more. */
  lemma IsNthDay(today: Date, k: nat, d: Date)
    requires ValidDate(today) && ValidDate(d)
    ensures d == AddDays(today, k) <==> DayNumber(d) == DayNumber(today) + k
  {
    DateLeIsDayNumberOrder(d, AddDays(today, k));
  }

  /**
    The sorted upcoming list covers exactly the seven days from `today`: an
    entry is listed iff it is an entry of one of those days.
   */
  lemma UpcomingMembers(timetable: seq<CourseSlot>, cancellations: seq<Cancellation>, extraClasses: seq<ExtraClass>, today: Date, x: UpcomingItem)
    requires ValidDate(today)
    ensures x in SortBy(ItemsFrom(timetable, cancellations, extraClasses, today, 7), UpcomingKey) <==>
      ValidDate(x.date) && DayNumber(today) <= DayNumber(x.date) < DayNumber(today) + 7
      && OnDay(timetable, cancellations, extraClasses, x)
  {
    var items := ItemsFrom(timetable, cancellations, extraClasses, today, 7);
    var sorted := SortBy(items, UpcomingKey);
    ItemsFromMembers(timetable, cancellations, extraClasses, today, 7, x);
    assert x in sorted <==> x in multiset(sorted);
    assert x in items <==> x in multiset(items);
  }

  /** One day's entries are exactly the entries of that day. */
  lemma DayItemsMembers(timetable: seq<CourseSlot>, cancellations: seq<Cancellation>, extraClasses: seq<ExtraClass>, date: Date, x: UpcomingItem)
    requires ValidDate(date)
    ensures x in DayItems(timetable, cancellations, extraClasses, date) <==>
      x.date == date && OnDay(timetable, cancellations, extraClasses, x)
  {
    var dayName := DayNameOf(Weekday(date));
    var slots := Filter(timetable, (s: CourseSlot) => s.day == dayName);
    var extras := Filter(extraClasses, (e: ExtraClass) => e.date == date);
    assert DayItems(timetable, cancellations, extraClasses, date) == RecurringItems(slots, cancellations, date) + ExtraItems(extras, date);
  }

  /**
    For real dates and "HH:MM" start times the key order is the comparator's:
    an earlier date first, and on the same date the earlier start time.
   */
  lemma UpcomingKeyOrder(a: UpcomingItem, b: UpcomingItem)
    requires ValidDate(a.date) && ValidDate(b.date)
    requires ValidTime(a.source.Start()) && ValidTime(b.source.Start())
    ensures UpcomingKey(a) <= UpcomingKey(b) <==>
      (a.date != b.date && DateLe(a.date, b.date))
      || (a.date == b.date && TodayView.StartKey(a.source) <= TodayView.StartKey(b.source))
  {
    ParseIntWithoutColonIsSortTime(a.source.Start());
    ParseIntWithoutColonIsSortTime(b.source.Start());
    DateOrdinalOrder(a.date, b.date);
  }

  /** `YYYYMMDD` numbers order real dates as the calendar does and tell them apart. */
  lemma DateOrdinalOrder(a: Date, b: Date)
    requires ValidDate(a) && ValidDate(b)
    ensures DateLe(a, b) <==> DateOrdinal(a) <= DateOrdinal(b)
    ensures DateOrdinal(a) == DateOrdinal(b) <==> a == b
  {
  }
}
