/**
  Today's timeline (components/TodayView.tsx): the classes that take place
  today, merged from the weekly template and the one-off extras and sorted by
  start time; the status of each against the clock; and the one entry the
  view scrolls to.
 */
module TodayView {
  import opened Types
  import opened Seqs
  import opened Dates
  import opened Text
  import opened PlannerContext

  /**
    The sort key `parseInt(startTime.replace(':', ''))`, which is HH*100+MM
    for an "HH:MM" time (Text.ParseIntWithoutColonIsSortTime).
   */
  function StartKey(src: Source): int
  {
    SortTime(src.Start())
  }

  /** The template slots of today's weekday that are not cancelled today. */
  function TodaysRecurring(timetable: seq<CourseSlot>, cancellations: seq<Cancellation>, today: Date): seq<Source>
    requires ValidDate(today)
  {
    var dayName := DayNameOf(Weekday(today));
    Map(Filter(Filter(timetable, (s: CourseSlot) => s.day == dayName),
               (s: CourseSlot) => !IsCancelled(cancellations, today, s.id)),
        (s: CourseSlot) => Recurring(s))
  }

  /** The extra classes dated today. */
  function TodaysExtras(extraClasses: seq<ExtraClass>, today: Date): seq<Source>
  {
    Map(Filter(extraClasses, (e: ExtraClass) => e.date == today), (e: ExtraClass) => Extra(e))
  }

  /** `todaysSlots`: today's recurring entries, then today's extras, stably sorted by start time. */
  function TodaysSlots(timetable: seq<CourseSlot>, extraClasses: seq<ExtraClass>, cancellations: seq<Cancellation>, today: Date): (r: seq<Source>)
    requires ValidDate(today)
    ensures SortedBy(r, StartKey)
    ensures multiset(r) == multiset(TodaysRecurring(timetable, cancellations, today) + TodaysExtras(extraClasses, today))
  {
    SortBy(TodaysRecurring(timetable, cancellations, today) + TodaysExtras(extraClasses, today), StartKey)
  }

  /** A slot of the template is on today's list. */
  predicate RecurringToday(slot: CourseSlot, timetable: seq<CourseSlot>, cancellations: seq<Cancellation>, today: Date)
    requires ValidDate(today)
  {
    slot in timetable && slot.day == DayNameOf(Weekday(today)) && !IsCancelled(cancellations, today, slot.id)
  }

  lemma RecurringMembers(timetable: seq<CourseSlot>, cancellations: seq<Cancellation>, today: Date)
    requires ValidDate(today)
    ensures forall src :: src in TodaysRecurring(timetable, cancellations, today) ==>
      src.Recurring? && RecurringToday(src.slot, timetable, cancellations, today)
    ensures forall slot :: RecurringToday(slot, timetable, cancellations, today) ==>
      Recurring(slot) in TodaysRecurring(timetable, cancellations, today)
  {
    var dayName := DayNameOf(Weekday(today));
    var kept := Filter(Filter(timetable, (s: CourseSlot) => s.day == dayName),
                       (s: CourseSlot) => !IsCancelled(cancellations, today, s.id));
    var r := TodaysRecurring(timetable, cancellations, today);
    assert r == Map(kept, (s: CourseSlot) => Recurring(s));
    forall slot | RecurringToday(slot, timetable, cancellations, today)
      ensures Recurring(slot) in r
    {
      assert slot in kept;
      var i :| 0 <= i < |kept| && kept[i] == slot;
      assert r[i] == Recurring(slot);
    }
    forall src | src in r
      ensures src.Recurring? && RecurringToday(src.slot, timetable, cancellations, today)
    {
      var i :| 0 <= i < |r| && r[i] == src;
      assert kept[i] in kept;
    }
  }

  lemma ExtraMembers(extraClasses: seq<ExtraClass>, today: Date)
    ensures forall src :: src in TodaysExtras(extraClasses, today) ==>
      src.Extra? && src.extra in extraClasses && src.extra.date == today
    ensures forall e :: e in extraClasses && e.date == today ==> Extra(e) in TodaysExtras(extraClasses, today)
  {
    var kept := Filter(extraClasses, (e: ExtraClass) => e.date == today);
    var r := TodaysExtras(extraClasses, today);
    forall e | e in extraClasses && e.date == today
      ensures Extra(e) in r
    {
      assert e in kept;
      var i :| 0 <= i < |kept| && kept[i] == e;
      assert r[i] == Extra(e);
    }
    forall src | src in r
      ensures src.Extra? && src.extra in extraClasses && src.extra.date == today
    {
      var i :| 0 <= i < |r| && r[i] == src;
      assert kept[i] in kept;
    }
  }

  /**
    Exactly the uncancelled template slots of today's weekday and the extras
    dated today are listed, recurring ones flagged `isExtra` false and extras
    true.
   */
  lemma TodaysSlotsMembers(timetable: seq<CourseSlot>, extraClasses: seq<ExtraClass>, cancellations: seq<Cancellation>, today: Date)
    requires ValidDate(today)
    ensures forall slot :: Recurring(slot) in TodaysSlots(timetable, extraClasses, cancellations, today) <==>
      slot in timetable && slot.day == DayNameOf(Weekday(today)) && !IsCancelled(cancellations, today, slot.id)
    ensures forall e :: Extra(e) in TodaysSlots(timetable, extraClasses, cancellations, today) <==>
      e in extraClasses && e.date == today
  {
    var rec, ext := TodaysRecurring(timetable, cancellations, today), TodaysExtras(extraClasses, today);
    var r := TodaysSlots(timetable, extraClasses, cancellations, today);
    RecurringMembers(timetable, cancellations, today);
    ExtraMembers(extraClasses, today);
    forall src
      ensures src in r <==> src in rec || src in ext
    {
      calc {
        src in r;
        src in multiset(r);
        src in multiset(rec + ext);
        src in rec + ext;
      }
    }
  }

  /**
    Nothing is lost or duplicated: the list is as long as the number of
    template slots of today's weekday that are not cancelled today plus the
    number of extras dated today.
   */
  lemma TodaysSlotsCount(timetable: seq<CourseSlot>, extraClasses: seq<ExtraClass>, cancellations: seq<Cancellation>, today: Date)
    requires ValidDate(today)
    ensures |TodaysSlots(timetable, extraClasses, cancellations, today)|
      == |Filter(timetable, (s: CourseSlot) => s.day == DayNameOf(Weekday(today)) && !IsCancelled(cancellations, today, s.id))|
       + |Filter(extraClasses, (e: ExtraClass) => e.date == today)|
  {
    var dayName := DayNameOf(Weekday(today));
    var onDay, notCancelled := (s: CourseSlot) => s.day == dayName, (s: CourseSlot) => !IsCancelled(cancellations, today, s.id);
    var kept := Filter(Filter(timetable, onDay), notCancelled);
    var rec, ext := TodaysRecurring(timetable, cancellations, today), TodaysExtras(extraClasses, today);
    assert rec == Map(kept, (s: CourseSlot) => Recurring(s));
    assert |TodaysSlots(timetable, extraClasses, cancellations, today)| == |rec| + |ext|;
    var target := (s: CourseSlot) => s.day == DayNameOf(Weekday(today)) && !IsCancelled(cancellations, today, s.id);
    FilterFilter(timetable, onDay, notCancelled, target);
    assert |kept| == |Filter(timetable, target)|;
  }

  /**
    The sort is stable, so among entries with the same start time the
    recurring ones keep their template order and come before the extras,
    which keep theirs.
   */
  lemma TodaysSlotsTies(timetable: seq<CourseSlot>, extraClasses: seq<ExtraClass>, cancellations: seq<Cancellation>, today: Date, k: int)
    requires ValidDate(today)
    ensures WithKey(TodaysSlots(timetable, extraClasses, cancellations, today), StartKey, k)
      == WithKey(TodaysRecurring(timetable, cancellations, today), StartKey, k) + WithKey(TodaysExtras(extraClasses, today), StartKey, k)
    ensures forall i, j ::
              0 <= i < j < |TodaysSlots(timetable, extraClasses, cancellations, today)|
              && StartKey(TodaysSlots(timetable, extraClasses, cancellations, today)[i]) == k
              && StartKey(TodaysSlots(timetable, extraClasses, cancellations, today)[j]) == k
              && TodaysSlots(timetable, extraClasses, cancellations, today)[i].Extra?
              ==> TodaysSlots(timetable, extraClasses, cancellations, today)[j].Extra?
  {
    var rec, ext := TodaysRecurring(timetable, cancellations, today), TodaysExtras(extraClasses, today);
    RecurringMembers(timetable, cancellations, today);
    ExtraMembers(extraClasses, today);
    SortByIsStable(rec + ext, StartKey, k);
    WithKeyConcat(rec, ext, StartKey, k);
    forall i, j | 0 <= i < j < |TodaysSlots(timetable, extraClasses, cancellations, today)|
      && StartKey(TodaysSlots(timetable, extraClasses, cancellations, today)[i]) == k
      && StartKey(TodaysSlots(timetable, extraClasses, cancellations, today)[j]) == k
      && TodaysSlots(timetable, extraClasses, cancellations, today)[i].Extra?
      ensures TodaysSlots(timetable, extraClasses, cancellations, today)[j].Extra?
    {
      ExtrasStayBehind(rec, ext, k, i, j);
    }
  }

  /**
    In a stable sort of recurring entries followed by extras, an extra is
    never followed by a recurring entry with the same key.
   */
  lemma ExtrasStayBehind(rec: seq<Source>, ext: seq<Source>, k: int, i: int, j: int)
    requires forall x :: x in rec ==> x.Recurring?
    requires forall x :: x in ext ==> x.Extra?
    requires 0 <= i < j < |SortBy(rec + ext, StartKey)|
    requires StartKey(SortBy(rec + ext, StartKey)[i]) == k && StartKey(SortBy(rec + ext, StartKey)[j]) == k
    requires SortBy(rec + ext, StartKey)[i].Extra?
    ensures SortBy(rec + ext, StartKey)[j].Extra?
  {
    var r := SortBy(rec + ext, StartKey);
    var a, b := WithKey(rec, StartKey, k), WithKey(ext, StartKey, k);
    SortByIsStable(rec + ext, StartKey, k);
    WithKeyConcat(rec, ext, StartKey, k);
    var w := WithKey(r, StartKey, k);
    assert w == a + b;
    WithKeyKeepsOrder(r, StartKey, k, i, j);
    var p, q :| 0 <= p < q < |w| && w[p] == r[i] && w[q] == r[j];
    RecurringThenExtras(a, b, rec, ext, p, q);
  }

  /** In recurring entries followed by extras, whatever comes after an extra is an extra. */
  lemma RecurringThenExtras(a: seq<Source>, b: seq<Source>, rec: seq<Source>, ext: seq<Source>, p: int, q: int)
    requires forall x :: x in a ==> x in rec
    requires forall x :: x in b ==> x in ext
    requires forall x :: x in rec ==> x.Recurring?
    requires forall x :: x in ext ==> x.Extra?
    requires 0 <= p < q < |a + b| && (a + b)[p].Extra?
    ensures (a + b)[q].Extra?
  {
    var w := a + b;
    assert forall t :: 0 <= t < |a| ==> w[t] == a[t] && a[t] in a;
    assert |a| <= p;
    assert w[q] == b[q - |a|] && b[q - |a|] in b;
  }

  datatype Status = ONGOING | UPCOMING | COMPLETED

  /** Seconds since midnight of a wall-clock time. */
  function Seconds(t: Time): int
  {
    t.Minutes() * 60
  }

  /**
    `getCurrentStatus(startTime, endTime)`. The clock reading is passed in as
    seconds since midnight: `setHours(h, m, 0)` keeps the milliseconds of
    now, so they cancel out of both comparisons.
   */
  function GetCurrentStatus(nowSeconds: int, start: Time, end: Time): (r: Status)
    ensures r == ONGOING <==> Seconds(start) <= nowSeconds < Seconds(end)
    ensures r == UPCOMING <==> nowSeconds < Seconds(start)
    ensures r == COMPLETED <==> Seconds(start) <= nowSeconds && Seconds(end) <= nowSeconds
  {
    if nowSeconds >= Seconds(start) && nowSeconds < Seconds(end) then ONGOING
    else if nowSeconds < Seconds(start) then UPCOMING
    else COMPLETED
  }

  function StatusRank(s: Status): int
  {
    match s
    case UPCOMING => 0
    case ONGOING => 1
    case COMPLETED => 2
  }

  /**
    As the clock advances an entry only moves forward: UPCOMING, then ONGOING,
    then COMPLETED.
   */
  lemma StatusAdvances(t1: int, t2: int, start: Time, end: Time)
    requires t1 <= t2
    ensures StatusRank(GetCurrentStatus(t1, start, end)) <= StatusRank(GetCurrentStatus(t2, start, end))
  {
  }

  /** The entry is ongoing or upcoming. */
  predicate IsActive(src: Source, nowSeconds: int)
  {
    GetCurrentStatus(nowSeconds, src.Start(), src.End()) != COMPLETED
  }

  /**
    The render loop's `foundActive` flag: the entry marked as the scroll
    target is the first ongoing or upcoming one, and there is at most one.
   */
  method ScrollRefs(slots: seq<Source>, nowSeconds: int) returns (refs: seq<bool>)
    ensures |refs| == |slots|
    ensures forall i :: 0 <= i < |slots| ==>
      (refs[i] <==> IsActive(slots[i], nowSeconds) && forall j :: 0 <= j < i ==> !IsActive(slots[j], nowSeconds))
    ensures forall i, j :: 0 <= i < j < |refs| && refs[i] ==> !refs[j]
    ensures (exists i :: 0 <= i < |refs| && refs[i]) <==> exists i :: 0 <= i < |slots| && IsActive(slots[i], nowSeconds)
  {
    var foundActive := false;
    refs := [];
    var idx := 0;
    while idx < |slots|
      invariant 0 <= idx <= |slots| && |refs| == idx
      invariant foundActive <==> exists j :: 0 <= j < idx && IsActive(slots[j], nowSeconds)
      invariant forall i :: 0 <= i < idx ==>
        (refs[i] <==> IsActive(slots[i], nowSeconds) && forall j :: 0 <= j < i ==> !IsActive(slots[j], nowSeconds))
      invariant forall i :: 0 <= i < idx && refs[i] ==> foundActive
      invariant forall i, j :: 0 <= i < j < idx && refs[i] ==> !refs[j]
      invariant (exists i :: 0 <= i < idx && refs[i]) <==> foundActive
    {
      var status := GetCurrentStatus(nowSeconds, slots[idx].Start(), slots[idx].End());
      var isRef := !foundActive && (status == ONGOING || status == UPCOMING);
      if isRef {
        foundActive := true;
      }
      refs := refs + [isRef];
      idx := idx + 1;
    }
  }
}
