/**
  The planner's entities (types.ts): the day categories of the semester
  calendar, subjects, the weekly course-slot template, one-off extra classes,
  date-scoped cancellations, notes and custom events.

  Strings that the source uses as closed sets of tags ('LECTURE', 'Monday', ...)
  become datatypes; "YYYY-MM-DD" date strings become calendar triples and
  "HH:MM" time strings become (hour, minute) pairs.
 */
module Types {

  datatype Option<T> = None | Some(value: T)

  /** The seven day categories (types.ts EventType); the tag names are the enum's string values. */
  datatype EventType = HOLIDAY | CLASSES | EXAM | COMMENCEMENT | RE_EXAM | SUNDAY | NONE

  /** Every value of EventType, and there are exactly seven of them. */
  function AllEventTypes(): (r: set<EventType>)
    ensures |r| == 7
    ensures forall e: EventType :: e in r
  {
    var r := {HOLIDAY, CLASSES, EXAM, COMMENCEMENT, RE_EXAM, SUNDAY, NONE};
    EveryEventTypeListed(r);
    r
  }

  lemma EveryEventTypeListed(r: set<EventType>)
    requires r == {HOLIDAY, CLASSES, EXAM, COMMENCEMENT, RE_EXAM, SUNDAY, NONE}
    ensures forall e: EventType :: e in r
  {
    forall e: EventType ensures e in r {
      match e
      case HOLIDAY =>
      case CLASSES =>
      case EXAM =>
      case COMMENCEMENT =>
      case RE_EXAM =>
      case SUNDAY =>
      case NONE =>
    }
  }

  /** The long weekday names that CourseSlot.day holds ("Monday", ...). */
  datatype DayName = Sunday | Monday | Tuesday | Wednesday | Thursday | Friday | Saturday

  /** A calendar date; month is 1..12, as written in a "YYYY-MM-DD" key. */
  datatype Date = Date(year: int, month: int, day: int)

  /** A wall-clock time "HH:MM". */
  datatype Time = Time(hour: int, minute: int) {
    /** Minutes since midnight. */
    function Minutes(): int { hour * 60 + minute }
  }

  /** The kind of a recurring slot (types.ts:23). */
  datatype SlotType = LECTURE | LAB | LUNCH | EMPTY

  /** The kind of an extra class: a slot kind that is never EMPTY (types.ts:34). */
  type ExtraType = t: SlotType | t != EMPTY witness LECTURE

  datatype CustomEventType = ASSIGNMENT | EVENT

  datatype Subject = Subject(id: string, code: string, name: string, color: string, faculty: Option<string>)

  /** A weekly-repeating slot; `kind` is the source's `type` field. */
  datatype CourseSlot = CourseSlot(
    id: string, subjectId: string, kind: SlotType,
    start: Time, end: Time, duration: int, day: DayName)

  /** A one-off class on one date. */
  datatype ExtraClass = ExtraClass(
    id: string, date: Date, subjectId: string, kind: ExtraType,
    start: Time, end: Time, duration: int)

  datatype Note = Note(id: string, date: Date, content: string, time: Option<Time>)

  datatype CustomEvent = CustomEvent(id: string, date: Date, title: string, kind: CustomEventType, time: Option<Time>)

  /**
    "The recurring slot `slotId` does not take place on `date`". It names the
    occurrence only by (date, slotId) and its own id: no subject, no time.
   */
  datatype Cancellation = Cancellation(id: string, date: Date, slotId: string)

  /** An entry of the semester's special-dates table; `name` is the source's `label`. */
  datatype SpecialDate = SpecialDate(kind: EventType, name: Option<string>)

  /** An inclusive range of class days. */
  datatype DateRange = DateRange(start: Date, end: Date)

  /**
    Where a resolved occurrence comes from; the source spreads the slot or the
    extra into the rendered object, so the whole record is kept.
   */
  datatype Source = Recurring(slot: CourseSlot) | Extra(extra: ExtraClass) {
    /** The `isExtra` flag of the rendered object. */
    predicate IsExtra() { Extra? }
    function Id(): string { if Recurring? then slot.id else extra.id }
    function SubjectId(): string { if Recurring? then slot.subjectId else extra.subjectId }
    function Kind(): SlotType { if Recurring? then slot.kind else extra.kind }
    function Start(): Time { if Recurring? then slot.start else extra.start }
    function End(): Time { if Recurring? then slot.end else extra.end }
    function Duration(): int { if Recurring? then slot.duration else extra.duration }
  }

  /** A resolved class occurrence, flagged cancelled or not. */
  datatype Occurrence = Occurrence(source: Source, isCancelled: bool)
}
