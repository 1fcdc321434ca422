/**
  The planner's store (context/PlannerContext.tsx): six collections (subjects,
  the weekly timetable, cancellations, extra classes, notes and custom
  events) that every view reads, and the mutators that append to, filter or
  map one of them.

  Each mutator is a method of `Planner` that replaces one or more of its
  sequence fields, as the source's setters do. The changes that matter to the
  schedule (deleting a subject, editing one, cancelling and restoring a class)
  are also written as functions on a `Snapshot` of the six collections, and
  the lemmas below are about those functions.
 */
module PlannerContext {
  import opened Types
  import opened Seqs
  import Constants

  /** The six collections at one moment. */
  datatype Snapshot = Snapshot(
    subjects: seq<Subject>,
    timetable: seq<CourseSlot>,
    cancellations: seq<Cancellation>,
    extraClasses: seq<ExtraClass>,
    notes: seq<Note>,
    customEvents: seq<CustomEvent>)

  /** A cancellation of the occurrence of slot `slotId` on `date`. */
  predicate Cancels(c: Cancellation, date: Date, slotId: string)
  {
    c.date == date && c.slotId == slotId
  }

  /** `cancellations.some(c => c.date === date && c.slotId === slotId)`. */
  predicate IsCancelled(cancellations: seq<Cancellation>, date: Date, slotId: string)
  {
    Any(cancellations, (c: Cancellation) => Cancels(c, date, slotId))
  }

  /** The cancellations of the occurrence (date, slotId), in order. */
  function CancellationsOf(cancellations: seq<Cancellation>, date: Date, slotId: string): seq<Cancellation>
  {
    Filter(cancellations, (c: Cancellation) => Cancels(c, date, slotId))
  }

  /** `cancelClass(date, slotId)`: appends a cancellation with a new id, whether or not one exists. */
  function AfterCancelClass(s: Snapshot, id: string, date: Date, slotId: string): (r: Snapshot)
    ensures |r.cancellations| == |s.cancellations| + 1
    ensures Cancels(r.cancellations[|s.cancellations|], date, slotId) && r.cancellations[|s.cancellations|].id == id
    ensures r.(cancellations := s.cancellations) == s
  {
    s.(cancellations := s.cancellations + [Cancellation(id, date, slotId)])
  }

  /** `restoreClass(date, slotId)`: drops every cancellation of that occurrence. */
  function AfterRestoreClass(s: Snapshot, date: Date, slotId: string): (r: Snapshot)
    ensures |r.cancellations| <= |s.cancellations|
    ensures r.(cancellations := s.cancellations) == s
  {
    s.(cancellations := Filter(s.cancellations, (c: Cancellation) => !Cancels(c, date, slotId)))
  }

  /** `deleteSubject(id)`: drops the subject and its slots and extras; cancellations stay. */
  function AfterDeleteSubject(s: Snapshot, id: string): (r: Snapshot)
    ensures |r.subjects| <= |s.subjects| && |r.timetable| <= |s.timetable| && |r.extraClasses| <= |s.extraClasses|
    ensures r.cancellations == s.cancellations && r.notes == s.notes && r.customEvents == s.customEvents
  {
    s.(subjects := Filter(s.subjects, (x: Subject) => x.id != id),
       timetable := Filter(s.timetable, (slot: CourseSlot) => slot.subjectId != id),
       extraClasses := Filter(s.extraClasses, (e: ExtraClass) => e.subjectId != id))
  }

  /** `updateSubject(subject)`: every subject with the same id becomes `subject`. */
  function AfterUpdateSubject(s: Snapshot, subject: Subject): (r: Snapshot)
    ensures |r.subjects| == |s.subjects|
    ensures forall x :: x in r.subjects ==> x == subject || (x in s.subjects && x.id != subject.id)
    ensures r.(subjects := s.subjects) == s
  {
    s.(subjects := Map(s.subjects, (x: Subject) => if x.id == subject.id then subject else x))
  }

  /** `getSubject(key)`: the first subject whose id or code is `key`. */
  function FindSubject(subjects: seq<Subject>, key: string): (r: Option<Subject>)
    ensures r.None? <==> forall x :: x in subjects ==> x.id != key && x.code != key
    ensures r.Some? ==> (exists i :: 0 <= i < |subjects| && subjects[i] == r.value
                          && (r.value.id == key || r.value.code == key)
                          && forall j :: 0 <= j < i ==> subjects[j].id != key && subjects[j].code != key)
  {
    Find(subjects, (x: Subject) => x.id == key || x.code == key)
  }

  /** Every subject is stored under its code, as the subject form creates them. */
  predicate KeyedByCode(subjects: seq<Subject>)
  {
    forall i :: 0 <= i < |subjects| ==> subjects[i].id == subjects[i].code
  }

  class Planner {
    var subjects: seq<Subject>
    var timetable: seq<CourseSlot>
    var cancellations: seq<Cancellation>
    var extraClasses: seq<ExtraClass>
    var notes: seq<Note>
    var customEvents: seq<CustomEvent>

    function State(): Snapshot
      reads this
    {
      Snapshot(subjects, timetable, cancellations, extraClasses, notes, customEvents)
    }

    /**
      A fresh store: the seed subjects and timetable (whose slot ids the source
      draws at random and the caller supplies here) and nothing else.
     */
    constructor(slotIds: seq<string>)
      requires |slotIds| == 30
      ensures State() == Snapshot(Constants.InitialSubjects(), Constants.InitialTimetable(slotIds), [], [], [], [])
    {
      subjects := Constants.InitialSubjects();
      timetable := Constants.InitialTimetable(slotIds);
      cancellations := [];
      extraClasses := [];
      notes := [];
      customEvents := [];
    }

    method AddSubject(subject: Subject)
      modifies this
      ensures State() == old(State()).(subjects := old(subjects) + [subject])
    {
      subjects := subjects + [subject];
    }

    method UpdateSubject(subject: Subject)
      modifies this
      ensures State() == AfterUpdateSubject(old(State()), subject)
    {
      subjects := Map(subjects, (x: Subject) => if x.id == subject.id then subject else x);
    }

    method DeleteSubject(id: string)
      modifies this
      ensures State() == AfterDeleteSubject(old(State()), id)
    {
      subjects := Filter(subjects, (x: Subject) => x.id != id);
      timetable := Filter(timetable, (slot: CourseSlot) => slot.subjectId != id);
      extraClasses := Filter(extraClasses, (e: ExtraClass) => e.subjectId != id);
    }

    method AddSlot(slot: CourseSlot)
      modifies this
      ensures State() == old(State()).(timetable := old(timetable) + [slot])
    {
      timetable := timetable + [slot];
    }

    /** Drops the slot from the template; its cancellations are left as they are. */
    method RemoveSlot(id: string)
      modifies this
      ensures State() == old(State()).(timetable := Filter(old(timetable), (slot: CourseSlot) => slot.id != id))
      ensures forall slot :: slot in timetable <==> slot in old(timetable) && slot.id != id
    {
      timetable := Filter(timetable, (slot: CourseSlot) => slot.id != id);
    }

    /** `id` stands for the random id the source draws; it is new to the store. */
    method CancelClass(id: string, date: Date, slotId: string)
      requires forall c :: c in cancellations ==> c.id != id
      modifies this
      ensures State() == AfterCancelClass(old(State()), id, date, slotId)
    {
      cancellations := cancellations + [Cancellation(id, date, slotId)];
    }

    method RestoreClass(date: Date, slotId: string)
      modifies this
      ensures State() == AfterRestoreClass(old(State()), date, slotId)
    {
      cancellations := Filter(cancellations, (c: Cancellation) => !Cancels(c, date, slotId));
    }

    method AddExtraClass(extra: ExtraClass)
      modifies this
      ensures State() == old(State()).(extraClasses := old(extraClasses) + [extra])
    {
      extraClasses := extraClasses + [extra];
    }

    method RemoveExtraClass(id: string)
      modifies this
      ensures State() == old(State()).(extraClasses := Filter(old(extraClasses), (e: ExtraClass) => e.id != id))
      ensures forall e :: e in extraClasses <==> e in old(extraClasses) && e.id != id
    {
      extraClasses := Filter(extraClasses, (e: ExtraClass) => e.id != id);
    }

    method AddNote(note: Note)
      modifies this
      ensures State() == old(State()).(notes := old(notes) + [note])
    {
      notes := notes + [note];
    }

    method DeleteNote(id: string)
      modifies this
      ensures State() == old(State()).(notes := Filter(old(notes), (n: Note) => n.id != id))
      ensures forall n :: n in notes <==> n in old(notes) && n.id != id
    {
      notes := Filter(notes, (n: Note) => n.id != id);
    }

    method AddCustomEvent(event: CustomEvent)
      modifies this
      ensures State() == old(State()).(customEvents := old(customEvents) + [event])
    {
      customEvents := customEvents + [event];
    }

    method DeleteCustomEvent(id: string)
      modifies this
      ensures State() == old(State()).(customEvents := Filter(old(customEvents), (e: CustomEvent) => e.id != id))
      ensures forall e :: e in customEvents <==> e in old(customEvents) && e.id != id
    {
      customEvents := Filter(customEvents, (e: CustomEvent) => e.id != id);
    }

    /** `getSubject(key)`: looks the key up among ids and codes alike. */
    function GetSubject(key: string): (r: Option<Subject>)
      reads this
      ensures r == FindSubject(subjects, key)
      ensures r.Some? ==> r.value in subjects && (r.value.id == key || r.value.code == key)
    {
      FindSubject(subjects, key)
    }
  }

  /**
    `cancelClass` always adds exactly one cancellation of (date, slotId) at the
    end, even when the occurrence is already cancelled; nothing else changes.
   */
  lemma {:induction false} CancelAddsOne(s: Snapshot, id: string, date: Date, slotId: string)
    ensures AfterCancelClass(s, id, date, slotId).cancellations[..|s.cancellations|] == s.cancellations
    ensures |CancellationsOf(AfterCancelClass(s, id, date, slotId).cancellations, date, slotId)|
      == |CancellationsOf(s.cancellations, date, slotId)| + 1
    ensures AfterCancelClass(s, id, date, slotId).(cancellations := s.cancellations) == s
  {
    var c := Cancellation(id, date, slotId);
    FilterConcat(s.cancellations, [c], (x: Cancellation) => Cancels(x, date, slotId));
    assert [c][..0] == [];
  }

  /**
    `restoreClass` leaves no cancellation of (date, slotId), keeps every other
    one, and changes nothing when there was none to remove.
   */
  lemma RestoreRemovesAll(s: Snapshot, date: Date, slotId: string)
    ensures forall c :: c in AfterRestoreClass(s, date, slotId).cancellations <==> c in s.cancellations && !Cancels(c, date, slotId)
    ensures CancellationsOf(AfterRestoreClass(s, date, slotId).cancellations, date, slotId) == []
    ensures CancellationsOf(s.cancellations, date, slotId) == [] ==> AfterRestoreClass(s, date, slotId) == s
    ensures AfterRestoreClass(s, date, slotId).(cancellations := s.cancellations) == s
  {
    var after := AfterRestoreClass(s, date, slotId).cancellations;
    forall i | 0 <= i < |after|
      ensures !Cancels(after[i], date, slotId)
    {
      assert after[i] in after;
    }
    FilterKeepsNone(after, (c: Cancellation) => Cancels(c, date, slotId));
    if CancellationsOf(s.cancellations, date, slotId) == [] {
      FilterKeepsAll(s.cancellations, (c: Cancellation) => !Cancels(c, date, slotId));
    }
  }

  /**
    Cancelling and then restoring an occurrence leaves exactly what restoring
    alone would: no cancellation of it, the others unchanged and in order.
   */
  lemma CancelThenRestore(s: Snapshot, id: string, date: Date, slotId: string)
    ensures AfterRestoreClass(AfterCancelClass(s, id, date, slotId), date, slotId) == AfterRestoreClass(s, date, slotId)
  {
    var c := Cancellation(id, date, slotId);
    FilterConcat(s.cancellations, [c], (x: Cancellation) => !Cancels(x, date, slotId));
    assert [c][..0] == [];
  }

  /**
    `deleteSubject(id)` removes exactly the subjects with that id and the
    slots and extras of that subject; cancellations, notes and events are
    untouched. When subjects are keyed by code, the id can no longer be
    looked up.
   */
  lemma DeleteSubjectCascades(s: Snapshot, id: string)
    ensures forall x :: x in AfterDeleteSubject(s, id).subjects <==> x in s.subjects && x.id != id
    ensures forall t :: t in AfterDeleteSubject(s, id).timetable <==> t in s.timetable && t.subjectId != id
    ensures forall e :: e in AfterDeleteSubject(s, id).extraClasses <==> e in s.extraClasses && e.subjectId != id
    ensures AfterDeleteSubject(s, id).cancellations == s.cancellations
    ensures AfterDeleteSubject(s, id).notes == s.notes && AfterDeleteSubject(s, id).customEvents == s.customEvents
    ensures KeyedByCode(s.subjects) ==> KeyedByCode(AfterDeleteSubject(s, id).subjects)
    ensures KeyedByCode(s.subjects) ==> FindSubject(AfterDeleteSubject(s, id).subjects, id) == None
  {
    var after := AfterDeleteSubject(s, id).subjects;
    if KeyedByCode(s.subjects) {
      forall i | 0 <= i < |after|
        ensures after[i].id == after[i].code
      {
        assert after[i] in s.subjects;
      }
    }
  }

  /**
    `deleteSubject` matches ids only, while `getSubject` also matches codes:
    when no subject has `key` as its id, `deleteSubject(key)` removes no
    subject, and a subject with code `key` is still found by `getSubject(key)`.
   */
  lemma DeleteByCodeKeepsLookup(s: Snapshot, key: string, x: Subject)
    requires x in s.subjects && x.code == key
    requires forall y :: y in s.subjects ==> y.id != key
    ensures AfterDeleteSubject(s, key).subjects == s.subjects
    ensures FindSubject(AfterDeleteSubject(s, key).subjects, key).Some?
  {
    FilterKeepsAll(s.subjects, (y: Subject) => y.id != key);
  }

  /**
    `updateSubject(subject)` keeps the length and order of the list and
    replaces exactly the entries with the subject's id; the other
    collections are untouched.
   */
  lemma UpdateSubjectReplaces(s: Snapshot, subject: Subject)
    ensures |AfterUpdateSubject(s, subject).subjects| == |s.subjects|
    ensures forall i :: 0 <= i < |s.subjects| && s.subjects[i].id == subject.id ==> AfterUpdateSubject(s, subject).subjects[i] == subject
    ensures forall i :: 0 <= i < |s.subjects| && s.subjects[i].id != subject.id ==> AfterUpdateSubject(s, subject).subjects[i] == s.subjects[i]
    ensures AfterUpdateSubject(s, subject).(subjects := s.subjects) == s
    ensures KeyedByCode(s.subjects) && subject.id == subject.code ==> KeyedByCode(AfterUpdateSubject(s, subject).subjects)
  {
  }
}
