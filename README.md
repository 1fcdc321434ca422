# Academic planner: effective-schedule model

This project models the schedule engine of a personal academic planner.
The planner is a React application written in TypeScript. A weekly timetable
of course slots is overlaid with a semester calendar of special dates and
class-date ranges. The user adds date-scoped cancellations, one-off extra
classes, notes and custom events on top of it. The views that the model covers
are:

- the semester calendar, which puts every date into exactly one category;
- today's timeline, which merges the weekday's template slots that are not
  cancelled with today's extra classes and sorts them by start time;
- the weekly grid, which shows the Monday-to-Sunday week, one occurrence per
  (date, hour) cell, and the cells hidden under multi-hour classes;
- the class manager, which adds slots and subjects, reschedules one occurrence
  or the whole template, and lists the next seven days of classes;
- the store, with its six collections (subjects, timetable, cancellations,
  extra classes, notes, custom events) and their add, remove, update, cancel
  and restore operations.

Modules, one per source file:

| module | file | form |
|---|---|---|
| `Types` | `types.dfy` | datatypes for the entities of `types.ts` |
| `Constants` | `constants.dfy` | the seed tables of `constants.ts` and what holds of them |
| `PlannerContext` | `planner_context.dfy` | the store as class `Planner` with six `seq` fields; its methods are specified by functions on a `Snapshot` value |
| `CalendarView` | `calendar_view.dfy` | the day classifier and the month-grid helpers |
| `TodayView` | `today_view.dfy` | today's merged, sorted timeline, the status of an entry, and the scroll marker |
| `TimetableView` | `timetable_view.dfy` | the week's dates, the cell lookup and the row-coverage scan |
| `ClassManager` | `class_manager.dfy` | the add-class and add-subject forms, the reschedule dialog, and the upcoming list |
| `Dates` | `dates.dfy` | the proleptic Gregorian calendar, day numbers, weekdays and day arithmetic |
| `Text` | `text.dfy` | decimal strings, `padStart(2, '0')`, `parseInt` and "HH:MM" times |
| `Seqs` | `seqs.dfy` | `filter`, `find`, `map` and the stable sort, with their laws |

How the source's values are represented:

- A "YYYY-MM-DD" key is a `Date(year, month, day)`. `CalendarView.FormatDateKey`
  produces the string form, and its round-trip and injectivity lemmas justify
  keying by the triple.
- An "HH:MM" time is `Time(hour, minute)`.
- JavaScript's `getDay()` is `Dates.Weekday`: 0 is Sunday. Day numbers count
  from 0001-01-01, which was a Monday.
- `Date.setDate(getDate() + k)` is `Dates.AddDays`, which normalises across
  month and year ends.
- `Array.prototype.sort` is stable, so it is modelled as a stable insertion
  sort on an integer key (`Seqs.SortBy`).
- Ids that the source draws from `Math.random` are arguments supplied by the
  caller. Where the source relies on them being new, a precondition says so.
- The current date and time are arguments.

The model does what the code does in places where a caller might expect
otherwise:

- Today's timeline drops cancelled template slots (components/TodayView.tsx:24)
  instead of listing them flagged as cancelled, as the weekly grid does.
- `cancelClass` appends a cancellation even when one for the same (date, slot)
  already exists; it does not de-duplicate (`PlannerContext.CancelAddsOne`).
- Neither `removeSlot` nor the template reschedule removes the cancellations
  that name the removed slot.
- The add-class and reschedule forms do not reject an inconsistent time range.
  They always derive the end time from the start hour and the duration.
- `deleteSubject(key)` matches subject ids only, while `getSubject(key)` also
  matches codes. Deleting by a code that is no subject's id removes nothing, and
  `getSubject` still finds the subject by that code
  (`PlannerContext.DeleteByCodeKeepsLookup`).

## Model

| member | source | states |
|---|---|---|
| Types.AllEventTypes | types.ts:2-10 | the day categories form a set of exactly seven values, and every category is in it |
| Types.EveryEventTypeListed | types.ts:2-10 | no day category exists beyond the seven named tags |
| Seqs.Filter | context/PlannerContext.tsx:70 | a filtered list is no longer than the original, and it holds exactly the original's elements that pass the test |
| Seqs.FilterConcat | context/PlannerContext.tsx:72-78 | filtering distributes over concatenation, so an appended element is filtered on its own |
| Seqs.FilterKeepsOrder | context/PlannerContext.tsx:77 | two kept elements stay in their original relative order |
| Seqs.Find | context/PlannerContext.tsx:92 | `find` returns nothing exactly when no element passes the test, and otherwise the first element that passes |
| Seqs.SortBy | components/TodayView.tsx:33-35 | the sorted list is a permutation of the input, ordered by the key |
| Seqs.SortByIsStable | components/TodayView.tsx:33-35 | for every key value, the elements with that key keep their input order (the sort is stable) |
| Seqs.InsertKeepsSorted | components/ClassManager.tsx:331-334 | inserting one element into a sorted list keeps it sorted |
| Dates.DayNameRoundTrip | components/TodayView.tsx:17 | the long weekday name and the `getDay()` index determine each other |
| Dates.Weekday | components/CalendarView.tsx:12 | `getDay()` of a real date is a weekday index from 0 (Sunday) to 6; `Dates.WeekdayAfter` and `Dates.WeekdayInMonth` state how it moves from day to day |
| Dates.DayNameOf | components/TodayView.tsx:17 | the long weekday name of a `getDay()` index is the name whose index it is |
| Dates.NextDay | components/TimetableView.tsx:62 | the day after a real date is a real date whose day number is one more |
| Dates.PrevDay | components/TimetableView.tsx:56-57 | the day before a real date is a real date whose day number is one less |
| Dates.AddDays | components/ClassManager.tsx:296-297 | `setDate(getDate() + n)` gives a real date exactly `n` day numbers away |
| Dates.WeekdayAfter | components/ClassManager.tsx:296-298 | moving `n` days advances `getDay()` by `n` modulo 7 |
| Dates.NormalizedDate | components/CalendarView.tsx:7-13 | `new Date(year, monthIndex, day)` is a real date, `day - 1` days after the first of month `monthIndex`, counted across year ends |
| Dates.NormalizedDateInMonth | components/CalendarView.tsx:11-13 | `new Date(year, monthIndex, day)` with an in-range day is that calendar date |
| Dates.WeekdayInMonth | components/CalendarView.tsx:203-212 | the weekday of day `d` of a month is the first day's weekday plus `d - 1`, modulo 7 |
| Dates.DateLeIsDayNumberOrder | components/CalendarView.tsx:26-31 | comparing two real dates as calendar dates agrees with comparing their day numbers, and equal day numbers mean equal dates |
| Text.ParseDecimalString | components/CalendarView.tsx:16 | `String(n)` read back as digits gives `n` |
| Text.PadStart2RoundTrip | components/CalendarView.tsx:16 | `padStart(2, '0')` of a number below 100 is two digits that read back as the number |
| Text.ParseDigitsAppend2 | components/TodayView.tsx:34 | appending two digits multiplies the value read so far by 100 and adds them |
| Text.DigitPrefixStopsAtNonDigit | components/TimetableView.tsx:82 | `parseInt` reads the digits up to the first non-digit |
| Text.RemoveColonAfterDigits | components/TodayView.tsx:34 | `replace(':', '')` on "digits:rest" removes exactly that colon |
| Text.ParseIntReadsHour | components/TimetableView.tsx:79-82 | `parseInt("HH:MM")` is the hour, the same as `parseInt` of the text before the colon |
| Text.ParseIntWithoutColonIsSortTime | components/TodayView.tsx:34 | `parseInt` of "HHMM" is `HH*100+MM`, between 0 and 9999 |
| Text.DecimalString | components/CalendarView.tsx:16 | `String(n)` is all digits, with one to four of them for numbers below 10, 100, 1000 and 10000 |
| Text.PadStart2 | components/CalendarView.tsx:16 | `padStart(2, '0')` is all digits and at least two long, exactly two below 100, with a leading zero below 10 |
| Text.ParseInt | components/TimetableView.tsx:79 | `parseInt(s)` is the value of the longest run of digits at the start of `s` |
| Text.RemoveFirstColon | components/TodayView.tsx:34 | `replace(':', '')` leaves a string without colons unchanged and otherwise removes exactly its first colon |
| Text.FirstColonAfterHead | components/TodayView.tsx:34 | a string that starts with another character has its first colon removed when its tail does |
| Constants.InitialTimetable | constants.ts:63-103 | the seed timetable has thirty slots, and slot `i` carries the `i`-th supplied id |
| Constants.SpecialDatesWithinSemester | constants.ts:6-42 | every special date is a real date between the semester's first and last day |
| Constants.SpecialDateKinds | constants.ts:9-42 | every special date is a commencement, holiday, exam or re-exam day |
| Constants.ClassRangesOrdered | constants.ts:44-47 | there are two class ranges, each of real dates with start on or before end, the first ending before the second starts, and no date in both |
| Constants.ExamsOutsideClassRanges | constants.ts:9-47 | no exam date lies in a class range |
| Constants.HoliOpensSecondRange | constants.ts:20-46 | 2026-03-04 is a holiday and also the first day of the second class range |
| Constants.InitialSubjectsKeyedByCode | constants.ts:49-58 | each seed subject's id is its code, and the ids are distinct |
| Constants.InitialSlotsSpanDuration | constants.ts:63-103 | every seed slot starts on the hour, lasts at least one hour, and ends on the hour that is its start hour plus its duration |
| Constants.InitialSlotsNameSubjects | constants.ts:49-103 | every seed slot's subject id names a seed subject |
| Constants.SeedSubjectListed | constants.ts:49-58 | each of the eight subject codes used by the seed timetable is a seed subject's id |
| Constants.InitialSlotsDoNotOverlap | constants.ts:63-103 | no two seed slots on the same weekday overlap in time |
| Constants.InitialTimetableChained | constants.ts:63-103 | the seed timetable is listed weekday by weekday, and each slot of a day ends no later than the next one starts |
| Constants.InitialSlotsNonEmpty | constants.ts:63-103 | every seed slot starts before it ends |
| Constants.InitialSlotsInDayOrder | constants.ts:63-103 | the seed slots are listed from Monday to Friday |
| Constants.InitialSlotsEndBeforeNext | constants.ts:63-103 | consecutive seed slots of one day do not overlap |
| Constants.ChainedDays | constants.ts:63-103 | in a chained timetable, a later slot never belongs to an earlier weekday |
| Constants.ChainedApart | constants.ts:63-103 | in a chained timetable, any two slots of the same day are disjoint and in time order |
| CalendarView.DayZeroIsLastOfMonth | components/CalendarView.tsx:7-9 | day 0 of the next month normalises to the last day of this month, including across December |
| CalendarView.GetDaysInMonth | components/CalendarView.tsx:7-9 | the month length follows the Gregorian rule: 31, 30, or 28/29 for February by the leap-year rule |
| CalendarView.GetFirstDayOfMonth | components/CalendarView.tsx:11-13 | the result is the `getDay()` of the first of the month, between 0 and 6 |
| CalendarView.FormatDateKey | components/CalendarView.tsx:15-17 | the key starts with the year's digits, followed by a dash, a two-digit month, a dash and a two-digit day |
| CalendarView.FormatDateKeyRoundTrip | components/CalendarView.tsx:15-17 | the key is ten characters "YYYY-MM-DD", with month `monthIndex + 1`, and parses back to that date |
| CalendarView.FormatDateKeyInjective | components/CalendarView.tsx:15-17 | two keys are equal exactly when year, month and day are equal |
| CalendarView.GetDayType | components/CalendarView.tsx:19-36 | a special date has its own category; otherwise a Sunday is SUNDAY; otherwise a date inside a class range, inclusive at both ends, is CLASSES; otherwise NONE |
| CalendarView.ClassesOnlyOnRangeWeekdays | components/CalendarView.tsx:19-36 | CLASSES holds exactly for a non-special, non-Sunday date in a range; SUNDAY holds exactly for a non-special Sunday; a Sunday is never CLASSES |
| CalendarView.ExamDaysAreExams | components/CalendarView.tsx:19-22 | an exam date is classified EXAM and lies in no class range |
| CalendarView.HoliIsHolidayNotClasses | components/CalendarView.tsx:19-22 | 2026-03-04 lies in a class range and is still classified HOLIDAY |
| CalendarView.BuildMonthDays | components/CalendarView.tsx:203-212 | the grid is `firstDay` blanks followed by the days 1 to `daysInMonth` in order |
| CalendarView.MonthGridColumnIsWeekday | components/CalendarView.tsx:195-212 | the grid cell of day `d` sits in the column of that date's weekday |
| CalendarView.ColumnOfDay | components/CalendarView.tsx:203-212 | a cell's position modulo 7 is the weekday of the day it holds |
| PlannerContext.FindSubject | context/PlannerContext.tsx:92 | nothing is found exactly when no subject has the key as id or code; otherwise the result is the first subject that does |
| PlannerContext.AfterCancelClass | context/PlannerContext.tsx:72-74 | `cancelClass` grows the cancellations by one, ending with a cancellation of (date, slot) under the given id, and changes nothing else |
| PlannerContext.AfterRestoreClass | context/PlannerContext.tsx:76-78 | `restoreClass` never lengthens the cancellations and changes nothing else |
| PlannerContext.AfterDeleteSubject | context/PlannerContext.tsx:62-66 | `deleteSubject` only shortens subjects, slots and extras, and leaves cancellations, notes and events unchanged |
| PlannerContext.AfterUpdateSubject | context/PlannerContext.tsx:58-60 | `updateSubject` keeps the number of subjects, every subject after it is either the new one or an old one with another id, and nothing else changes |
| PlannerContext.Planner.constructor | context/PlannerContext.tsx:48-54 | a new store holds the seed subjects and the seed timetable, and empty cancellations, extras, notes and events |
| PlannerContext.Planner.AddSubject | context/PlannerContext.tsx:56 | the subject is appended at the end and nothing else changes |
| PlannerContext.Planner.UpdateSubject | context/PlannerContext.tsx:58-60 | subjects with the given id are replaced in place, and the rest of the store is unchanged |
| PlannerContext.Planner.DeleteSubject | context/PlannerContext.tsx:62-66 | the subject, its slots and its extras are removed in one step |
| PlannerContext.Planner.AddSlot | context/PlannerContext.tsx:68 | the slot is appended to the timetable and nothing else changes |
| PlannerContext.Planner.RemoveSlot | context/PlannerContext.tsx:70 | exactly the slots with that id leave the timetable; the rest stay in order, and cancellations are untouched |
| PlannerContext.Planner.CancelClass | context/PlannerContext.tsx:72-74 | one cancellation of (date, slot) with a new id is appended |
| PlannerContext.Planner.RestoreClass | context/PlannerContext.tsx:76-78 | every cancellation of (date, slot) is removed, and the others stay in order |
| PlannerContext.Planner.AddExtraClass | context/PlannerContext.tsx:80 | the extra is appended and nothing else changes |
| PlannerContext.Planner.RemoveExtraClass | context/PlannerContext.tsx:82 | exactly the extras with that id are removed |
| PlannerContext.Planner.AddNote | context/PlannerContext.tsx:84 | the note is appended and nothing else changes |
| PlannerContext.Planner.DeleteNote | context/PlannerContext.tsx:86 | exactly the notes with that id are removed |
| PlannerContext.Planner.AddCustomEvent | context/PlannerContext.tsx:88 | the event is appended and nothing else changes |
| PlannerContext.Planner.DeleteCustomEvent | context/PlannerContext.tsx:90 | exactly the events with that id are removed |
| PlannerContext.Planner.GetSubject | context/PlannerContext.tsx:92 | a found subject is in the store and answers to the key by id or by code |
| PlannerContext.CancelAddsOne | context/PlannerContext.tsx:72-74 | cancelling keeps the old cancellations as a prefix and adds exactly one more for (date, slot), even if one exists already; nothing else changes |
| PlannerContext.RestoreRemovesAll | context/PlannerContext.tsx:76-78 | after a restore no cancellation of (date, slot) remains and every other one does; restoring an occurrence that is not cancelled changes nothing |
| PlannerContext.CancelThenRestore | context/PlannerContext.tsx:72-78 | cancel followed by restore leaves the same store as restore alone: the occurrence is back and the other cancellations are unchanged |
| PlannerContext.DeleteSubjectCascades | context/PlannerContext.tsx:62-66 | deleting removes exactly the subjects with that id and the slots and extras that reference it; cancellations, notes and events are unchanged; with ids equal to codes the subject is no longer found |
| PlannerContext.DeleteByCodeKeepsLookup | context/PlannerContext.tsx:62-92 | for every store, deleting by a key that is no subject's id removes no subject, and a subject whose code is that key is still found by it |
| PlannerContext.UpdateSubjectReplaces | context/PlannerContext.tsx:58-60 | updating keeps length and order, replaces exactly the entries with the subject's id, and keeps ids equal to codes |
| TodayView.TodaysSlots | components/TodayView.tsx:20-36 | today's list is sorted by start time and is a permutation of the uncancelled template slots followed by the extras |
| TodayView.RecurringMembers | components/TodayView.tsx:22-25 | the template part holds exactly the slots of today's weekday that are not cancelled today |
| TodayView.ExtraMembers | components/TodayView.tsx:28-30 | the extra part holds exactly the extras dated today |
| TodayView.TodaysSlotsMembers | components/TodayView.tsx:20-36 | a slot is on today's list exactly when it is on today's weekday and not cancelled today; an extra is on it exactly when it is dated today |
| TodayView.TodaysSlotsCount | components/TodayView.tsx:20-35 | the list is as long as the uncancelled slots of the day plus the extras of the date, so nothing is lost or duplicated |
| TodayView.TodaysSlotsTies | components/TodayView.tsx:33-35 | among entries with equal start times, template slots keep their order and come before extras, which keep theirs |
| TodayView.ExtrasStayBehind | components/TodayView.tsx:33-35 | after the stable sort, no template slot follows an extra with the same start time |
| TodayView.RecurringThenExtras | components/TodayView.tsx:33 | in a template part followed by an extra part, every entry after an extra is an extra |
| TodayView.GetCurrentStatus | components/TodayView.tsx:39-52 | exactly one status: ONGOING when start ≤ now < end, UPCOMING when now < start, COMPLETED otherwise |
| TodayView.StatusAdvances | components/TodayView.tsx:49-51 | as time goes on, an entry's status only moves from UPCOMING to ONGOING to COMPLETED |
| TodayView.ScrollRefs | components/TodayView.tsx:61-95 | the scroll marker is on the first ongoing or upcoming entry and on no other, and some entry carries it exactly when one is ongoing or upcoming |
| TimetableView.CurrentWeekDates | components/TimetableView.tsx:53-72 | seven consecutive real dates from Monday to Sunday, with today among them at the position of its weekday |
| TimetableView.WeekFromMonday | components/TimetableView.tsx:55-63 | seven days counted from the Monday on or before today run Monday to Sunday and include today |
| TimetableView.WeekStart | components/TimetableView.tsx:55-57 | the week starts on a Monday that is `(getDay() + 6) % 7` days before today, so six days before a Sunday |
| TimetableView.WeekdayFromMonday | components/TimetableView.tsx:60-62 | day `k` after a Monday is a real date with `getDay()` equal to `(k + 1) % 7` |
| TimetableView.BackToMonday | components/TimetableView.tsx:56 | the offset `-day + (day == 0 ? -6 : 1)` goes back `(day + 6) % 7` days and lands on a Monday |
| TimetableView.OffsetLandsOnWeekStart | components/TimetableView.tsx:55-57 | the grid's offset from today stays in the calendar and reaches the Monday on or before today |
| TimetableView.MondayOnOrBefore | components/TimetableView.tsx:55-57 | going back to the Monday never leaves the calendar |
| TimetableView.MondayStep | components/TimetableView.tsx:55-56 | from day number `n` with weekday `w`, going back `(w + 6) % 7` days lands on a multiple of seven and stays non-negative |
| TimetableView.GetSlotForCell | components/TimetableView.tsx:78-89 | the first extra on that date starting at that hour shadows the template; otherwise the first slot of that weekday starting at that hour, flagged cancelled exactly when a cancellation names that date and slot; nothing when neither exists |
| TimetableView.IsCovered | components/TimetableView.tsx:92-99 | a cell is covered exactly when some earlier row from 8 on holds an occurrence that lasts past it; the 8:00 row never is |
| TimetableView.SpanHidesFollowingRows | components/TimetableView.tsx:96 | an occurrence of duration `d` at row `h` covers rows `h + 1` to `h + d - 1` |
| TimetableView.CellAgreesWithToday | components/TimetableView.tsx:78-86 | on today's column, a cell shown uncancelled is on today's timeline, and one shown cancelled is not |
| ClassManager.EndTimeText | components/ClassManager.tsx:66-70 | the end time is the two-digit start hour plus duration followed by ":00", and reading it back gives that hour |
| ClassManager.EndTimeOf | components/ClassManager.tsx:68-70 | the end time lies `duration` hours after the full hour of the start, and is a valid time when the end hour is below 100 |
| ClassManager.HandleAddClass | components/ClassManager.tsx:66-81 | the form appends one slot with a new id and an end hour of start hour plus duration, and nothing else changes |
| ClassManager.UpperChar | components/ClassManager.tsx:399-400 | lower-case ASCII letters map to upper case and every other character is unchanged |
| ClassManager.ToUpper | components/ClassManager.tsx:399-400 | upper-casing maps each character through `UpperChar`, so it keeps the length and leaves no lower-case letter |
| ClassManager.ToUpperIdempotent | components/ClassManager.tsx:399-400 | upper-casing twice is upper-casing once |
| ClassManager.HandleAddSubject | components/ClassManager.tsx:395-405 | an empty code changes nothing; otherwise one subject whose id and code are the upper-cased input is appended |
| ClassManager.NewSubjectKeyedByCode | components/ClassManager.tsx:397-403 | the new subject keeps ids equal to codes, is found under its upper-cased code, and is the subject found when no earlier one answers to that code |
| ClassManager.Reschedule | components/ClassManager.tsx:164-208 | the store after the dialog is the template-mode or the instance-mode effect, chosen by the box and the target's kind |
| ClassManager.RescheduleEffect | components/ClassManager.tsx:164-208 | subjects, notes and events never change. Template mode leaves cancellations and extras alone and ends the timetable with the moved slot. Instance mode leaves the timetable alone and ends the extras with the moved extra. It appends one cancellation of the original occurrence for a slot and none for an extra |
| ClassManager.MovedSlot | components/ClassManager.tsx:176-185 | the new template slot has the new id, the target's subject, the new date's weekday, the new start time, and an end `duration` hours later |
| ClassManager.MovedExtra | components/ClassManager.tsx:196-204 | the new extra has the new id, the target's subject, the new date, the new start time, and an end `duration` hours later |
| ClassManager.TemplateReschedule | components/ClassManager.tsx:171-185 | template mode removes the old slot id and adds one slot with the same subject on the new date's weekday, spanning the duration; nothing else changes |
| ClassManager.TemplateRescheduleMovesTimeline | components/ClassManager.tsx:171-185 | after template mode the old slot is on no day's timeline, and the new slot is on the new date's timeline |
| ClassManager.InstanceRescheduleOfSlot | components/ClassManager.tsx:186-204 | instance mode on a slot keeps the timetable, cancels the original date's occurrence, and appends one extra for the same subject on the new date |
| ClassManager.InstanceRescheduleMovesTimeline | components/ClassManager.tsx:186-204 | after instance mode the slot is off the original date's timeline, and the new extra is on the new date's timeline |
| ClassManager.InstanceRescheduleOfExtra | components/ClassManager.tsx:189-204 | rescheduling an extra replaces it by the new extra, leaves cancellations unchanged, and takes the old extra off its date's timeline |
| ClassManager.RecurringItems | components/ClassManager.tsx:302-314 | the recurring loop pushes exactly the LECTURE and LAB slots, each flagged cancelled exactly when a cancellation names that date and slot |
| ClassManager.ExtraItems | components/ClassManager.tsx:317-327 | the extras loop pushes one entry per extra, of any type, never flagged cancelled |
| ClassManager.DaysFrom | components/ClassManager.tsx:295-299 | the loop visits `n` real dates |
| ClassManager.ItemsFromNext | components/ClassManager.tsx:295-328 | one more turn of the loop appends exactly the next day's entries |
| ClassManager.PushRecurring | components/ClassManager.tsx:302-314 | the inner loop over template slots appends exactly that day's recurring entries |
| ClassManager.PushExtras | components/ClassManager.tsx:317-327 | the inner loop over extras appends exactly that day's extra entries |
| ClassManager.UpcomingClasses | components/ClassManager.tsx:287-334 | the list is the seven days' entries sorted by date and then start time, a permutation of them, with ties in push order |
| ClassManager.ItemsFromMembers | components/ClassManager.tsx:295-328 | the unsorted list of `n` days holds exactly the entries of the days less than `n` after today |
| ClassManager.ItemsOnMembers | components/ClassManager.tsx:295-328 | the entries pushed for a list of dates are exactly the entries of those dates |
| ClassManager.DaysFromMembers | components/ClassManager.tsx:295-297 | the visited dates are exactly the real dates from today up to, not including, `n` days later |
| ClassManager.IsNthDay | components/ClassManager.tsx:296-297 | a real date is the `k`-th day from today exactly when its day number is `k` more |
| ClassManager.UpcomingMembers | components/ClassManager.tsx:287-334 | the sorted list covers exactly the seven days from today: listed slots of each weekday and the extras of each date |
| ClassManager.DayItemsMembers | components/ClassManager.tsx:301-327 | one day's entries are exactly the listed slots of its weekday and the extras of its date |
| ClassManager.UpcomingKeyOrder | components/ClassManager.tsx:331-334 | the integer sort key orders entries as the comparator does: earlier date first, then earlier start time |
| ClassManager.DateOrdinalOrder | components/ClassManager.tsx:332 | comparing "YYYY-MM-DD" keys agrees with calendar order, and equal keys mean equal dates |

Facts that the datatypes carry without a member: a course slot's type is one
of LECTURE, LAB, LUNCH or EMPTY (types.ts:23); an extra's type is never EMPTY
(types.ts:34, the subset type `Types.ExtraType`); a cancellation holds only its
own id, a date and a slot id (types.ts:60-64); a custom event is an
ASSIGNMENT or an EVENT, and notes and events have an optional time
(types.ts:40-53); template entries are `Recurring` and extras are `Extra`,
which is the `isExtra` flag (components/TodayView.tsx:25, 30).

## Left out

- localStorage persistence and the JSON parse fallback of `useStickyState` (context/PlannerContext.tsx:31-46): this is I/O. A new `Planner` starts from the seed data, as on a first visit.
- React state, context and hook plumbing, the JSX, styling, the legend, the modals' form fields, notes and events UI: presentation only.
- The `setInterval` clock and `scrollIntoView` (components/TodayView.tsx:10-13, 55-59): the current date and time are parameters, and only which entry is marked is modelled.
- `Math.random` ids (constants.ts:61; context/PlannerContext.tsx:73; components/ClassManager.tsx:73, 178, 197): ids are arguments. `PlannerContext.Planner.CancelClass`, `ClassManager.HandleAddClass` and `ClassManager.Reschedule` require the id they add to be unused.
- Time zones and locales. `toISOString` gives the UTC date, while `toLocaleDateString` and `getDay` give the local one (components/TodayView.tsx:16-17; components/TimetableView.tsx:65-66; components/ClassManager.tsx:298-299). `new Date("YYYY-MM-DD")` is read as UTC midnight (components/ClassManager.tsx:176; components/CalendarView.tsx:26-30). Near midnight these can name different days. The model uses one calendar date for all of them.
- The localised display strings (`displayDate`, `shortName`, `dayNum`) of the grid and the upcoming list: presentation.
- `localeCompare` on "YYYY-MM-DD" keys is modelled as calendar order (`ClassManager.DateOrdinalOrder`). For four-digit years this equals comparing the strings character by character.
- `parseInt` returning `NaN`, and start times that are not "HH:MM": inputs come from time pickers, so the model assumes well-formed times wherever it relies on their text.
- ClassManager.ToUpper: upper-cases ASCII letters only. JavaScript's `toUpperCase` also maps other Unicode letters.
- TodayView.GetCurrentStatus: compares seconds of the day. The source sets hours and minutes on a copy of `now` and keeps its milliseconds, which cancel out of the comparison.
- ClassManager.UpcomingClasses: the loop body over one day is split into `PushRecurring` and `PushExtras`, and the `displayDate` field is not kept.
- Dates.DaysBeforeYear: its contract states only that the count is non-negative. The growth facts the proofs need are separate lemmas.
- The calendar's other screens (`DayDetailsModal`, the notes and events list per day) only read the store and are not modelled.
