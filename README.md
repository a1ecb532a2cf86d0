# Habit tracker: weekly statistics, schedule, form and backup, in Dafny

This project models the core of a React habit tracker. Users plan activities
per week, tick off the days they did them, and keep short notes per day. The
model covers:

- **Evaluation tab** (`evaluation.dfy`, `backup.dfy`): the week filter, the
  per-domain and overall completion figures with their rounded percentage,
  the complete / partial / at-risk badge, the per-activity mark, and export
  and import of the whole collection with each activity's day notes.
- **Weekly table** (`weekly_schedule.dfy`): the day columns, the completion
  button, adding an activity from a day column, the delete confirmation
  dialog, and the per-day positive notes and free writing.
- **Activity form** (`activity_form.dfy`): the day checkboxes, "select all but
  Sunday", and the submit handler with its guard, normalisation, reminder and
  reset.
- **Application shell** (`app.dfy`): week stamping on add, and the
  `onToggleReminder` callback the shell hands to the weekly table. No
  component among the modelled files calls it: the weekly table receives it
  but never invokes it, and its bell icon only shows the reminder time.

Shared pieces:

- `activities.dfy`: the activity record and the week filter.
- `store.dfy`: a `Tracker` class that stands for the activity collection and
  the note keys of local storage.
- `js.dfy`: the JavaScript semantics the components lean on (`undefined`,
  NaN, `trim`, `split`, `parseInt`, `Number`).
- `seqs.dfy`: `filter` and summation over sequences.

State that the source changes step by step is modelled imperatively:

- `Tracker`, `WeeklyView`, `DayNotes` and `Form` are classes whose methods
  update fields.
- The accumulation loops of the statistics and the export, and the
  delete/add loops of the import, are `for` loops with invariants.
- Each of these is proved equal to a specification function, and the
  properties are proved about those functions.

The activity store hook is not part of this model. Its three operations are
given the meaning the components rely on:

- add appends the record it is given;
- delete removes every record with the id;
- update replaces the patched field of every record with the id.

## Model

| member | source | states |
|---|---|---|
| Activities.CurrentWeek | src/components/Evaluation.tsx:21 | an activity is in the week's list iff it is in the collection and both its week number and year match the selection |
| Activities.OtherWeeksIgnored | src/components/Evaluation.tsx:21 | inserting an activity of another week anywhere leaves the selected week's list unchanged |
| Evaluation.CompletedCount | src/components/Evaluation.tsx:32 | an activity's completed days never exceed its selected days |
| Evaluation.CompletedAtMostTotal | src/components/Evaluation.tsx:30-33 | over any list of activities the summed completed days are at most the summed selected days |
| Evaluation.Percentage | src/components/Evaluation.tsx:38 | `Math.round(100·completed/total)`: NaN exactly when total is 0; otherwise the integer nearest to 100·completed/total (halves up), within 0..100, 0 for nothing done and 100 for everything done |
| Evaluation.DomainActivities | src/components/Evaluation.tsx:24 | exactly the selected week's activities of the domain |
| Evaluation.DomainProgress | src/components/Evaluation.tsx:23-40 | total and completed are the domain's summed selected and completed days; zeros when the domain has no activity; the percentage is NaN exactly when the domain has activities but no selected day, and whenever the domain has activities it is the rounded ratio `Percentage(completed, total)` |
| Evaluation.CalculateDomainProgress | src/components/Evaluation.tsx:23-40 | the accumulation loop returns the domain progress |
| Evaluation.OverallRate | src/components/Evaluation.tsx:42-55 | totals over every activity of the week regardless of domain; zeros instead of a division when the total is 0, otherwise the rounded ratio `Percentage(completed, total)`, so the percentage is always a number in 0..100 |
| Evaluation.OverallCompletionRate | src/components/Evaluation.tsx:42-55 | the reduce and the accumulation loop return the overall rate |
| Evaluation.OnlySelectedWeekCounts | src/components/Evaluation.tsx:21 | an activity of another week, wherever it sits, changes neither the domain figures nor the overall figures |
| Evaluation.OverallSplitsByDomain | src/components/Evaluation.tsx:42-49 | the overall total and completed days are one domain's figures plus those of the other domains |
| Evaluation.TierOf | src/components/Evaluation.tsx:206 | complete iff the percentage is a number of at least 100, partial iff from 50 below 100, at risk otherwise |
| Evaluation.BadgesShown | src/components/Evaluation.tsx:212-214 | NaN shows no badge; the complete badge shows iff the percentage is at least 100, partial iff from 50 below 100, at risk iff below 50 |
| Evaluation.OneBadgePerPercentage | src/components/Evaluation.tsx:212-214 | a numeric percentage shows exactly one badge, the one its tier names; NaN shows none |
| Evaluation.StatusOf | src/components/Evaluation.tsx:225-226 | all-done mark iff every selected day is done (so an activity without days gets it); none-done mark iff no selected day is done and there is at least one |
| Evaluation.ShownDenominator | src/components/Evaluation.tsx:229 | never 0; the number of selected days when there are some, else a non-zero target count, else 1 |
| Evaluation.DomainProgressNaNExample | src/components/Evaluation.tsx:23-40 | a domain whose one activity of the week selects no day gets a NaN percentage and no badge at all |
| Evaluation.GuardedDomainProgress | src/components/Evaluation.tsx:44 | with the total guard of the overall rate the domain figures are zeros when no day is selected, the percentage is always a number in 0..100 with exactly one badge, and the result equals the as-written one whenever the total is positive |
| Backup.ExportAll | src/components/Evaluation.tsx:60-73 | one element per activity, in order, each keeping every field of its activity |
| Backup.ExportActivity | src/components/Evaluation.tsx:61-72 | the day loop builds the element of one activity |
| Backup.HandleExport | src/components/Evaluation.tsx:59-74 | the export holds one element per activity, notes attached |
| Backup.WriteBackNotes | src/components/Evaluation.tsx:123-137 | one element's truthy notes are written under its own week, every other key untouched, the collection unchanged |
| Backup.HandleFileChange | src/components/Evaluation.tsx:91-146 | no file, a parse error or a non-array changes neither activities nor notes and shows the matching alert; an array replaces the collection with the elements stripped of their note keys, each under the id and creation time the store hook assigns, and writes their truthy notes, first to last |
| Backup.DeleteAll | src/components/Evaluation.tsx:102 | deleting each shown activity by id empties the collection and leaves the notes |
| Backup.AddAll | src/components/Evaluation.tsx:104-138 | each element is appended without its note keys, under the id and creation time the store hook assigns, and its notes written back, in order |
| Backup.Received | src/components/Evaluation.tsx:104-122 | the stored records are the elements in order, each with the assigned id and creation time and every other field of the element |
| Backup.ExportedNotesAt | src/components/Evaluation.tsx:63-71 | an element carries day d's note iff d is 0..6 and storage holds a kept (stored positive, non-empty free) entry under the activity's own week key |
| Backup.NoteWritesAt | src/components/Evaluation.tsx:123-137 | the import writes at a key iff the key is a day 0..6 of the element's week and the element carries a kept note for that day |
| Backup.WritesOfExport | src/components/Evaluation.tsx:59-137 | an exported element writes back exactly the exported entries of its own week |
| Backup.ExportThenImportPositive | src/components/Evaluation.tsx:59-137 | after export then import, each key holds the exported positive notes if it is a day of an exported activity's week and was stored, else what storage held at import time |
| Backup.ExportThenImportFree | src/components/Evaluation.tsx:59-137 | the same for free writing, with only non-empty texts carried across |
| Backup.ReimportKeepsNotes | src/components/Evaluation.tsx:59-137 | importing an export into the storage it was read from leaves every note as it was |
| Backup.ExportThenImportActivities | src/components/Evaluation.tsx:59-122 | export then import gives back every activity, in order, equal in every field but the id and creation time |
| WeeklySchedule.DayColumn | src/components/WeeklySchedule.tsx:141 | column d shows exactly the selected week's activities whose day list holds d |
| WeeklySchedule.AppendedColumn | src/components/WeeklySchedule.tsx:141 | an appended activity changes only the columns of its own week and days, where it comes last |
| WeeklySchedule.ToggledCompletion | src/components/WeeklySchedule.tsx:81-86 | flips the completion of the pressed day only; a missing entry counts as not done, so its first toggle marks it done; every other day's entry is unchanged |
| WeeklySchedule.ToggleTwice | src/components/WeeklySchedule.tsx:81-86 | pressing the same day twice restores every day's completion |
| WeeklySchedule.FromDayColumn | src/components/WeeklySchedule.tsx:42-50 | the added record has the selected day as its only day and the viewed week, overriding the form's, and keeps the submission's other fields |
| WeeklySchedule.AddedFromColumn | src/components/WeeklySchedule.tsx:42-52 | an activity added from column d appears at the end of column d of the viewed week and in no other column |
| WeeklySchedule.LoadPositiveNotes | src/components/WeeklySchedule.tsx:110-113 | the stored notes of the day, else exactly five empty strings |
| WeeklySchedule.LoadFreeWriting | src/components/WeeklySchedule.tsx:114-116 | the stored text of the day, else the empty string |
| WeeklySchedule.EditedNotes | src/components/WeeklySchedule.tsx:127-131 | editing slot i sets slot i and keeps the length and every other slot |
| WeeklySchedule.DayNotes.constructor | src/components/WeeklySchedule.tsx:110-125 | mounting a day loads both notes under its (week, year, day) key and writes them back there, no other key touched |
| WeeklySchedule.DayNotes.HandlePositiveNoteChange | src/components/WeeklySchedule.tsx:119-131 | an edit changes one slot and the storage entry of this day only, keeping view and storage in agreement |
| WeeklySchedule.DayNotes.HandleFreeWritingChange | src/components/WeeklySchedule.tsx:123-125 | typing replaces this day's text in the view and in storage only |
| WeeklySchedule.WeeklyView.constructor | src/components/WeeklySchedule.tsx:28-30 | no day selected, no deletion pending and no dialog shown |
| WeeklySchedule.WeeklyView.SelectDay | src/components/WeeklySchedule.tsx:222 | the plus button of a day opens that day's form |
| WeeklySchedule.WeeklyView.HandleAddActivity | src/components/WeeklySchedule.tsx:42-52 | nothing is added when no day is selected; otherwise the record built from the selected day and viewed week is appended; either way the selection ends cleared |
| WeeklySchedule.WeeklyView.ToggleCompletion | src/components/WeeklySchedule.tsx:81-86 | the toggled completion map of the rendered record replaces that of every record with its id |
| WeeklySchedule.WeeklyView.RequestDelete | src/components/WeeklySchedule.tsx:96-99 | the request is recorded with its day and the dialog shown |
| WeeklySchedule.WeeklyView.ConfirmDelete | src/components/WeeklySchedule.tsx:191-198 | with a request pending, every record with its id is deleted whatever the recorded day, and the request and dialog are cleared; with none pending nothing changes |
| WeeklySchedule.WeeklyView.CancelDelete | src/components/WeeklySchedule.tsx:200-203 | the request and dialog are cleared and nothing is deleted |
| ActivityForm.CheckedDays | src/components/ActivityForm.tsx:164-170 | checking appends the day; unchecking removes every occurrence of it; every other day occurs as often as before |
| ActivityForm.CheckThenUncheck | src/components/ActivityForm.tsx:164-170 | checking then unchecking a day removes it everywhere and keeps the rest in order, giving back the list when the day was not in it |
| ActivityForm.AllButSundayDays | src/components/ActivityForm.tsx:94-96 | "select all" installs days 1..6 once each and never day 0 |
| ActivityForm.BuildReminder | src/components/ActivityForm.tsx:55-63 | none iff the time text is empty; a reminder iff the text is non-empty and both its hours and its minutes are numbers, and then it keeps the text as its time and is dated the week's first day at those hours and minutes; an invalid date otherwise |
| ActivityForm.TargetOf | src/components/ActivityForm.tsx:68 | absent iff the target text is empty, else parsed by `parseInt` |
| ActivityForm.Submit | src/components/ActivityForm.tsx:49-75 | refused iff the trimmed title or the domain is empty; fails iff the reminder date is invalid; otherwise submits the title, domain, day list and Sunday flag as entered, an empty description as absent, the parsed target, and a reminder iff a time was entered, namely the one `BuildReminder` makes of the time and the week's first day |
| ActivityForm.TimeParts | src/components/ActivityForm.tsx:56 | the hours are `Number` of the text before the first colon; with no colon the minutes are NaN, else `Number` of the text up to the next colon |
| ActivityForm.ClockTime | src/components/ActivityForm.tsx:56-58 | a time of digits, a colon and digits sets the reminder to those hours and minutes |
| ActivityForm.NoMinutesIsInvalid | src/components/ActivityForm.tsx:56-61 | a time without a colon has no minutes and makes the date invalid |
| ActivityForm.SundayKeptWhenNotAllowed | src/components/ActivityForm.tsx:164-170 | with Sunday not allowed, a ticked day 0 is still submitted |
| ActivityForm.InitialDomain | src/components/ActivityForm.tsx:43 | the initial domain when one is given, else the empty text |
| ActivityForm.Form.constructor | src/components/ActivityForm.tsx:37-43 | all fields empty, no days, Sunday not allowed, domain preset to the initial one or empty |
| ActivityForm.Form.ToggleDayCheckbox | src/components/ActivityForm.tsx:164-170 | only the day list changes, as the checkbox rule says |
| ActivityForm.Form.SelectAllDays | src/components/ActivityForm.tsx:94-96 | only the day list changes, to days 1..6 |
| ActivityForm.Form.HandleSubmit | src/components/ActivityForm.tsx:49-92 | the outcome is that of the submit rule on the fields; a submission resets every field and the domain to the initial one or empty; a refusal or failure changes no field |
| App.StampWeek | src/App.tsx:24-30 | the record carries the selected week number and year, every other field as given |
| App.HandleAddActivity | src/App.tsx:24-30 | the stamped record is appended |
| App.StampedJoinsWeek | src/App.tsx:24-30 | the stamped record joins the end of the selected week's list |
| App.ToggledDays | src/App.tsx:56-58 | the day is in the new list iff it was not in the old one; every other day occurs as often as before; an absent day is appended |
| App.ToggleDayTwice | src/App.tsx:56-58 | toggling a day twice restores its membership; an absent day leaves the list as it was, a present day comes back at the end |
| App.ReminderDays | src/App.tsx:52 | a missing reminder or a reminder without a day list reads as the empty list, else its day list |
| App.ToggledReminder | src/App.tsx:52-58 | the reminder's time and date are kept and its day list toggled; a missing reminder gives a day list holding the day alone |
| App.FindById | src/App.tsx:50 | none iff no record has the id, else the first record with it |
| App.OnToggleReminder | src/App.tsx:49-62 | an unknown id changes nothing; otherwise the toggled reminder of the first record with the id is set on every record with the id |
| App.ReminderToggleTwice | src/App.tsx:52-58 | toggling the same day twice through the reminder callback restores whether the reminder lists it |
| Store.Updated | src/App.tsx:18 | the update keeps the length and every id in place, patches exactly the records with the id, and is a no-op when no record has the id |
| Store.WithoutId | src/App.tsx:17 | after a delete, a record remains iff it was there and has another id; every record with another id keeps its number of occurrences; deleting an id no record has changes nothing |
| Store.Tracker.Add | src/App.tsx:15 | appends the record; the notes are untouched |
| Store.Tracker.Delete | src/App.tsx:17 | removes every record with the id; the notes are untouched |
| Store.Tracker.Update | src/App.tsx:18 | patches every record with the id; the notes are untouched |
| Store.Tracker.SetPositiveNotes | src/components/WeeklySchedule.tsx:119-121 | writes one day's positive notes under its key; every other key, the free writing and the collection are untouched |
| Store.Tracker.SetFreeWriting | src/components/WeeklySchedule.tsx:123-125 | writes one day's free writing under its key; everything else is untouched |
| Js.Trim | src/components/ActivityForm.tsx:51 | the trimmed text is empty iff the text is all white space |
| Js.Split | src/components/ActivityForm.tsx:56 | at least one part, none holding the separator, joined back they give the text |
| Js.ParseInt | src/components/ActivityForm.tsx:68 | blank text is NaN and a run of decimal digits is its value |
| Js.ParseIntShow | src/components/ActivityForm.tsx:68 | `parseInt` reads back every integer written in decimal |
| Js.NumberOf | src/components/ActivityForm.tsx:56 | blank text is 0 and a run of digits is its value |
| Seqs.RemoveAll | src/App.tsx:57 | the value no longer occurs, every other value occurs as often as before, and a list without it is returned unchanged |

## Left out

- Rendering, styling, icons, and the hover and expand flags are not modelled; they are presentation only.
- The download of the export is not modelled: the JSON text, the Blob, the object URL and the link click. Export is modelled up to the list of elements.
- The file reader is not modelled. A file is given as what `JSON.parse` makes of it (a parse error, a non-array, or a list of elements), or as no file.
- Backup.Record: an imported element is taken to carry an activity, note maps keyed by day, and nothing else. Keys other than the fourteen note keys are not modelled, nor note values of another JSON type. Nor is an element that is not an object: a `null` element makes the destructuring at src/components/Evaluation.tsx:105-121 throw after line 102 has deleted every activity and the earlier elements were added, and the catch at lines 143-146 then shows the parse-error alert. The model's import is all-or-nothing past the parse only for well-formed elements.
- Local storage is two maps keyed by (week, year, day), one per note kind. The components' effects that write notes are applied at once. A failing write, such as a full quota, is not modelled, so an import of well-formed elements completes once it has started.
- The activity store hook is not part of this model. It assigns ids and creation times, so those are parameters wherever a new record is made, the import included (`Backup.AddAll`, `Backup.HandleFileChange`): the model does not promise that an imported activity keeps the id or creation time written in the file. `Store.Tracker.Add` appends what it is given.
- The week utilities are not part of this model: the week number of a date, the dates of a week, and their formatting. The first date of the viewed week is a `weekStart` parameter.
- The reminder date's `toISOString` text is not modelled. A reminder date is its week start plus hours and minutes.
- The roll-over `setHours` performs for out-of-range hours or minutes is not modelled.
- Notification permission and scheduling are not modelled; they are calls into code that is not part of this model.
- Js.NumberOf: only blank text and plain runs of decimal digits are read as numbers. Everything else is NaN, including a sign, a fraction, an exponent, or hexadecimal, which JavaScript's `Number` would read. A time input yields `HH:MM`, which this covers.
- Js.ParseInt: only the decimal radix is modelled. The leading `0x` that `parseInt` also accepts is read as 0.
- Evaluation.Percentage: computed exactly on integers. The floating-point error of `completed / total * 100` before rounding is not modelled.
- The week selection hook is not modelled, nor changing the viewed week; the week and year are constants of a view. This hides what a week change does to a day column's notes in src/components/WeeklySchedule.tsx:110-125: the `useState` initialisers load the notes only once, while the two storage effects depend on the week and year. A week change therefore writes the previous week's notes, still held by the column, under the new week's keys, overwriting that week's stored notes. `WeeklySchedule.DayNotes` models one column for one fixed week.
- React's batching of state updates is not modelled, nor the stale values its closures can read. Each handler reads the state as it was when pressed and applies its updates in order.
- The placeholder functions at the end of the evaluation component are not modelled: they return constant values and nothing calls them.
- WeeklySchedule.WeeklyView.ToggleCompletion: the progress counter shown for activities with a target is not modelled. It lives in a component that is not part of this model.

## Findings

| source | as written | input that shows it | evidently intended | confidence | as-written member | corrected member |
|---|---|---|---|---|---|---|
| src/components/Evaluation.tsx:25, 38 | `calculateDomainProgress` returns zeros only when the domain has no activity, then divides by the summed day count | one activity of the week in the domain whose `selectedDays` is empty: total 0, percentage `Math.round(0/0)` = NaN, shown as "NaN%" with none of the three badges of lines 212-214 | guard on the total, as `overallCompletionRate` does at line 44, so the percentage is 0 and one badge shows | high (not executed) | Evaluation.DomainProgressNaNExample | Evaluation.GuardedDomainProgress |
