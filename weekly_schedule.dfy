/** The weekly table: seven day columns of the selected week, the completion
    button of each listed activity, adding an activity from a day column, the
    delete confirmation dialog, and the per-day notes kept in local storage.
    Rendering, hover and expand flags are not modelled. */
module WeeklySchedule {
  import opened Js
  import opened Seqs
  import opened Activities
  import opened Store

  // ------------------------------------------------------------ columns

  function HasDay(day: int): Activity -> bool
  {
    (a: Activity) => day in a.selectedDays
  }

  /** Column `day` of the table: the activities of the selected week whose
      day list holds `day`, in collection order. */
  function DayColumn(activities: seq<Activity>, weekNumber: int, year: int, day: int): (r: seq<Activity>)
    ensures forall a :: a in r <==> a in activities && InWeek(a, weekNumber, year) && day in a.selectedDays
  {
    Filter(CurrentWeek(activities, weekNumber, year), HasDay(day))
  }

  /** Appending an activity changes only the columns of its own week and
      days, and there it comes last. */
  lemma {:induction false} AppendedColumn(activities: seq<Activity>, a: Activity, weekNumber: int, year: int, day: int)
    ensures DayColumn(activities + [a], weekNumber, year, day) ==
      DayColumn(activities, weekNumber, year, day) + (if InWeek(a, weekNumber, year) && day in a.selectedDays then [a] else [])
  {
    var week := WeekTest(weekNumber, year);
    var column := HasDay(day);
    FilterAppend(activities, [a], week);
    assert [a][1..] == [];
    FilterAppend(Filter(activities, week), Filter([a], week), column);
  }

  // ------------------------------------------------------------ completion

  /** `{ ...completedDays, [day]: !isCompleted }`: the completion map after
      the check button of `day` is pressed. */
  function ToggledCompletion(completed: map<int, bool>, day: int): (r: map<int, bool>)
    ensures IsDone(r, day) == !IsDone(completed, day)
    ensures day !in completed ==> day in r && r[day]
    ensures forall d :: d != day ==> (d in r <==> d in completed)
    ensures forall d :: d != day && d in r ==> r[d] == completed[d]
  {
    completed[day := !IsDone(completed, day)]
  }

  /** Pressing the same button twice restores every day's completion. */
  lemma ToggleTwice(completed: map<int, bool>, day: int, d: int)
    ensures IsDone(ToggledCompletion(ToggledCompletion(completed, day), day), d) == IsDone(completed, d)
  {
  }

  // ------------------------------------------------------------ adding

  /** The record `handleAddActivity` hands to `addActivity`: the form's
      submission with the day list replaced by the selected day and the week
      replaced by the viewed one. The hook's id and creation time are given. */
  function FromDayColumn(s: Submission, day: int, weekNumber: int, year: int, id: string, createdAt: string): (a: Activity)
    ensures a.selectedDays == [day] && InWeek(a, weekNumber, year)
    ensures a.title == s.title && a.description == s.description && a.targetCount == s.targetCount
    ensures a.domainId == s.domainId && a.allowSunday == s.allowSunday && a.reminder == s.reminder
    ensures forall d :: !IsDone(a.completedDays, d)
  {
    Activity(id, s.title, s.description, s.targetCount, s.domainId, [day], s.allowSunday, map[], s.reminder,
             weekNumber, year, createdAt)
  }

  /** An activity added from column `day` appears at the end of that column
      of the viewed week and in no other column. */
  lemma AddedFromColumn(activities: seq<Activity>, s: Submission, day: int, weekNumber: int, year: int,
                        id: string, createdAt: string, other: int)
    ensures var a := FromDayColumn(s, day, weekNumber, year, id, createdAt);
      DayColumn(activities + [a], weekNumber, year, other) ==
        DayColumn(activities, weekNumber, year, other) + (if other == day then [a] else [])
  {
    AppendedColumn(activities, FromDayColumn(s, day, weekNumber, year, id, createdAt), weekNumber, year, other);
  }

  // ------------------------------------------------------------ notes

  /** The five empty notes shown for a day with nothing stored. */
  const EmptyNotes: seq<string> := ["", "", "", "", ""]

  /** The initial positive notes of a day: what storage holds, else five
      empty strings. */
  function LoadPositiveNotes(stored: map<DayKey, seq<string>>, key: DayKey): (r: seq<string>)
    ensures key in stored ==> r == stored[key]
    ensures key !in stored ==> |r| == 5 && forall i :: 0 <= i < |r| ==> r[i] == ""
  {
    if key in stored then stored[key] else EmptyNotes
  }

  /** The initial free writing of a day: what storage holds, else empty. */
  function LoadFreeWriting(stored: map<DayKey, string>, key: DayKey): (r: string)
    ensures key in stored ==> r == stored[key]
    ensures key !in stored ==> r == ""
  {
    if key in stored && stored[key] != "" then stored[key] else ""
  }

  /** `newNotes[index] = value` on a copy: only slot `index` changes. */
  function EditedNotes(notes: seq<string>, index: int, value: string): (r: seq<string>)
    requires 0 <= index < |notes|
    ensures |r| == |notes| && r[index] == value
    ensures forall i :: 0 <= i < |r| && i != index ==> r[i] == notes[i]
  {
    notes[index := value]
  }

  /** The notes of one day column. Each change is written to storage at
      once under the column's own key, standing for the component's effect. */
  class DayNotes {
    const store: Tracker
    const key: DayKey
    var positiveNotes: seq<string>
    var freeWriting: string

    /** The view and storage agree on this day's notes. */
    predicate Valid()
      reads this, store
    {
      && key in store.positiveNotes && store.positiveNotes[key] == positiveNotes
      && key in store.freeWriting && store.freeWriting[key] == freeWriting
    }

    /** Mounting the column: load both notes, then write them back. */
    constructor (store: Tracker, weekNumber: int, year: int, day: int)
      modifies store
      ensures this.store == store && key == DayKey(weekNumber, year, day)
      ensures positiveNotes == LoadPositiveNotes(old(store.positiveNotes), key)
      ensures freeWriting == LoadFreeWriting(old(store.freeWriting), key)
      ensures store.activities == old(store.activities)
      ensures store.positiveNotes == old(store.positiveNotes)[key := positiveNotes]
      ensures store.freeWriting == old(store.freeWriting)[key := freeWriting]
      ensures Valid()
    {
      var k := DayKey(weekNumber, year, day);
      var notes := LoadPositiveNotes(store.positiveNotes, k);
      var text := LoadFreeWriting(store.freeWriting, k);
      this.store := store;
      key := k;
      positiveNotes := notes;
      freeWriting := text;
      new;
      store.SetPositiveNotes(k, notes);
      store.SetFreeWriting(k, text);
    }

    /** Editing slot `index` of the five positive notes. */
    method HandlePositiveNoteChange(index: int, value: string)
      requires Valid() && 0 <= index < |positiveNotes|
      modifies this, store
      ensures positiveNotes == EditedNotes(old(positiveNotes), index, value)
      ensures freeWriting == old(freeWriting)
      ensures store.positiveNotes == old(store.positiveNotes)[key := positiveNotes]
      ensures store.freeWriting == old(store.freeWriting) && store.activities == old(store.activities)
      ensures Valid()
    {
      positiveNotes := EditedNotes(positiveNotes, index, value);
      store.SetPositiveNotes(key, positiveNotes);
    }

    /** Typing in the free-writing box. */
    method HandleFreeWritingChange(text: string)
      requires Valid()
      modifies this, store
      ensures freeWriting == text && positiveNotes == old(positiveNotes)
      ensures store.freeWriting == old(store.freeWriting)[key := text]
      ensures store.positiveNotes == old(store.positiveNotes) && store.activities == old(store.activities)
      ensures Valid()
    {
      freeWriting := text;
      store.SetFreeWriting(key, text);
    }
  }

  // ------------------------------------------------------------ the view

  /** The activity a delete button asked about. */
  datatype PendingDelete = PendingDelete(id: string, dayIndex: int)

  class WeeklyView {
    const store: Tracker
    const weekNumber: int
    const year: int
    /** The day column whose add form is open. */
    var selectedDay: Option<int>
    var activityToDelete: Option<PendingDelete>
    var showConfirmation: bool

    /** The dialog is shown exactly while a deletion is pending. */
    predicate Valid()
      reads this
    {
      showConfirmation <==> activityToDelete.Some?
    }

    constructor (store: Tracker, weekNumber: int, year: int)
      ensures this.store == store && this.weekNumber == weekNumber && this.year == year
      ensures selectedDay == None && activityToDelete == None && !showConfirmation
      ensures Valid()
    {
      this.store := store;
      this.weekNumber := weekNumber;
      this.year := year;
      selectedDay := None;
      activityToDelete := None;
      showConfirmation := false;
    }

    /** The plus button of a day heading. */
    method SelectDay(day: int)
      modifies this
      ensures selectedDay == Some(day)
      ensures activityToDelete == old(activityToDelete) && showConfirmation == old(showConfirmation)
    {
      selectedDay := Some(day);
    }

    /** `handleAddActivity`: with a day selected, add the submission to that
      day of the viewed week and close the form; otherwise do nothing. */
    method HandleAddActivity(s: Submission, id: string, createdAt: string)
      modifies this, store
      ensures selectedDay.None? && activityToDelete == old(activityToDelete) && showConfirmation == old(showConfirmation)
      ensures old(selectedDay).None? ==> store.activities == old(store.activities)
      ensures old(selectedDay).Some? ==>
        store.activities == old(store.activities) + [FromDayColumn(s, old(selectedDay).value, weekNumber, year, id, createdAt)]
      ensures store.positiveNotes == old(store.positiveNotes) && store.freeWriting == old(store.freeWriting)
    {
      if selectedDay.Some? {
        store.Add(FromDayColumn(s, selectedDay.value, weekNumber, year, id, createdAt));
        selectedDay := None;
      }
    }

    /** The check button of `a` in column `day`: the rendered record's
      completion map, toggled at `day`, replaces that of every record with
      its id. */
    method ToggleCompletion(a: Activity, day: int)
      modifies store
      ensures store.activities == Updated(old(store.activities), a.id, CompletedDaysPatch(ToggledCompletion(a.completedDays, day)))
      ensures store.positiveNotes == old(store.positiveNotes) && store.freeWriting == old(store.freeWriting)
    {
      store.Update(a.id, CompletedDaysPatch(ToggledCompletion(a.completedDays, day)));
    }

    /** The delete button: remember the request and show the dialog. */
    method RequestDelete(id: string, dayIndex: int)
      modifies this
      ensures activityToDelete == Some(PendingDelete(id, dayIndex)) && showConfirmation
      ensures selectedDay == old(selectedDay)
      ensures Valid()
    {
      activityToDelete := Some(PendingDelete(id, dayIndex));
      showConfirmation := true;
    }

    /** "Yes": delete the whole activity by id (the recorded day is not
      used), then clear the request; nothing happens when none is pending. */
    method ConfirmDelete()
      requires Valid()
      modifies this, store
      ensures old(activityToDelete).None? ==>
        && store.activities == old(store.activities)
        && activityToDelete == old(activityToDelete) && showConfirmation == old(showConfirmation)
      ensures old(activityToDelete).Some? ==>
        && store.activities == WithoutId(old(store.activities), old(activityToDelete).value.id)
        && activityToDelete.None? && !showConfirmation
      ensures selectedDay == old(selectedDay)
      ensures store.positiveNotes == old(store.positiveNotes) && store.freeWriting == old(store.freeWriting)
      ensures Valid()
    {
      if activityToDelete.Some? {
        store.Delete(activityToDelete.value.id);
        activityToDelete := None;
        showConfirmation := false;
      }
    }

    /** "No": clear the request without deleting. */
    method CancelDelete()
      modifies this
      ensures activityToDelete.None? && !showConfirmation
      ensures selectedDay == old(selectedDay)
      ensures Valid()
    {
      activityToDelete := None;
      showConfirmation := false;
    }
  }
}
