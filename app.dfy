/** The two rules the application shell adds on top of the store: an
    activity added from the domain grid is stamped with the selected week, and
    the `onToggleReminder` callback it hands to the weekly table toggles a day
    in the activity's reminder day list. The weekly table receives that
    callback but never calls it, so no button of the modelled views reaches
    it. */
module App {
  import opened Js
  import opened Seqs
  import opened Activities
  import opened Store

  // ------------------------------------------------------------ week stamping

  /** `{ ...activity, weekNumber, year }`: the selected week overrides
      whatever week the record carried; every other field is kept. */
  function StampWeek(a: Activity, weekNumber: int, year: int): (r: Activity)
    ensures InWeek(r, weekNumber, year)
    ensures r.(weekNumber := a.weekNumber, year := a.year) == a
  {
    a.(weekNumber := weekNumber, year := year)
  }

  /** `handleAddActivity` of the shell. */
  method HandleAddActivity(t: Tracker, a: Activity, weekNumber: int, year: int)
    modifies t
    ensures t.activities == old(t.activities) + [StampWeek(a, weekNumber, year)]
    ensures t.positiveNotes == old(t.positiveNotes) && t.freeWriting == old(t.freeWriting)
  {
    t.Add(StampWeek(a, weekNumber, year));
  }

  /** A stamped activity joins the end of the selected week's list, so every
      view of that week shows it. */
  lemma {:induction false} StampedJoinsWeek(activities: seq<Activity>, a: Activity, weekNumber: int, year: int)
    ensures CurrentWeek(activities + [StampWeek(a, weekNumber, year)], weekNumber, year) ==
      CurrentWeek(activities, weekNumber, year) + [StampWeek(a, weekNumber, year)]
  {
    var stamped := StampWeek(a, weekNumber, year);
    FilterAppend(activities, [stamped], WeekTest(weekNumber, year));
    assert [stamped][1..] == [];
  }

  // ------------------------------------------------------------ reminder days

  /** `activity.reminder?.days || []`: no reminder, or no day list, reads as
      the empty list (an array, even empty, is truthy). */
  function ReminderDays(reminder: Option<Reminder>): (r: seq<int>)
    ensures reminder.None? ==> r == []
    ensures reminder.Some? && reminder.value.days.None? ==> r == []
    ensures reminder.Some? && reminder.value.days.Some? ==> r == reminder.value.days.value
  {
    if reminder.Some? && reminder.value.days.Some? then reminder.value.days.value else []
  }

  /** `days.includes(d) ? days.filter(x => x !== d) : [...days, d]`. */
  function ToggledDays(days: seq<int>, day: int): (r: seq<int>)
    ensures day in r <==> day !in days
    ensures forall d :: d != day ==> multiset(r)[d] == multiset(days)[d]
    ensures day !in days ==> r == days + [day]
  {
    if day in days then RemoveAll(days, day) else days + [day]
  }

  /** Toggling a day twice restores whether it is in the list; a day that was
      absent is removed again, leaving the list as it was, while a day that
      was present is put back at the end. */
  lemma {:induction false} ToggleDayTwice(days: seq<int>, day: int)
    ensures day in ToggledDays(ToggledDays(days, day), day) <==> day in days
    ensures day !in days ==> ToggledDays(ToggledDays(days, day), day) == days
    ensures day in days ==> ToggledDays(ToggledDays(days, day), day) == RemoveAll(days, day) + [day]
  {
    if day !in days {
      RemoveAllAppend(days, [day], day);
      assert RemoveAll([day], day) == [];
    }
  }

  /** `{ ...activity.reminder, days: toggled }`: the reminder's time and date
      are kept (absent when there was no reminder), and the day list toggled. */
  function ToggledReminder(reminder: Option<Reminder>, day: int): (r: Reminder)
    ensures r.days == Some(ToggledDays(ReminderDays(reminder), day))
    ensures reminder.Some? ==> r.time == reminder.value.time && r.date == reminder.value.date
    ensures reminder.None? ==> r == Reminder(None, None, Some([day]))
  {
    var days := Some(ToggledDays(ReminderDays(reminder), day));
    assert ToggledDays([], day) == [day];
    if reminder.Some? then reminder.value.(days := days) else Reminder(None, None, days)
  }

  /** `activities.find(a => a.id === id)`: the first record with the id. */
  function FindById(activities: seq<Activity>, id: string): (r: Option<Activity>)
    ensures r.None? <==> forall a :: a in activities ==> a.id != id
    ensures r.Some? ==> r.value in activities && r.value.id == id
    ensures r.Some? ==> exists i :: 0 <= i < |activities| && activities[i] == r.value
                                   && forall j :: 0 <= j < i ==> activities[j].id != id
  {
    if activities == [] then None
    else if activities[0].id == id then Some(activities[0])
    else
      var r := FindById(activities[1..], id);
      assert forall a :: a in activities ==> a == activities[0] || a in activities[1..];
      if r.Some? then
        var i :| 0 <= i < |activities[1..]| && activities[1..][i] == r.value
                 && forall j :: 0 <= j < i ==> activities[1..][j].id != id;
        assert activities[i + 1] == r.value;
        r
      else r
  }

  /** `onToggleReminder`: with no record of the id nothing changes;
      otherwise the reminder computed from the first such record replaces the
      reminder of every record with the id. */
  method OnToggleReminder(t: Tracker, id: string, day: int)
    modifies t
    ensures FindById(old(t.activities), id).None? ==> t.activities == old(t.activities)
    ensures FindById(old(t.activities), id).Some? ==>
      t.activities == Updated(old(t.activities), id,
                              ReminderPatch(ToggledReminder(FindById(old(t.activities), id).value.reminder, day)))
    ensures t.positiveNotes == old(t.positiveNotes) && t.freeWriting == old(t.freeWriting)
  {
    var found := FindById(t.activities, id);
    if found.Some? {
      t.Update(id, ReminderPatch(ToggledReminder(found.value.reminder, day)));
    }
  }

  /** Toggling the same day twice through the callback restores whether the
      reminder lists that day. */
  lemma ReminderToggleTwice(reminder: Option<Reminder>, day: int)
    ensures day in ReminderDays(Some(ToggledReminder(Some(ToggledReminder(reminder, day)), day)))
      <==> day in ReminderDays(reminder)
  {
    ToggleDayTwice(ReminderDays(reminder), day);
  }
}
