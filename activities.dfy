/** The activity record shared by every view, the form's submission, the keys
    of the per-day notes, and the week filter all views apply. */
module Activities {
  import opened Js
  import opened Seqs

  /** Day slots of a week (the `DAYS` table); day 0 is Sunday. */
  const DaysInWeek: nat := 7

  /** The date of a form reminder: the first day of the viewed week at the
      entered hours and minutes. The ISO text `toISOString` renders is not
      modelled; `weekStart` stands for the date the week utilities return. */
  datatype ReminderDate = ReminderDate(weekStart: string, hours: int, minutes: int)

  /** A reminder. The form sets `time` and `date`; the shell's reminder
      callback adds `days` and keeps whatever else was there. */
  datatype Reminder = Reminder(time: Option<string>, date: Option<ReminderDate>, days: Option<seq<int>>)

  /** One activity of one week. A day missing from `completedDays` is not
      completed. `targetCount` is NaN when the form's text did not parse. */
  datatype Activity = Activity(
    id: string,
    title: string,
    description: Option<string>,
    targetCount: Option<JsNumber>,
    domainId: string,
    selectedDays: seq<int>,
    allowSunday: bool,
    completedDays: map<int, bool>,
    reminder: Option<Reminder>,
    weekNumber: int,
    year: int,
    createdAt: string)

  /** What the activity form hands to its `onSubmit` callback. */
  datatype Submission = Submission(
    title: string,
    description: Option<string>,
    targetCount: Option<JsNumber>,
    selectedDays: seq<int>,
    allowSunday: bool,
    reminder: Option<Reminder>,
    domainId: string)

  /** The storage key of one day's notes: `<kind>-<week>-<year>-<day>`. */
  datatype DayKey = DayKey(week: int, year: int, day: int)

  /** `completedDays && completedDays[day]`: an absent entry reads as false. */
  predicate IsDone(completed: map<int, bool>, day: int)
  {
    day in completed && completed[day]
  }

  function DoneIn(completed: map<int, bool>): int -> bool
  {
    day => IsDone(completed, day)
  }

  predicate InWeek(a: Activity, weekNumber: int, year: int)
  {
    a.weekNumber == weekNumber && a.year == year
  }

  function WeekTest(weekNumber: int, year: int): Activity -> bool
  {
    a => InWeek(a, weekNumber, year)
  }

  /** `activities.filter(a => a.weekNumber === weekNumber && a.year === year)`:
      the activities of the selected week, in collection order. */
  function CurrentWeek(activities: seq<Activity>, weekNumber: int, year: int): (r: seq<Activity>)
    ensures forall a :: a in r <==> a in activities && InWeek(a, weekNumber, year)
    ensures forall i :: 0 <= i < |r| ==> InWeek(r[i], weekNumber, year)
  {
    Filter(activities, WeekTest(weekNumber, year))
  }

  /** Adding an activity of another week changes no week's list but its own:
      the current-week list of the selection ignores it. */
  lemma {:induction false} OtherWeeksIgnored(before: seq<Activity>, a: Activity, after: seq<Activity>, weekNumber: int, year: int)
    requires !InWeek(a, weekNumber, year)
    ensures CurrentWeek(before + [a] + after, weekNumber, year) == CurrentWeek(before + after, weekNumber, year)
  {
    FilterSkips(before, a, after, WeekTest(weekNumber, year));
  }
}
