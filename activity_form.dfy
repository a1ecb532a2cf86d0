/** The activity form: its text fields, the day checkboxes, the "all but
    Sunday" button and the submit handler, which refuses a submission without
    a title or a domain, normalises the optional fields, builds the reminder
    and resets the form. Notification scheduling is not modelled. */
module ActivityForm {
  import opened Js
  import opened Seqs
  import opened Activities

  // ------------------------------------------------------------ day list

  /** The day list after the checkbox of `day` changes to `checked`: a check
      appends the day, an uncheck removes every occurrence of it. */
  function CheckedDays(days: seq<int>, day: int, checked: bool): (r: seq<int>)
    ensures checked ==> r == days + [day]
    ensures !checked ==> day !in r && (day !in days ==> r == days)
    ensures forall d :: d != day ==> multiset(r)[d] == multiset(days)[d]
  {
    if checked then days + [day] else RemoveAll(days, day)
  }

  /** Checking a day and unchecking it again leaves the list without that
      day and with every other day where it was. */
  lemma {:induction false} CheckThenUncheck(days: seq<int>, day: int)
    ensures CheckedDays(CheckedDays(days, day, true), day, false) == RemoveAll(days, day)
    ensures day !in days ==> CheckedDays(CheckedDays(days, day, true), day, false) == days
  {
    RemoveAllAppend(days, [day], day);
    assert RemoveAll([day], day) == [];
  }

  /** The list "select all but Sunday" installs. */
  const AllButSunday: seq<int> := [1, 2, 3, 4, 5, 6]

  /** It holds every day of the week but Sunday, once each. */
  lemma AllButSundayDays()
    ensures 0 !in AllButSunday
    ensures forall d :: d in AllButSunday <==> 1 <= d < DaysInWeek
    ensures forall i, j :: 0 <= i < j < |AllButSunday| ==> AllButSunday[i] != AllButSunday[j]
  {
  }

  // ------------------------------------------------------------ submit

  /** The form's state as its inputs hold it, every field as text except the
      day list and the Sunday checkbox. */
  datatype FormFields = FormFields(
    title: string,
    description: string,
    targetCount: string,
    selectedDays: seq<int>,
    allowSunday: bool,
    reminderTime: string,
    domainId: string)

  /** What becomes of the reminder time: none when the input is empty; an
      invalid date (on which `toISOString` throws) when the hours or the
      minutes are not numbers; otherwise a reminder on the week's first day. */
  datatype ReminderOutcome = NoReminder | InvalidDate | WithReminder(reminder: Reminder)

  /** What a press of the submit button does. */
  datatype SubmitOutcome =
    | Refused               // guard failed: nothing submitted, nothing reset
    | Threw                 // the reminder date was invalid: the handler stopped
    | Submitted(submission: Submission)

  /** `reminderTime.split(':').map(Number)` destructured into hours and
      minutes; a missing minutes part is `undefined`, which `setHours` reads
      as NaN. */
  function TimeParts(reminderTime: string): (r: (JsNumber, JsNumber))
    ensures r.0 == NumberOf(Split(reminderTime, ':')[0])
    ensures ':' !in reminderTime ==> r.1 == NaN
    ensures ':' in reminderTime ==> r.1 == NumberOf(Split(reminderTime, ':')[1])
  {
    var parts := Split(reminderTime, ':');
    if ':' in reminderTime then
      SplitHasTwoParts(reminderTime, ':');
      (NumberOf(parts[0]), NumberOf(parts[1]))
    else
      SplitNoSeparator(reminderTime, ':');
      (NumberOf(parts[0]), NaN)
  }

  function BuildReminder(reminderTime: string, weekStart: string): (r: ReminderOutcome)
    ensures r.NoReminder? <==> reminderTime == ""
    ensures r.WithReminder? ==> r.reminder.time == Some(reminderTime) && r.reminder.date.Some?
    ensures r.WithReminder? ==> r.reminder.date.value.weekStart == weekStart && r.reminder.days == None
    ensures r.WithReminder? <==> reminderTime != "" && TimeParts(reminderTime).0.Num? && TimeParts(reminderTime).1.Num?
    ensures r.WithReminder? ==>
      r.reminder.date == Some(ReminderDate(weekStart, TimeParts(reminderTime).0.value, TimeParts(reminderTime).1.value))
  {
    if reminderTime == "" then NoReminder
    else
      match TimeParts(reminderTime)
      case (Num(hours), Num(minutes)) =>
        WithReminder(Reminder(Some(reminderTime), Some(ReminderDate(weekStart, hours, minutes)), None))
      case _ => InvalidDate
  }

  /** `targetCount ? parseInt(targetCount) : undefined`. */
  function TargetOf(targetCount: string): (r: Option<JsNumber>)
    ensures r == None <==> targetCount == ""
    ensures targetCount != "" ==> r == Some(ParseInt(targetCount))
  {
    if targetCount == "" then None else Some(ParseInt(targetCount))
  }

  /** `handleSubmit` up to `onSubmit`: the guard, then the reminder, then
      the normalised record. `weekStart` stands for `weekDates[0]`. */
  function Submit(f: FormFields, weekStart: string): (o: SubmitOutcome)
    ensures o == Refused <==> Trim(f.title) == "" || f.domainId == ""
    ensures o == Threw <==> Trim(f.title) != "" && f.domainId != "" && BuildReminder(f.reminderTime, weekStart) == InvalidDate
    ensures o.Submitted? ==>
      var s := o.submission;
      && s.title == f.title && s.domainId == f.domainId
      && s.selectedDays == f.selectedDays && s.allowSunday == f.allowSunday
      && (s.description == None <==> f.description == "")
      && (s.description.Some? ==> s.description.value == f.description)
      && s.targetCount == TargetOf(f.targetCount)
      && (s.reminder.Some? <==> f.reminderTime != "")
      && (s.reminder.Some? ==> s.reminder.value.time == Some(f.reminderTime))
      && (s.reminder.Some? ==> BuildReminder(f.reminderTime, weekStart) == WithReminder(s.reminder.value))
  {
    if Trim(f.title) == "" || f.domainId == "" then Refused
    else
      match BuildReminder(f.reminderTime, weekStart)
      case InvalidDate => Threw
      case NoReminder =>
        Submitted(Submission(f.title, if f.description == "" then None else Some(f.description),
                             TargetOf(f.targetCount), f.selectedDays, f.allowSunday, None, f.domainId))
      case WithReminder(r) =>
        Submitted(Submission(f.title, if f.description == "" then None else Some(f.description),
                             TargetOf(f.targetCount), f.selectedDays, f.allowSunday, Some(r), f.domainId))
  }

  // ------------------------------------------------------------ time text

  lemma {:induction false} SplitNoSeparator(s: string, sep: char)
    requires sep !in s
    ensures Split(s, sep) == [s]
  {
    if s != [] {
      assert sep !in s[1..];
      SplitNoSeparator(s[1..], sep);
    }
  }

  lemma {:induction false} SplitHasTwoParts(s: string, sep: char)
    requires sep in s
    ensures |Split(s, sep)| > 1
  {
    if s[0] != sep {
      assert sep in s[1..];
      SplitHasTwoParts(s[1..], sep);
    }
  }

  lemma {:induction false} SplitAtFirst(a: string, sep: char, b: string)
    requires sep !in a
    ensures Split(a + [sep] + b, sep) == [a] + Split(b, sep)
  {
    if a == [] {
      assert ([sep] + b)[1..] == b;
    } else {
      var s := a + [sep] + b;
      assert s[0] == a[0] && s[0] != sep;
      assert s[1..] == a[1..] + [sep] + b;
      assert sep !in a[1..];
      SplitAtFirst(a[1..], sep, b);
      var rest := Split(s[1..], sep);
      assert rest[0] == a[1..] && rest[1..] == Split(b, sep);
      assert [a[0]] + a[1..] == a;
    }
  }

  /** A time typed as digits, a colon and digits gives a reminder at those
      hours and minutes of the week's first day. */
  lemma ClockTime(hours: string, minutes: string, weekStart: string)
    requires hours != "" && AllDigits(hours) && minutes != "" && AllDigits(minutes)
    ensures BuildReminder(hours + ":" + minutes, weekStart) ==
      WithReminder(Reminder(Some(hours + ":" + minutes),
                            Some(ReminderDate(weekStart, DigitsValue(hours), DigitsValue(minutes))), None))
  {
    assert ':' !in hours;
    assert ':' !in minutes;
    SplitAtFirst(hours, ':', minutes);
    SplitNoSeparator(minutes, ':');
    assert Split(hours + ":" + minutes, ':') == [hours, minutes];
  }

  /** A time with no colon has no minutes: the date is invalid. */
  lemma NoMinutesIsInvalid(reminderTime: string, weekStart: string)
    requires reminderTime != "" && ':' !in reminderTime
    ensures BuildReminder(reminderTime, weekStart) == InvalidDate
  {
    SplitNoSeparator(reminderTime, ':');
  }

  /** Unticking "allow Sunday" does not take Sunday out of the day list: a
      form with day 0 ticked submits it, with `allowSunday` false. */
  lemma SundayKeptWhenNotAllowed(f: FormFields, weekStart: string)
    requires Trim(f.title) != "" && f.domainId != "" && f.reminderTime == ""
    requires 0 in f.selectedDays && !f.allowSunday
    ensures Submit(f, weekStart).Submitted?
    ensures 0 in Submit(f, weekStart).submission.selectedDays && !Submit(f, weekStart).submission.allowSunday
  {
    assert BuildReminder(f.reminderTime, weekStart) == NoReminder;
  }

  // ------------------------------------------------------------ the form

  /** `initialDomainId || ''`. */
  function InitialDomain(initialDomainId: Option<string>): (r: string)
    ensures initialDomainId.None? ==> r == ""
    ensures initialDomainId.Some? ==> r == initialDomainId.value
  {
    if initialDomainId.Some? then initialDomainId.value else ""
  }

  class Form {
    const initialDomainId: Option<string>
    var title: string
    var description: string
    var targetCount: string
    var selectedDays: seq<int>
    var allowSunday: bool
    var reminderTime: string
    var domainId: string

    function Fields(): FormFields
      reads this
    {
      FormFields(title, description, targetCount, selectedDays, allowSunday, reminderTime, domainId)
    }

    /** The blank form, with the domain preset to the initial one. */
    predicate IsReset()
      reads this
    {
      && title == "" && description == "" && targetCount == "" && reminderTime == ""
      && selectedDays == [] && !allowSunday && domainId == InitialDomain(initialDomainId)
    }

    constructor (initialDomainId: Option<string>)
      ensures this.initialDomainId == initialDomainId && IsReset()
    {
      this.initialDomainId := initialDomainId;
      title, description, targetCount, reminderTime := "", "", "", "";
      selectedDays, allowSunday := [], false;
      domainId := InitialDomain(initialDomainId);
    }

    /** The checkbox of `index` changed to `checked`. */
    method ToggleDayCheckbox(index: int, checked: bool)
      modifies this
      ensures selectedDays == CheckedDays(old(selectedDays), index, checked)
      ensures Fields() == old(Fields()).(selectedDays := selectedDays)
    {
      selectedDays := CheckedDays(selectedDays, index, checked);
    }

    /** `handleSelectAllDays`. */
    method SelectAllDays()
      modifies this
      ensures selectedDays == AllButSunday
      ensures Fields() == old(Fields()).(selectedDays := AllButSunday)
    {
      selectedDays := AllButSunday;
    }

    /** `handleSubmit`: the outcome, and the reset that follows a
      submission; a refused or failed press leaves every field as it was. */
    method HandleSubmit(weekStart: string) returns (outcome: SubmitOutcome)
      modifies this
      ensures outcome == Submit(old(Fields()), weekStart)
      ensures outcome.Submitted? ==> IsReset()
      ensures !outcome.Submitted? ==> Fields() == old(Fields())
    {
      outcome := Submit(Fields(), weekStart);
      if outcome.Submitted? {
        title, description, targetCount := "", "", "";
        selectedDays, allowSunday := [], false;
        reminderTime := "";
        domainId := InitialDomain(initialDomainId);
      }
    }
  }
}
