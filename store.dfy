/** The state the components share: the activity collection behind
    `ActivityContext` (the `useTodos` hook) and the browser's local storage,
    of which only the per-day note keys are modelled. The hook's code is not
    part of this model; its operations are given the meaning the components
    rely on: `addActivity` appends the record it is handed, `deleteActivity`
    removes every record with the id (and nothing when there is none),
    `updateActivity` replaces the patched field of every record with the id. */
module Store {
  import opened Js
  import opened Seqs
  import opened Activities

  /** A partial update handed to `updateActivity` by the modelled views. */
  datatype Patch =
    | CompletedDaysPatch(completedDays: map<int, bool>)
    | ReminderPatch(reminder: Reminder)

  function Apply(a: Activity, p: Patch): Activity
  {
    match p
    case CompletedDaysPatch(m) => a.(completedDays := m)
    case ReminderPatch(r) => a.(reminder := Some(r))
  }

  /** The collection after `updateActivity(id, p)`: same length, same ids
      in the same places, the patch applied exactly where the id matches, and
      nothing changed when no record has the id. */
  function Updated(activities: seq<Activity>, id: string, p: Patch): (r: seq<Activity>)
    ensures |r| == |activities|
    ensures forall i :: 0 <= i < |r| ==> r[i].id == activities[i].id
    ensures forall i :: 0 <= i < |r| ==>
      r[i] == if activities[i].id == id then Apply(activities[i], p) else activities[i]
    ensures (forall a :: a in activities ==> a.id != id) ==> r == activities
  {
    seq(|activities|, i requires 0 <= i < |activities| =>
      if activities[i].id == id then Apply(activities[i], p) else activities[i])
  }

  function OtherId(id: string): Activity -> bool
  {
    (a: Activity) => a.id != id
  }

  /** The collection after `deleteActivity(id)`. */
  function WithoutId(activities: seq<Activity>, id: string): (r: seq<Activity>)
    ensures forall a :: a in r <==> a in activities && a.id != id
    ensures forall a: Activity :: a.id != id ==> multiset(r)[a] == multiset(activities)[a]
    ensures (forall a :: a in activities ==> a.id != id) ==> r == activities
  {
    FilterFacts(activities, OtherId(id));
    Filter(activities, OtherId(id))
  }

  class Tracker {
    var activities: seq<Activity>
    /** `positiveNotes-<week>-<year>-<day>`: the five short notes of a day. */
    var positiveNotes: map<DayKey, seq<string>>
    /** `freeWriting-<week>-<year>-<day>`: the free text of a day. */
    var freeWriting: map<DayKey, string>

    constructor ()
      ensures activities == [] && positiveNotes == map[] && freeWriting == map[]
    {
      activities, positiveNotes, freeWriting := [], map[], map[];
    }

    method Add(a: Activity)
      modifies this
      ensures activities == old(activities) + [a]
      ensures positiveNotes == old(positiveNotes) && freeWriting == old(freeWriting)
    {
      activities := activities + [a];
    }

    method Delete(id: string)
      modifies this
      ensures activities == WithoutId(old(activities), id)
      ensures positiveNotes == old(positiveNotes) && freeWriting == old(freeWriting)
    {
      activities := WithoutId(activities, id);
    }

    method Update(id: string, p: Patch)
      modifies this
      ensures activities == Updated(old(activities), id, p)
      ensures positiveNotes == old(positiveNotes) && freeWriting == old(freeWriting)
    {
      activities := Updated(activities, id, p);
    }

    method SetPositiveNotes(key: DayKey, notes: seq<string>)
      modifies this
      ensures positiveNotes == old(positiveNotes)[key := notes]
      ensures activities == old(activities) && freeWriting == old(freeWriting)
    {
      positiveNotes := positiveNotes[key := notes];
    }

    method SetFreeWriting(key: DayKey, text: string)
      modifies this
      ensures freeWriting == old(freeWriting)[key := text]
      ensures activities == old(activities) && positiveNotes == old(positiveNotes)
    {
      freeWriting := freeWriting[key := text];
    }
  }
}
