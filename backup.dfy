/** Export and import of the evaluation tab. Export writes every activity
    with the notes of its week flattened into it under `positiveNotes-<d>` and
    `freeWriting-<d>`; import replaces the whole collection with the file's
    activities and writes their notes back to storage. The JSON text, the
    download link and the file reader are not modelled: a file is given by
    what `JSON.parse` makes of it. */
module Backup {
  import opened Js
  import opened Seqs
  import opened Activities
  import opened Store

  /** One element of the export file: the activity's own fields, and the
      note keys it carries, by day index. A stored positive-notes entry is
      the JSON text of an array, which is never empty, so every stored one is
      exported; free writing is exported only when non-empty. */
  datatype Record = Record(fields: Activity, positiveNotes: map<int, seq<string>>, freeWriting: map<int, string>)

  /** What `JSON.parse` makes of the chosen file. */
  datatype Parsed = ParseError | NonArray | Array(records: seq<Record>)

  /** The message the import shows. */
  datatype Alert = ImportedAlert | InvalidFormatAlert | ParseErrorAlert

  /** `m[k]` as JavaScript reads it: `undefined` when the key is absent. */
  function Lookup<K, V>(m: map<K, V>, k: K): Option<V>
  {
    if k in m then Some(m[k]) else None
  }

  /** Positive notes are kept whenever stored: the stored JSON text of an
      array, and the array itself, are always truthy. */
  predicate KeepAll(notes: seq<string>)
  {
    true
  }

  /** Free writing is kept only when it is truthy, that is, not empty. */
  predicate Truthy(text: string)
  {
    text != ""
  }

  // ------------------------------------------------------------ export

  /** The notes object of days `0 .. upTo-1` of the activity's week: the
      stored entries that pass `keep`, by day index. */
  function ExportedNotes<V>(a: Activity, stored: map<DayKey, V>, keep: V -> bool, upTo: nat): map<int, V>
  {
    if upTo == 0 then map[]
    else
      var notes := ExportedNotes(a, stored, keep, upTo - 1);
      var key := DayKey(a.weekNumber, a.year, upTo - 1);
      if key in stored && keep(stored[key]) then notes[upTo - 1 := stored[key]] else notes
  }

  /** `{ ...activity, ...notes }` for one activity. */
  function RecordOf(a: Activity, positive: map<DayKey, seq<string>>, free: map<DayKey, string>): Record
  {
    Record(a, ExportedNotes(a, positive, KeepAll, DaysInWeek), ExportedNotes(a, free, Truthy, DaysInWeek))
  }

  /** `activities.map(...)`: one record per activity, in order. */
  function ExportAll(activities: seq<Activity>, positive: map<DayKey, seq<string>>, free: map<DayKey, string>): (r: seq<Record>)
    ensures |r| == |activities|
    ensures Fields(r) == activities
  {
    seq(|activities|, i requires 0 <= i < |activities| => RecordOf(activities[i], positive, free))
  }

  /** The body of the `map` callback: the `notes` object filled day by day. */
  method ExportActivity(a: Activity, positive: map<DayKey, seq<string>>, free: map<DayKey, string>) returns (r: Record)
    ensures r == RecordOf(a, positive, free)
  {
    var positiveOut: map<int, seq<string>> := map[];
    var freeOut: map<int, string> := map[];
    for dayIndex := 0 to DaysInWeek
      invariant positiveOut == ExportedNotes(a, positive, KeepAll, dayIndex)
      invariant freeOut == ExportedNotes(a, free, Truthy, dayIndex)
    {
      var key := DayKey(a.weekNumber, a.year, dayIndex);
      if key in positive {
        positiveOut := positiveOut[dayIndex := positive[key]];
      }
      if key in free && free[key] != "" {
        freeOut := freeOut[dayIndex := free[key]];
      }
    }
    r := Record(a, positiveOut, freeOut);
  }

  /** `handleExport` up to the JSON text: every activity, notes attached. */
  method HandleExport(t: Tracker) returns (records: seq<Record>)
    ensures records == ExportAll(t.activities, t.positiveNotes, t.freeWriting)
  {
    records := [];
    for i := 0 to |t.activities|
      invariant |records| == i
      invariant forall j :: 0 <= j < i ==> records[j] == RecordOf(t.activities[j], t.positiveNotes, t.freeWriting)
    {
      var r := ExportActivity(t.activities[i], t.positiveNotes, t.freeWriting);
      records := records + [r];
    }
  }

  // ------------------------------------------------------------ import

  /** The storage writes of days `0 .. upTo-1` for one element's notes: each
      carried entry that passes `keep`, under the element's own week. */
  function NoteWrites<V>(weekNumber: int, year: int, notes: map<int, V>, keep: V -> bool, upTo: nat): map<DayKey, V>
  {
    if upTo == 0 then map[]
    else
      var writes := NoteWrites(weekNumber, year, notes, keep, upTo - 1);
      var d := upTo - 1;
      if d in notes && keep(notes[d]) then writes[DayKey(weekNumber, year, d) := notes[d]] else writes
  }

  function PositiveWrites(r: Record): map<DayKey, seq<string>>
  {
    NoteWrites(r.fields.weekNumber, r.fields.year, r.positiveNotes, KeepAll, DaysInWeek)
  }

  function FreeWrites(r: Record): map<DayKey, string>
  {
    NoteWrites(r.fields.weekNumber, r.fields.year, r.freeWriting, Truthy, DaysInWeek)
  }

  /** Positive-notes storage after the elements `records` wrote theirs back,
      first to last. */
  function ImportedPositive(positive: map<DayKey, seq<string>>, records: seq<Record>): map<DayKey, seq<string>>
    decreases |records|
  {
    if records == [] then positive
    else ImportedPositive(positive + PositiveWrites(records[0]), records[1..])
  }

  /** Free-writing storage after the elements `records` wrote theirs back,
      first to last. */
  function ImportedFree(free: map<DayKey, string>, records: seq<Record>): map<DayKey, string>
    decreases |records|
  {
    if records == [] then free
    else ImportedFree(free + FreeWrites(records[0]), records[1..])
  }

  /** The activities handed to `addActivity`: each element with its note keys
      stripped. */
  function Fields(records: seq<Record>): (r: seq<Activity>)
    ensures |r| == |records|
  {
    seq(|records|, i requires 0 <= i < |records| => records[i].fields)
  }

  /** The activities the store holds once `addActivity` has taken each
      element: the store hook gives record `i` the id `ids[i]` and the creation
      time `times[i]`, and keeps every other field of the element. */
  function Received(records: seq<Record>, ids: seq<string>, times: seq<string>): (r: seq<Activity>)
    requires |ids| == |records| && |times| == |records|
    ensures |r| == |records|
    ensures forall i :: 0 <= i < |r| ==> r[i].id == ids[i] && r[i].createdAt == times[i]
    ensures forall i :: 0 <= i < |r| ==>
      r[i].(id := records[i].fields.id, createdAt := records[i].fields.createdAt) == records[i].fields
  {
    seq(|records|, i requires 0 <= i < |records| => records[i].fields.(id := ids[i], createdAt := times[i]))
  }

  /** The fourteen guarded `localStorage.setItem` calls of one element. */
  method WriteBackNotes(t: Tracker, r: Record)
    modifies t
    ensures t.activities == old(t.activities)
    ensures t.positiveNotes == old(t.positiveNotes) + PositiveWrites(r)
    ensures t.freeWriting == old(t.freeWriting) + FreeWrites(r)
  {
    var weekNumber, year := r.fields.weekNumber, r.fields.year;
    for d := 0 to DaysInWeek
      invariant t.activities == old(t.activities) && t.freeWriting == old(t.freeWriting)
      invariant t.positiveNotes == old(t.positiveNotes) + NoteWrites(weekNumber, year, r.positiveNotes, KeepAll, d)
    {
      if d in r.positiveNotes {
        t.SetPositiveNotes(DayKey(weekNumber, year, d), r.positiveNotes[d]);
      }
    }
    for d := 0 to DaysInWeek
      invariant t.activities == old(t.activities)
      invariant t.positiveNotes == old(t.positiveNotes) + PositiveWrites(r)
      invariant t.freeWriting == old(t.freeWriting) + NoteWrites(weekNumber, year, r.freeWriting, Truthy, d)
    {
      if d in r.freeWriting && r.freeWriting[d] != "" {
        t.SetFreeWriting(DayKey(weekNumber, year, d), r.freeWriting[d]);
      }
    }
  }

  /** `handleFileChange` once the reader has parsed the file: no file, a
      parse error or a non-array change nothing; an array first deletes every
      activity the view was showing, then adds each element without its note
      keys and writes its truthy notes back under its own week. */
  method HandleFileChange(t: Tracker, file: Option<Parsed>, ids: seq<string>, times: seq<string>)
    returns (alert: Option<Alert>)
    requires file.Some? && file.value.Array? ==> |ids| == |file.value.records| && |times| == |file.value.records|
    modifies t
    ensures file.None? ==> alert.None?
    ensures file == Some(ParseError) ==> alert == Some(ParseErrorAlert)
    ensures file == Some(NonArray) ==> alert == Some(InvalidFormatAlert)
    ensures !(file.Some? && file.value.Array?) ==>
      t.activities == old(t.activities) && t.positiveNotes == old(t.positiveNotes) && t.freeWriting == old(t.freeWriting)
    ensures file.Some? && file.value.Array? ==>
      && alert == Some(ImportedAlert)
      && t.activities == Received(file.value.records, ids, times)
      && t.positiveNotes == ImportedPositive(old(t.positiveNotes), file.value.records)
      && t.freeWriting == ImportedFree(old(t.freeWriting), file.value.records)
  {
    if file.None? {
      return None;
    }
    match file.value
    case ParseError =>
      alert := Some(ParseErrorAlert);
    case NonArray =>
      alert := Some(InvalidFormatAlert);
    case Array(records) =>
      DeleteAll(t);
      AddAll(t, records, ids, times);
      alert := Some(ImportedAlert);
  }

  /** `activities.forEach(activity => deleteActivity(activity.id))`: every
      record the view holds is deleted by id, which empties the collection
      and leaves the notes alone. */
  method DeleteAll(t: Tracker)
    modifies t
    ensures t.activities == []
    ensures t.positiveNotes == old(t.positiveNotes) && t.freeWriting == old(t.freeWriting)
  {
    var shown := t.activities;
    for i := 0 to |shown|
      invariant multiset(t.activities) <= multiset(shown[i..])
      invariant t.positiveNotes == old(t.positiveNotes) && t.freeWriting == old(t.freeWriting)
    {
      ghost var before := t.activities;
      t.Delete(shown[i].id);
      assert shown[i..] == [shown[i]] + shown[i + 1..];
      forall a
        ensures multiset(t.activities)[a] <= multiset(shown[i + 1..])[a]
      {
        FilterCounts(before, OtherId(shown[i].id), a);
      }
    }
    assert |multiset(t.activities)| == 0;
  }

  /** `importedData.forEach(...)`: each element is added without its note
      keys, under the id and creation time the store hook assigns, and its
      notes are written back, first to last. */
  method AddAll(t: Tracker, records: seq<Record>, ids: seq<string>, times: seq<string>)
    requires |ids| == |records| && |times| == |records|
    modifies t
    ensures t.activities == old(t.activities) + Received(records, ids, times)
    ensures t.positiveNotes == ImportedPositive(old(t.positiveNotes), records)
    ensures t.freeWriting == ImportedFree(old(t.freeWriting), records)
  {
    for i := 0 to |records|
      invariant t.activities == old(t.activities) + Received(records[..i], ids[..i], times[..i])
      invariant ImportedPositive(t.positiveNotes, records[i..]) == ImportedPositive(old(t.positiveNotes), records)
      invariant ImportedFree(t.freeWriting, records[i..]) == ImportedFree(old(t.freeWriting), records)
    {
      t.Add(records[i].fields.(id := ids[i], createdAt := times[i]));
      WriteBackNotes(t, records[i]);
      assert records[i..][1..] == records[i + 1..];
      assert Received(records[..i + 1], ids[..i + 1], times[..i + 1]) ==
        Received(records[..i], ids[..i], times[..i]) + [records[i].fields.(id := ids[i], createdAt := times[i])];
    }
    assert records[..|records|] == records && ids[..|ids|] == ids && times[..|times|] == times;
    assert records[|records|..] == [];
  }

  // ------------------------------------------------------------ round trip

  /** Export followed by import gives back every activity, in order, with
      every field but the id and the creation time, which the store hook
      assigns anew. */
  lemma ExportThenImportActivities(activities: seq<Activity>, positive: map<DayKey, seq<string>>,
                                   free: map<DayKey, string>, ids: seq<string>, times: seq<string>)
    requires |ids| == |activities| && |times| == |activities|
    ensures var r := Received(ExportAll(activities, positive, free), ids, times);
      && |r| == |activities|
      && forall i :: 0 <= i < |r| ==>
        r[i].(id := activities[i].id, createdAt := activities[i].createdAt) == activities[i]
  {
    var records := ExportAll(activities, positive, free);
    assert forall i :: 0 <= i < |records| ==> records[i].fields == Fields(records)[i] == activities[i];
  }

  /** `k` is one of the seven day keys of the activity's week. */
  predicate SameWeek(k: DayKey, a: Activity)
  {
    k.week == a.weekNumber && k.year == a.year && 0 <= k.day < DaysInWeek
  }

  /** `k` is a day key of the week of one of `activities`. */
  predicate Covered(k: DayKey, activities: seq<Activity>)
  {
    exists a :: a in activities && SameWeek(k, a)
  }

  lemma {:induction false} ExportedNotesAt<V>(a: Activity, stored: map<DayKey, V>, keep: V -> bool, upTo: nat, d: int)
    ensures Lookup(ExportedNotes(a, stored, keep, upTo), d) ==
      var key := DayKey(a.weekNumber, a.year, d);
      if 0 <= d < upTo && key in stored && keep(stored[key]) then Some(stored[key]) else None
  {
    if upTo > 0 {
      ExportedNotesAt(a, stored, keep, upTo - 1, d);
    }
  }

  lemma {:induction false} NoteWritesAt<V>(weekNumber: int, year: int, notes: map<int, V>, keep: V -> bool, upTo: nat, k: DayKey)
    ensures Lookup(NoteWrites(weekNumber, year, notes, keep, upTo), k) ==
      if k.week == weekNumber && k.year == year && 0 <= k.day < upTo && k.day in notes && keep(notes[k.day])
      then Some(notes[k.day]) else None
  {
    if upTo > 0 {
      NoteWritesAt(weekNumber, year, notes, keep, upTo - 1, k);
    }
  }

  /** What an exported element writes back at a key: the stored entry, when
      the key is a day of the element's week and the entry was exported. */
  lemma WritesOfExport<V>(a: Activity, stored: map<DayKey, V>, keep: V -> bool, k: DayKey)
    ensures Lookup(NoteWrites(a.weekNumber, a.year, ExportedNotes(a, stored, keep, DaysInWeek), keep, DaysInWeek), k) ==
      if SameWeek(k, a) && k in stored && keep(stored[k]) then Some(stored[k]) else None
  {
    NoteWritesAt(a.weekNumber, a.year, ExportedNotes(a, stored, keep, DaysInWeek), keep, DaysInWeek, k);
    ExportedNotesAt(a, stored, keep, DaysInWeek, k.day);
    if SameWeek(k, a) {
      assert DayKey(a.weekNumber, a.year, k.day) == k;
    }
  }

  lemma CoveredCons(k: DayKey, activities: seq<Activity>)
    requires activities != []
    ensures Covered(k, activities) <==> SameWeek(k, activities[0]) || Covered(k, activities[1..])
  {
    if Covered(k, activities) {
      var a :| a in activities && SameWeek(k, a);
      assert a == activities[0] || a in activities[1..];
    }
    if Covered(k, activities[1..]) {
      var a :| a in activities[1..] && SameWeek(k, a);
      assert a in activities;
    }
  }

  /** Export followed by import, positive notes: at every key, the import
      leaves the exported entry when the key is a day of an exported
      activity's week, and whatever storage held before otherwise. */
  lemma {:induction false} ExportThenImportPositive(activities: seq<Activity>,
                                                    positive: map<DayKey, seq<string>>, free: map<DayKey, string>,
                                                    positiveNow: map<DayKey, seq<string>>, k: DayKey)
    ensures Lookup(ImportedPositive(positiveNow, ExportAll(activities, positive, free)), k) ==
      if Covered(k, activities) && k in positive then Some(positive[k]) else Lookup(positiveNow, k)
  {
    var records := ExportAll(activities, positive, free);
    if activities != [] {
      var a := activities[0];
      assert records[0] == RecordOf(a, positive, free);
      assert records[1..] == ExportAll(activities[1..], positive, free);
      var writes := PositiveWrites(records[0]);
      ExportThenImportPositive(activities[1..], positive, free, positiveNow + writes, k);
      WritesOfExport(a, positive, KeepAll, k);
      CoveredCons(k, activities);
    }
  }

  /** Export followed by import, free writing: at every key, the import
      leaves the exported non-empty text when the key is a day of an exported
      activity's week, and whatever storage held before otherwise. */
  lemma {:induction false} ExportThenImportFree(activities: seq<Activity>,
                                                positive: map<DayKey, seq<string>>, free: map<DayKey, string>,
                                                freeNow: map<DayKey, string>, k: DayKey)
    ensures Lookup(ImportedFree(freeNow, ExportAll(activities, positive, free)), k) ==
      if Covered(k, activities) && k in free && free[k] != "" then Some(free[k]) else Lookup(freeNow, k)
  {
    var records := ExportAll(activities, positive, free);
    if activities != [] {
      var a := activities[0];
      assert records[0] == RecordOf(a, positive, free);
      assert records[1..] == ExportAll(activities[1..], positive, free);
      var writes := FreeWrites(records[0]);
      ExportThenImportFree(activities[1..], positive, free, freeNow + writes, k);
      WritesOfExport(a, free, Truthy, k);
      CoveredCons(k, activities);
    }
  }

  /** Importing an export into the storage it was read from leaves every
      note as it was. */
  lemma ReimportKeepsNotes(activities: seq<Activity>, positive: map<DayKey, seq<string>>, free: map<DayKey, string>, k: DayKey)
    ensures Lookup(ImportedPositive(positive, ExportAll(activities, positive, free)), k) == Lookup(positive, k)
    ensures Lookup(ImportedFree(free, ExportAll(activities, positive, free)), k) == Lookup(free, k)
  {
    ExportThenImportPositive(activities, positive, free, positive, k);
    ExportThenImportFree(activities, positive, free, free, k);
  }
}
