/** The evaluation tab's statistics: per-domain and overall completion of the
    selected week, the three-tier badge of each domain, and the status mark of
    each activity. */
module Evaluation {
  import opened Js
  import opened Seqs
  import opened Activities

  /** `{ completed, total, percentage }` as the tab shows it. */
  datatype Progress = Progress(completed: nat, total: nat, percentage: JsNumber)

  /** The three badges: complete (check), partial (warning), at risk (cross). */
  datatype Tier = Complete | Partial | AtRisk

  /** The mark beside each activity: all, some or none of its days done. */
  datatype Status = AllDone | SomeDone | NoneDone

  // ------------------------------------------------------------ counting

  function SelectedCount(a: Activity): nat
  {
    |a.selectedDays|
  }

  /** `selectedDays.filter(d => completedDays && completedDays[d]).length`:
      the selected days marked done, a day listed twice counted twice. */
  function CompletedCount(a: Activity): (r: nat)
    ensures r <= |a.selectedDays|
  {
    |Filter(a.selectedDays, DoneIn(a.completedDays))|
  }

  function TotalDays(activities: seq<Activity>): nat
  {
    SumOf(activities, SelectedCount)
  }

  function CompletedDays(activities: seq<Activity>): nat
  {
    SumOf(activities, CompletedCount)
  }

  /** Over any list of activities, the completed days never exceed the
      selected days. */
  lemma CompletedAtMostTotal(activities: seq<Activity>)
    ensures CompletedDays(activities) <= TotalDays(activities)
  {
    SumLe(activities, CompletedCount, SelectedCount);
  }

  // ------------------------------------------------------------ rounding

  lemma MulCancelLess(d: int, a: int, b: int)
    requires d > 0 && d * a < d * b
    ensures a < b
  {
  }

  lemma RoundingFacts(completed: nat, total: nat, q: int)
    requires 0 < total && completed <= total
    requires q == (200 * completed + total) / (2 * total)
    ensures 2 * total * q <= 200 * completed + total < 2 * total * (q + 1)
    ensures 0 <= q <= 100
    ensures completed == 0 ==> q == 0
    ensures completed == total ==> q == 100
  {
    var n, d := 200 * completed + total, 2 * total;
    assert n == d * q + n % d && 0 <= n % d < d;
    assert d * (q + 1) == d * q + d;
    MulCancelLess(d, -1, q + 1) by {
      assert d * -1 == -d;
    }
    assert n < d * 101 by {
      assert 200 * completed <= 200 * total;
    }
    MulCancelLess(d, q, 101);
    if completed == 0 {
      MulCancelLess(d, q, 1);
    }
    if completed == total {
      MulCancelLess(d, 99, q + 1) by {
        assert d * 99 == 198 * total;
        assert d * (q + 1) > 201 * total;
      }
    }
  }

  /** `Math.round((completed / total) * 100)` computed exactly: the integer
      nearest to 100·completed/total, a half rounded up, between 0 and 100;
      0/0 is NaN. */
  function Percentage(completed: nat, total: nat): (r: JsNumber)
    requires completed <= total
    ensures r.NaN? <==> total == 0
    ensures r.Num? ==> 0 <= r.value <= 100
    ensures r.Num? ==> 2 * total * r.value <= 200 * completed + total < 2 * total * (r.value + 1)
    ensures total > 0 && completed == 0 ==> r == Num(0)
    ensures total > 0 && completed == total ==> r == Num(100)
  {
    if total == 0 then NaN
    else
      var q := (200 * completed + total) / (2 * total);
      RoundingFacts(completed, total, q);
      Num(q)
  }

  // ------------------------------------------------------------ progress

  function DomainTest(domainId: string): Activity -> bool
  {
    (a: Activity) => a.domainId == domainId
  }

  function OtherDomainTest(domainId: string): Activity -> bool
  {
    (a: Activity) => a.domainId != domainId
  }

  /** The selected week's activities of one domain. */
  function DomainActivities(activities: seq<Activity>, weekNumber: int, year: int, domainId: string): (r: seq<Activity>)
    ensures forall a :: a in r <==> a in activities && InWeek(a, weekNumber, year) && a.domainId == domainId
  {
    Filter(CurrentWeek(activities, weekNumber, year), DomainTest(domainId))
  }

  /** `calculateDomainProgress(domainId)` as written: zeros when the domain has
      no activity this week, otherwise the counts over its activities and
      their rounded ratio, which is NaN when none of them selects a day. */
  function DomainProgress(activities: seq<Activity>, weekNumber: int, year: int, domainId: string): (r: Progress)
    ensures r.completed <= r.total
    ensures r.total == TotalDays(DomainActivities(activities, weekNumber, year, domainId))
    ensures r.completed == CompletedDays(DomainActivities(activities, weekNumber, year, domainId))
    ensures DomainActivities(activities, weekNumber, year, domainId) == [] ==> r == Progress(0, 0, Num(0))
    ensures r.percentage.NaN? <==> DomainActivities(activities, weekNumber, year, domainId) != [] && r.total == 0
    ensures r.percentage.Num? ==> 0 <= r.percentage.value <= 100
    ensures DomainActivities(activities, weekNumber, year, domainId) != [] ==> r.percentage == Percentage(r.completed, r.total)
  {
    var domain := DomainActivities(activities, weekNumber, year, domainId);
    if |domain| == 0 then Progress(0, 0, Num(0))
    else
      CompletedAtMostTotal(domain);
      Progress(CompletedDays(domain), TotalDays(domain), Percentage(CompletedDays(domain), TotalDays(domain)))
  }

  /** The loop of `calculateDomainProgress`, accumulating `totalCount` and
      `completedCount` activity by activity. */
  method CalculateDomainProgress(activities: seq<Activity>, weekNumber: int, year: int, domainId: string)
    returns (progress: Progress)
    ensures progress == DomainProgress(activities, weekNumber, year, domainId)
  {
    var currentWeekActivities := CurrentWeek(activities, weekNumber, year);
    var domainActivities := Filter(currentWeekActivities, DomainTest(domainId));
    if |domainActivities| == 0 {
      return Progress(0, 0, Num(0));
    }
    var totalCount, completedCount := 0, 0;
    for i := 0 to |domainActivities|
      invariant totalCount == TotalDays(domainActivities[..i])
      invariant completedCount == CompletedDays(domainActivities[..i])
    {
      var activity := domainActivities[i];
      assert domainActivities[..i + 1] == domainActivities[..i] + [activity];
      SumAppend(domainActivities[..i], [activity], SelectedCount);
      SumAppend(domainActivities[..i], [activity], CompletedCount);
      totalCount := totalCount + |activity.selectedDays|;
      completedCount := completedCount + CompletedCount(activity);
    }
    assert domainActivities[..|domainActivities|] == domainActivities;
    CompletedAtMostTotal(domainActivities);
    progress := Progress(completedCount, totalCount, Percentage(completedCount, totalCount));
  }

  /** `overallCompletionRate()`: the counts over every activity of the week,
      whatever its domain; zeros instead of a division when no day is
      selected, so the percentage is always a number. */
  function OverallRate(activities: seq<Activity>, weekNumber: int, year: int): (r: Progress)
    ensures r.completed <= r.total
    ensures r.total == TotalDays(CurrentWeek(activities, weekNumber, year))
    ensures r.completed == CompletedDays(CurrentWeek(activities, weekNumber, year))
    ensures r.total == 0 ==> r == Progress(0, 0, Num(0))
    ensures r.total > 0 ==> r.percentage == Percentage(r.completed, r.total)
    ensures r.percentage.Num? && 0 <= r.percentage.value <= 100
  {
    var current := CurrentWeek(activities, weekNumber, year);
    var total := TotalDays(current);
    if total == 0 then
      CompletedAtMostTotal(current);
      Progress(0, 0, Num(0))
    else
      CompletedAtMostTotal(current);
      Progress(CompletedDays(current), total, Percentage(CompletedDays(current), total))
  }

  /** `overallCompletionRate`: the total by `reduce`, then the completed days
      accumulated in a loop. */
  method OverallCompletionRate(activities: seq<Activity>, weekNumber: int, year: int) returns (progress: Progress)
    ensures progress == OverallRate(activities, weekNumber, year)
  {
    var currentWeekActivities := CurrentWeek(activities, weekNumber, year);
    var totalActivities := TotalDays(currentWeekActivities);
    if totalActivities == 0 {
      return Progress(0, 0, Num(0));
    }
    var completedCount := 0;
    for i := 0 to |currentWeekActivities|
      invariant completedCount == CompletedDays(currentWeekActivities[..i])
    {
      var activity := currentWeekActivities[i];
      assert currentWeekActivities[..i + 1] == currentWeekActivities[..i] + [activity];
      SumAppend(currentWeekActivities[..i], [activity], CompletedCount);
      completedCount := completedCount + CompletedCount(activity);
    }
    assert currentWeekActivities[..|currentWeekActivities|] == currentWeekActivities;
    CompletedAtMostTotal(currentWeekActivities);
    progress := Progress(completedCount, totalActivities, Percentage(completedCount, totalActivities));
  }

  /** Only the selected week counts: an activity of any other week, wherever
      it sits in the collection, changes neither a domain's progress nor the
      overall rate. */
  lemma OnlySelectedWeekCounts(before: seq<Activity>, a: Activity, after: seq<Activity>,
                               weekNumber: int, year: int, domainId: string)
    requires !InWeek(a, weekNumber, year)
    ensures DomainProgress(before + [a] + after, weekNumber, year, domainId)
         == DomainProgress(before + after, weekNumber, year, domainId)
    ensures OverallRate(before + [a] + after, weekNumber, year)
         == OverallRate(before + after, weekNumber, year)
  {
    OtherWeeksIgnored(before, a, after, weekNumber, year);
  }

  /** The overall figures are domain-blind: they add up one domain's figures
      and those of the week's activities outside it. */
  lemma OverallSplitsByDomain(activities: seq<Activity>, weekNumber: int, year: int, domainId: string)
    ensures var current := CurrentWeek(activities, weekNumber, year);
            var outside := Filter(current, OtherDomainTest(domainId));
            && OverallRate(activities, weekNumber, year).total
               == DomainProgress(activities, weekNumber, year, domainId).total + TotalDays(outside)
            && OverallRate(activities, weekNumber, year).completed
               == DomainProgress(activities, weekNumber, year, domainId).completed + CompletedDays(outside)
  {
    var current := CurrentWeek(activities, weekNumber, year);
    SumSplit(current, SelectedCount, DomainTest(domainId), OtherDomainTest(domainId));
    SumSplit(current, CompletedCount, DomainTest(domainId), OtherDomainTest(domainId));
  }

  // ------------------------------------------------------------ tiers

  /** The tier rule of the `Icon` constant computed for each domain, which
      the view never renders: at least 100 complete, at least 50 partial,
      anything else (NaN included) at risk. The badges actually shown are
      `BadgesShown`; `OneBadgePerPercentage` ties the two together. */
  function TierOf(p: JsNumber): (t: Tier)
    ensures t == Complete <==> p.Num? && p.value >= 100
    ensures t == Partial <==> p.Num? && 50 <= p.value < 100
    ensures t == AtRisk <==> !(p.Num? && p.value >= 50)
  {
    if p.Num? && p.value >= 100 then Complete
    else if p.Num? && p.value >= 50 then Partial
    else AtRisk
  }

  /** The badges rendered beside a domain's name, one condition each. */
  function BadgesShown(p: JsNumber): (r: set<Tier>)
    ensures p.NaN? ==> r == {}
    ensures Complete in r <==> p.Num? && p.value >= 100
    ensures Partial in r <==> p.Num? && 50 <= p.value < 100
    ensures AtRisk in r <==> p.Num? && p.value < 50
  {
    (if p.Num? && p.value >= 100 then {Complete} else {})
    + (if p.Num? && p.value < 100 && p.value >= 50 then {Partial} else {})
    + (if p.Num? && p.value < 50 then {AtRisk} else {})
  }

  /** Every numeric percentage shows exactly one badge, the one its tier
      names; NaN shows none. */
  lemma OneBadgePerPercentage(p: JsNumber)
    ensures p.Num? ==> BadgesShown(p) == {TierOf(p)}
    ensures p.NaN? ==> BadgesShown(p) == {}
  {
  }

  // ------------------------------------------------------------ per activity

  /** The mark of one activity: `every` selected day done, else `some`, else
      none. An activity with no selected day counts as all done. */
  function StatusOf(a: Activity): (s: Status)
    ensures s == AllDone <==> CompletedCount(a) == |a.selectedDays|
    ensures s == NoneDone <==> 0 == CompletedCount(a) < |a.selectedDays|
  {
    var done := DoneIn(a.completedDays);
    if forall i :: 0 <= i < |a.selectedDays| ==> done(a.selectedDays[i]) then
      FilterKeepsAll(a.selectedDays, done);
      AllDone
    else
      var i :| 0 <= i < |a.selectedDays| && !done(a.selectedDays[i]);
      FilterDropsFailing(a.selectedDays, done, i);
      if exists j :: 0 <= j < |a.selectedDays| && done(a.selectedDays[j]) then
        var j :| 0 <= j < |a.selectedDays| && done(a.selectedDays[j]);
        assert a.selectedDays[j] in a.selectedDays;
        assert a.selectedDays[j] in Filter(a.selectedDays, done);
        assert |Filter(a.selectedDays, done)| > 0;
        SomeDone
      else
        FilterDropsAll(a.selectedDays, done);
        NoneDone
  }

  /** The denominator shown beside an activity:
      `selectedDays.length || targetCount || 1` (0 and NaN are falsy). */
  function ShownDenominator(a: Activity): (n: int)
    ensures n != 0
    ensures |a.selectedDays| > 0 ==> n == |a.selectedDays|
    ensures |a.selectedDays| == 0 && a.targetCount.Some? && a.targetCount.value.Num? && a.targetCount.value.value != 0
            ==> n == a.targetCount.value.value
    ensures |a.selectedDays| == 0 && !(a.targetCount.Some? && a.targetCount.value.Num? && a.targetCount.value.value != 0)
            ==> n == 1
  {
    if |a.selectedDays| > 0 then |a.selectedDays|
    else if a.targetCount.Some? && a.targetCount.value.Num? && a.targetCount.value.value != 0 then a.targetCount.value.value
    else 1
  }

  // ------------------------------------------------------------ finding

  /** A domain whose only activity of the week selects no day: the
      percentage is NaN and no badge is shown. */
  lemma DomainProgressNaNExample(a: Activity)
    requires a.selectedDays == []
    ensures DomainProgress([a], a.weekNumber, a.year, a.domainId).percentage == NaN
    ensures BadgesShown(DomainProgress([a], a.weekNumber, a.year, a.domainId).percentage) == {}
  {
    assert a in DomainActivities([a], a.weekNumber, a.year, a.domainId);
    assert [a][1..] == [];
    var domain := DomainActivities([a], a.weekNumber, a.year, a.domainId);
    assert forall b :: b in domain ==> b == a;
    assert TotalDays(domain) == 0 by {
      ZeroDaysSum(domain);
    }
  }

  lemma {:induction false} ZeroDaysSum(activities: seq<Activity>)
    requires forall i :: 0 <= i < |activities| ==> activities[i].selectedDays == []
    ensures TotalDays(activities) == 0
  {
    if activities != [] {
      ZeroDaysSum(activities[1..]);
    }
  }

  /** Domain progress with the guard of the overall rate: zeros whenever no
      day is selected, so the percentage is always a number and exactly one
      badge is shown. */
  function GuardedDomainProgress(activities: seq<Activity>, weekNumber: int, year: int, domainId: string): (r: Progress)
    ensures r.completed <= r.total
    ensures r.total == TotalDays(DomainActivities(activities, weekNumber, year, domainId))
    ensures r.completed == CompletedDays(DomainActivities(activities, weekNumber, year, domainId))
    ensures r.percentage.Num? && 0 <= r.percentage.value <= 100
    ensures r.total == 0 ==> r == Progress(0, 0, Num(0))
    ensures BadgesShown(r.percentage) == {TierOf(r.percentage)}
    ensures r.total > 0 ==> r == DomainProgress(activities, weekNumber, year, domainId)
  {
    var domain := DomainActivities(activities, weekNumber, year, domainId);
    var total := TotalDays(domain);
    CompletedAtMostTotal(domain);
    var r := if total == 0 then Progress(0, 0, Num(0))
             else Progress(CompletedDays(domain), total, Percentage(CompletedDays(domain), total));
    OneBadgePerPercentage(r.percentage);
    r
  }
}
