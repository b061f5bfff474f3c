/** The progress and ETA calculator of `renderSummary`: it totals the epic
    list, gives the project's progress to one decimal, and projects the
    completion day from the team's velocity, snapped forward to the next
    Wednesday. Days are whole day numbers; `Weekday(d, c)` numbers them
    0 = Sunday .. 6 = Saturday for a calendar whose day 0 falls on weekday `c`. */
module Projection {
  import opened Wrappers
  import opened Numeric
  import opened Normalizer
  import opened Aggregator
  import opened Permutations

  /** The three user settings: points per two-week iteration, the default
      score of an under-scoped epic, and hardening weeks. */
  datatype Settings = Settings(velocity: int, pts: int, hardening: int)

  const DEFAULT_SETTINGS := Settings(40, 40, 0)
  const WEDNESDAY := 3
  const ITERATION_DAYS := 14

  /** The figures `renderSummary` shows. `progressTenths` is the progress in
      tenths of a percent (absent where the source computes `NaN`); `eta` is
      the projected day (absent where the source has an invalid date). */
  datatype ProjectSummary = ProjectSummary(
    completedPts: int,
    totalPts: int,
    progressTenths: Option<int>,
    remainingPts: int,
    eta: Option<int>,
    atDefaults: bool)

  // ---------------------------------------------------------------------------
  // Totals

  /** The done points of the whole list. */
  function SumDone(list: seq<EpicSummary>): (r: int)
    ensures (forall i :: 0 <= i < |list| ==> list[i].epic.donePoint >= 0) ==> r >= 0
  {
    if list == [] then 0 else SumDone(list[..|list| - 1]) + list[|list| - 1].epic.donePoint
  }

  /** The scored totals of the whole list. */
  function SumUpdated(list: seq<EpicSummary>): (r: int)
    ensures (forall i :: 0 <= i < |list| ==> list[i].updatedTotalPoint > 0) ==> r >= |list|
  {
    if list == [] then 0 else SumUpdated(list[..|list| - 1]) + list[|list| - 1].updatedTotalPoint
  }

  /** The `forEach` of `renderSummary` accumulating done and scored points. */
  method Totals(list: seq<EpicSummary>) returns (completedPts: int, totalPts: int)
    ensures completedPts == SumDone(list) && totalPts == SumUpdated(list)
  {
    completedPts, totalPts := 0, 0;
    for i := 0 to |list|
      invariant completedPts == SumDone(list[..i]) && totalPts == SumUpdated(list[..i])
    {
      assert list[..i + 1][..i] == list[..i];
      completedPts := completedPts + list[i].epic.donePoint;
      totalPts := totalPts + list[i].updatedTotalPoint;
    }
    assert list[..|list|] == list;
  }

  /** When no epic has more points done than it is scored against, neither
      has the project; with every epic scored above zero, a non-empty list
      has a positive total. */
  lemma {:induction false} TotalsBounded(list: seq<EpicSummary>)
    requires forall x :: x in list ==> 0 <= x.epic.donePoint <= x.updatedTotalPoint
    ensures 0 <= SumDone(list) <= SumUpdated(list)
    ensures (forall x :: x in list ==> x.updatedTotalPoint > 0) && list != [] ==> SumUpdated(list) > 0
  {
    if list != [] {
      var pre := list[..|list| - 1];
      assert forall x :: x in pre ==> x in list;
      TotalsBounded(pre);
      assert list[|list| - 1] in list;
    }
  }

  lemma SumsAppend(a: seq<EpicSummary>, b: seq<EpicSummary>)
    ensures SumDone(a + b) == SumDone(a) + SumDone(b)
    ensures SumUpdated(a + b) == SumUpdated(a) + SumUpdated(b)
    decreases |b|
  {
    if b == [] {
      assert a + b == a;
    } else {
      assert (a + b)[..|a + b| - 1] == a + b[..|b| - 1];
      assert (a + b)[|a + b| - 1] == b[|b| - 1];
      SumsAppend(a, b[..|b| - 1]);
    }
  }

  /** The totals do not depend on the order of the list, so sorting it
      leaves them unchanged. */
  lemma {:induction false} SumsPermutation(a: seq<EpicSummary>, b: seq<EpicSummary>)
    requires multiset(a) == multiset(b)
    ensures SumDone(a) == SumDone(b) && SumUpdated(a) == SumUpdated(b)
    decreases |a|
  {
    if a == [] {
      assert |b| == |multiset(b)| == 0;
    } else {
      var n := |a| - 1;
      var x := a[n];
      var j := MatchLast(a, b);
      var rest := b[..j] + b[j + 1..];
      SumsPermutation(a[..n], rest);
      assert a == a[..n] + [x];
      SumsAppend(a[..n], [x]);
      SumsAppend(b[..j] + [x], b[j + 1..]);
      SumsAppend(b[..j], [x]);
      SumsAppend(b[..j], b[j + 1..]);
      assert [x][..0] == [];
    }
  }

  // ---------------------------------------------------------------------------
  // Progress and remaining days

  /** `parseInt(completedPts / totalPts * 1000, 10)`: the progress in tenths
      of a percent, truncated; the source shows it divided by 10. A zero
      total gives `NaN` there and no value here. */
  function ProgressTenths(completedPts: int, totalPts: int): (r: Option<int>)
    ensures r.None? <==> totalPts == 0
    ensures r.Some? && totalPts > 0 && completedPts >= 0 ==>
      r.value * totalPts <= completedPts * 1000 < (r.value + 1) * totalPts
    ensures r.Some? && 0 <= completedPts <= totalPts ==> 0 <= r.value <= 1000
  {
    if totalPts == 0 then None
    else
      var q := TruncDiv(completedPts * 1000, totalPts);
      ScaledShare(completedPts, totalPts, 1000, q);
      Some(q)
  }

  /** `remainingPts / VELOCITY * 14 + HARDENING * 7`, as the whole number of
      days `setDate` moves by: the iterations the remaining points need, in
      days, plus the hardening weeks. */
  function RemainingDays(remainingPts: int, s: Settings): (r: int)
    requires s.velocity != 0
    ensures s.velocity > 0 ==>
      (r - 7 * s.hardening) * s.velocity <= remainingPts * ITERATION_DAYS
      < (r - 7 * s.hardening + 1) * s.velocity
    ensures remainingPts == 0 ==> r == 7 * s.hardening
    ensures s.velocity > 0 && remainingPts >= 0 && s.hardening >= 0 ==> r >= 0
  {
    var q := FloorDiv(remainingPts * ITERATION_DAYS, s.velocity);
    FloorDivSigns(remainingPts * ITERATION_DAYS, s.velocity, q);
    var r := q + 7 * s.hardening;
    assert r - 7 * s.hardening == q;
    r
  }

  lemma FloorDivSigns(n: int, d: int, q: int)
    requires d != 0 && q == FloorDiv(n, d)
    ensures n == 0 ==> q == 0
    ensures d > 0 && n >= 0 ==> q >= 0
    ensures d > 0 ==> q * d <= n < (q + 1) * d
  {
    if d > 0 {
      assert q * d <= n < q * d + d;
    } else {
      assert q * d + d < n <= q * d;
    }
  }

  // ---------------------------------------------------------------------------
  // Snapping to Wednesday

  function Weekday(day: int, c: int): (r: int)
    ensures 0 <= r < 7
  {
    (day + c) % 7
  }

  /** The weekday `t` days later is `t` weekdays further round. */
  lemma WeekdayShift(day: int, t: int, c: int)
    ensures Weekday(day + t, c) == (Weekday(day, c) + t) % 7
  {
    var x := day + c;
    assert x == 7 * (x / 7) + x % 7;
    ModShift(x % 7 + t, x / 7);
  }

  lemma ModShift(y: int, k: int)
    ensures (7 * k + y) % 7 == y % 7
  {
    var z := 7 * k + y;
    assert z == 7 * (z / 7) + z % 7;
    assert y == 7 * (y / 7) + y % 7;
    assert 7 * (k + y / 7 - z / 7) == z % 7 - y % 7;
  }

  /** `(3 - weekday + 7) % 7`: the days from weekday `wd` to the next
      Wednesday on or after it. */
  function DaysUntilWednesday(wd: int): (r: int)
    requires 0 <= wd < 7
    ensures 0 <= r < 7
    ensures (wd + r) % 7 == WEDNESDAY
    ensures r == 0 <==> wd == WEDNESDAY
  {
    (WEDNESDAY - wd + 7) % 7
  }

  /** The first Wednesday on or after `day`. */
  function SnapToWednesday(day: int, c: int): (r: int)
    ensures day <= r <= day + 6
    ensures Weekday(r, c) == WEDNESDAY
    ensures r == day <==> Weekday(day, c) == WEDNESDAY
    ensures forall d :: day <= d < r ==> Weekday(d, c) != WEDNESDAY
  {
    var wd := Weekday(day, c);
    var r := day + DaysUntilWednesday(wd);
    WeekdayShift(day, DaysUntilWednesday(wd), c);
    forall d | day <= d < r ensures Weekday(d, c) != WEDNESDAY {
      WeekdayShift(day, d - day, c);
    }
    r
  }

  /** The projected completion day from `today`. The source's date is invalid
      for a zero velocity (a division by zero); elsewhere it lands on the
      first Wednesday on or after today plus the remaining days. */
  function Eta(today: int, c: int, remainingPts: int, s: Settings): (r: Option<int>)
    ensures r.None? <==> s.velocity == 0
    ensures r.Some? ==> Weekday(r.value, c) == WEDNESDAY
    ensures r.Some? ==>
      today + RemainingDays(remainingPts, s) <= r.value <= today + RemainingDays(remainingPts, s) + 6
  {
    if s.velocity == 0 then None
    else Some(SnapToWednesday(today + RemainingDays(remainingPts, s), c))
  }

  /** The test that decides whether the reset-to-defaults link is hidden. */
  predicate AtDefaults(s: Settings)
    ensures AtDefaults(s) <==> s == DEFAULT_SETTINGS
  {
    DEFAULT_SETTINGS.velocity == s.velocity && DEFAULT_SETTINGS.pts == s.pts
      && DEFAULT_SETTINGS.hardening == s.hardening
  }

  // ---------------------------------------------------------------------------
  // The summary and the whole refresh

  /** The computational part of `renderSummary` for the epic list `list`. */
  method RenderSummary(list: seq<EpicSummary>, s: Settings, today: int, c: int) returns (r: ProjectSummary)
    ensures r.completedPts == SumDone(list) && r.totalPts == SumUpdated(list)
    ensures r.progressTenths == ProgressTenths(r.completedPts, r.totalPts)
    ensures r.remainingPts == r.totalPts - r.completedPts
    ensures r.eta == Eta(today, c, r.remainingPts, s)
    ensures r.atDefaults == AtDefaults(s)
  {
    var completedPts, totalPts := Totals(list);
    var remainingPts := totalPts - completedPts;
    r := ProjectSummary(completedPts, totalPts, ProgressTenths(completedPts, totalPts),
                        remainingPts, Eta(today, c, remainingPts, s), AtDefaults(s));
  }

  /** `renderList` followed by its call of `renderSummary`: the sorted epic
      list, and a summary whose totals are those of the unsorted list. */
  method RenderList(data: seq<Issue>, s: Settings, today: int, c: int)
    returns (featList: seq<EpicSummary>, summary: ProjectSummary)
    requires s.pts != 0
    ensures multiset(featList) == multiset(EpicList(data, s.pts)) && NonIncreasing(featList)
    ensures summary.completedPts == SumDone(EpicList(data, s.pts))
    ensures summary.totalPts == SumUpdated(EpicList(data, s.pts))
    ensures summary.progressTenths == ProgressTenths(summary.completedPts, summary.totalPts)
    ensures summary.eta == Eta(today, c, summary.totalPts - summary.completedPts, s)
    ensures summary.atDefaults == AtDefaults(s)
  {
    featList := BuildEpicList(data, s.pts);
    summary := RenderSummary(featList, s, today, c);
    ghost var list := EpicList(data, s.pts);
    SumsPermutation(featList, list);
    assert summary.completedPts == SumDone(list) && summary.totalPts == SumUpdated(list);
  }

  /** With non-negative story points and a default score of at least
      MIN_SCOPE, the project's progress is a defined value between 0.0% and
      100.0% whenever there is an epic, and the remaining points are not
      negative; without epics it is undefined. */
  lemma {:induction false} ProjectProgressInRange(data: seq<Issue>, s: Settings)
    requires s.pts >= MIN_SCOPE
    requires forall i :: 0 <= i < |data| ==> PointOf(data[i]) >= 0
    ensures var list := EpicList(data, s.pts);
      var p := ProgressTenths(SumDone(list), SumUpdated(list));
      && 0 <= SumDone(list) <= SumUpdated(list)
      && (list == [] <==> p.None?)
      && (p.Some? ==> 0 <= p.value <= 1000)
  {
    var list := EpicList(data, s.pts);
    EpicListProgressInRange(data, s.pts);
    forall x | x in list ensures 0 <= x.epic.donePoint <= x.updatedTotalPoint && x.updatedTotalPoint > 0 {
      var i :| 0 <= i < |list| && list[i] == x;
    }
    TotalsBounded(list);
  }

  /** With nothing left to do and no hardening, the ETA is the first
      Wednesday on or after today. */
  lemma EtaWhenDone(today: int, c: int, s: Settings)
    requires s.velocity != 0 && s.hardening == 0
    ensures Eta(today, c, 0, s) == Some(SnapToWednesday(today, c))
    ensures Weekday(today, c) == WEDNESDAY ==> Eta(today, c, 0, s) == Some(today)
  {
  }

  /** At 40 points per iteration and no hardening, 40 remaining points are
      one iteration of 14 days. */
  lemma OneIterationLeft()
    ensures RemainingDays(40, Settings(40, 40, 0)) == ITERATION_DAYS
  {
  }

  /** Two epics, one with 20 of its 50 points done and one under-scoped with
      all 10 of its points done, scored with the default of 40: 40% and 25%,
      and 30 of 90 points, 33.3%, for the project. */
  lemma TwoEpicScenario(a: Epic, b: Epic)
    requires a.donePoint == 20 && a.totalPoint == 50
    requires b.donePoint == 10 && b.totalPoint == 10
    ensures Summarize(a, 40).updatedTotalPoint == 50 && Summarize(a, 40).progress == 40
    ensures Summarize(b, 40).updatedTotalPoint == 40 && Summarize(b, 40).progress == 25
    ensures var list := [Summarize(a, 40), Summarize(b, 40)];
      SumDone(list) == 30 && SumUpdated(list) == 90 && ProgressTenths(30, 90) == Some(333)
  {
    var list := [Summarize(a, 40), Summarize(b, 40)];
    assert list[..1][..0] == [];
    assert list[..1] == [Summarize(a, 40)];
    assert Summarize(a, 40).updatedTotalPoint == 50;
    assert SumDone(list[..1]) == 20;
    assert SumUpdated(list[..1]) == 50;
    assert TruncDiv(30 * 1000, 90) == 333;
  }
}
