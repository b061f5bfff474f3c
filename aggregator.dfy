/** The epic aggregator of `renderList`: it selects the MVP epics, rolls
    their children's counts and points up into them, scores each epic against
    a minimum scope, and sorts the epics by progress. */
module Aggregator {
  import opened Wrappers
  import opened Numeric
  import opened Normalizer
  import opened Permutations

  const FEAT := "FEAT"
  const MVP := "mvp"
  const DONE := "Done"
  const IN_PROGRESS := "In Progress"
  /** An epic whose children carry fewer points than this is scored at the configured default. */
  const MIN_SCOPE := 30

  /** The accumulator `renderList` keeps per epic: the epic's own key, title
      and status, and the counters its children add to. */
  datatype Epic = Epic(
    key: string,
    title: string,
    status: Option<string>,
    donePoint: int,
    totalPoint: int,
    doneCnt: nat,
    totalCnt: nat)

  /** One entry of the epic list: the rolled-up epic with its scored total and progress. */
  datatype EpicSummary = EpicSummary(epic: Epic, updatedTotalPoint: int, progress: int)

  // ---------------------------------------------------------------------------
  // Selecting epics

  /** An MVP epic: an issue of type `FEAT` carrying the label `mvp`. */
  predicate IsEpic(i: Issue) {
    i.issueType == Some(FEAT) && MVP in i.labels
  }

  function NewEpic(i: Issue): Epic {
    Epic(i.key, i.title, i.status, 0, 0, 0, 0)
  }

  /** The `reduce` that builds the epic dictionary: each MVP feature, in order,
      writes a fresh accumulator under its key. */
  function SelectEpics(data: seq<Issue>): (r: map<string, Epic>)
    ensures forall k :: k in r ==> r[k].key == k
    ensures forall k :: k in r ==> r[k].donePoint == 0 && r[k].totalPoint == 0
    ensures forall k :: k in r ==> r[k].doneCnt == 0 && r[k].totalCnt == 0
  {
    if data == [] then map[]
    else
      var acc := SelectEpics(data[..|data| - 1]);
      var cur := data[|data| - 1];
      if IsEpic(cur) then acc[cur.key := NewEpic(cur)] else acc
  }

  /** `data[j]` is the last MVP feature with key `k`. */
  ghost predicate LastEpicWith(data: seq<Issue>, k: string, j: int) {
    && 0 <= j < |data| && IsEpic(data[j]) && data[j].key == k
    && forall j' :: j < j' < |data| && IsEpic(data[j']) ==> data[j'].key != k
  }

  /** The epic dictionary holds exactly the keys of the MVP features. */
  lemma {:induction false} SelectEpicsKeys(data: seq<Issue>)
    ensures forall k :: k in SelectEpics(data) <==>
      exists j :: 0 <= j < |data| && IsEpic(data[j]) && data[j].key == k
  {
    if data != [] {
      var n := |data| - 1;
      var pre := data[..n];
      SelectEpicsKeys(pre);
      forall k | exists j :: 0 <= j < |data| && IsEpic(data[j]) && data[j].key == k
        ensures k in SelectEpics(data)
      {
        var j :| 0 <= j < |data| && IsEpic(data[j]) && data[j].key == k;
        if j < n { assert pre[j] == data[j]; }
      }
      forall k | k in SelectEpics(data)
        ensures exists j :: 0 <= j < |data| && IsEpic(data[j]) && data[j].key == k
      {
        if !(IsEpic(data[n]) && data[n].key == k) {
          assert k in SelectEpics(pre);
          var j :| 0 <= j < |pre| && IsEpic(pre[j]) && pre[j].key == k;
          assert data[j] == pre[j];
        }
      }
    }
  }

  /** Each entry of the epic dictionary starts from the last MVP feature with
      its key (a later duplicate overwrites an earlier one). */
  lemma {:induction false} SelectEpicsLast(data: seq<Issue>, k: string)
    requires k in SelectEpics(data)
    ensures exists j :: LastEpicWith(data, k, j) && SelectEpics(data)[k] == NewEpic(data[j])
  {
    var n := |data| - 1;
    var pre := data[..n];
    if IsEpic(data[n]) && data[n].key == k {
      assert LastEpicWith(data, k, n);
    } else {
      assert k in SelectEpics(pre);
      SelectEpicsLast(pre, k);
      var j :| LastEpicWith(pre, k, j) && SelectEpics(pre)[k] == NewEpic(pre[j]);
      assert LastEpicWith(data, k, j);
    }
  }

  /** `Object.keys` of the epic dictionary: the keys in the order of their
      first insertion. */
  function EpicOrder(data: seq<Issue>): (o: seq<string>)
    ensures forall i, j :: 0 <= i < j < |o| ==> o[i] != o[j]
    ensures forall i :: 0 <= i < |o| ==> o[i] in SelectEpics(data)
  {
    if data == [] then []
    else
      var o := EpicOrder(data[..|data| - 1]);
      var cur := data[|data| - 1];
      if IsEpic(cur) && cur.key !in o then o + [cur.key] else o
  }

  /** The key order lists every key of the dictionary exactly once. */
  lemma {:induction false} EpicOrderIsKeyOrder(data: seq<Issue>)
    ensures forall k :: k in EpicOrder(data) <==> k in SelectEpics(data)
    ensures forall i, j :: 0 <= i < j < |EpicOrder(data)| ==> EpicOrder(data)[i] != EpicOrder(data)[j]
  {
    if data != [] {
      EpicOrderIsKeyOrder(data[..|data| - 1]);
    }
  }

  // ---------------------------------------------------------------------------
  // Rolling children up into their epics

  /** A child of epic `k`: a non-feature issue whose parent is `k`. */
  predicate IsChildOf(i: Issue, k: string) {
    i.issueType != Some(FEAT) && i.parent == Some(k)
  }

  predicate IsDone(i: Issue) {
    i.status == Some(DONE)
  }

  /** `issue.point || 0` */
  function PointOf(i: Issue): (r: int)
    ensures r == 0 <==> i.point == None || i.point == Some(0)
    ensures i.point.Some? ==> r == i.point.value
  {
    i.point.GetOr(0)
  }

  /** The effect of one child on its epic's accumulator (the body of the `forEach`). */
  function Step(e: Epic, child: Issue): (r: Epic)
    ensures r.key == e.key && r.title == e.title
    ensures r.totalCnt == e.totalCnt + 1 && r.totalPoint == e.totalPoint + PointOf(child)
    ensures r.doneCnt == e.doneCnt + (if IsDone(child) then 1 else 0)
    ensures r.donePoint == e.donePoint + (if IsDone(child) then PointOf(child) else 0)
    ensures e.status == Some(DONE) ==> r.status == Some(DONE)
    ensures IsDone(child) && e.status != Some(DONE) ==> r.status == Some(IN_PROGRESS)
    ensures !IsDone(child) ==> r.status == e.status
  {
    var e1 := e.(totalCnt := e.totalCnt + 1, totalPoint := e.totalPoint + PointOf(child));
    if IsDone(child) then
      e1.(doneCnt := e1.doneCnt + 1, donePoint := e1.donePoint + PointOf(child),
          status := if e1.status != Some(DONE) then Some(IN_PROGRESS) else e1.status)
    else e1
  }

  /** Accumulator `e` of epic `k` after the `forEach` has visited `s`. */
  function Accumulate(e: Epic, k: string, s: seq<Issue>): (r: Epic)
    ensures r.key == e.key && r.title == e.title
    ensures e.totalCnt <= r.totalCnt <= e.totalCnt + |s|
    ensures r.doneCnt - e.doneCnt <= r.totalCnt - e.totalCnt
    ensures e.status == Some(DONE) ==> r.status == Some(DONE)
  {
    if s == [] then e
    else
      var prev := Accumulate(e, k, s[..|s| - 1]);
      var last := s[|s| - 1];
      if IsChildOf(last, k) then Step(prev, last) else prev
  }

  /** The epic dictionary after the `forEach` over `data`. */
  function RolledUp(features: map<string, Epic>, data: seq<Issue>): (r: map<string, Epic>)
    ensures r.Keys == features.Keys
    ensures forall k :: k in r ==> r[k].key == features[k].key && r[k].totalCnt - features[k].totalCnt <= |data|
  {
    map k | k in features :: Accumulate(features[k], k, data)
  }

  /** The `forEach` of `renderList` that updates the epic dictionary in place. */
  method RollUp(data: seq<Issue>, features: map<string, Epic>) returns (rolled: map<string, Epic>)
    ensures rolled.Keys == features.Keys
    ensures forall k :: k in rolled ==> rolled[k] == Accumulate(features[k], k, data)
  {
    rolled := features;
    for i := 0 to |data|
      invariant rolled.Keys == features.Keys
      invariant forall k :: k in rolled ==> rolled[k] == Accumulate(features[k], k, data[..i])
    {
      var issue := data[i];
      assert data[..i + 1][..i] == data[..i];
      if issue.issueType != Some(FEAT) && issue.parent.Some? && issue.parent.value in rolled {
        var p := issue.parent.value;
        rolled := rolled[p := Step(rolled[p], issue)];
      }
    }
    assert data[..|data|] == data;
  }

  // Reference definitions of what the roll-up counts.

  /** A child of `k` that the roll-up counts; with `onlyDone`, a Done one. */
  predicate Counted(i: Issue, k: string, onlyDone: bool) {
    IsChildOf(i, k) && (onlyDone ==> IsDone(i))
  }

  /** The children of `k` in `s`, in order; with `onlyDone`, the Done children. */
  function Children(s: seq<Issue>, k: string, onlyDone: bool): seq<Issue> {
    if s == [] then []
    else
      var tail := if Counted(s[|s| - 1], k, onlyDone) then [s[|s| - 1]] else [];
      Children(s[..|s| - 1], k, onlyDone) + tail
  }

  function SumPoints(s: seq<Issue>): int {
    if s == [] then 0 else SumPoints(s[..|s| - 1]) + PointOf(s[|s| - 1])
  }

  lemma SumPointsAppend(s: seq<Issue>, t: seq<Issue>)
    ensures SumPoints(s + t) == SumPoints(s) + SumPoints(t)
    decreases |t|
  {
    if t != [] {
      assert (s + t)[..|s + t| - 1] == s + t[..|t| - 1];
      assert (s + t)[|s + t| - 1] == t[|t| - 1];
      SumPointsAppend(s, t[..|t| - 1]);
    } else {
      assert s + t == s;
    }
  }

  /** The epic's own status after its children: Done stays Done; otherwise a
      Done child makes it In Progress, and without one it keeps its status. */
  function FinalStatus(own: Option<string>, anyDoneChild: bool): Option<string> {
    if own == Some(DONE) || !anyDoneChild then own else Some(IN_PROGRESS)
  }

  /** What the roll-up adds to one accumulator: the count and point sum of
      the children, and of the Done children. */
  lemma {:induction false} AccumulateCounts(e: Epic, k: string, s: seq<Issue>)
    ensures Accumulate(e, k, s).key == e.key && Accumulate(e, k, s).title == e.title
    ensures Accumulate(e, k, s).totalCnt == e.totalCnt + |Children(s, k, false)|
    ensures Accumulate(e, k, s).totalPoint == e.totalPoint + SumPoints(Children(s, k, false))
    ensures Accumulate(e, k, s).doneCnt == e.doneCnt + |Children(s, k, true)|
    ensures Accumulate(e, k, s).donePoint == e.donePoint + SumPoints(Children(s, k, true))
    ensures Accumulate(e, k, s).status == FinalStatus(e.status, Children(s, k, true) != [])
  {
    if s != [] {
      var pre := s[..|s| - 1];
      var last := s[|s| - 1];
      AccumulateCounts(e, k, pre);
      SumPointsAppend(Children(pre, k, false), if Counted(last, k, false) then [last] else []);
      SumPointsAppend(Children(pre, k, true), if Counted(last, k, true) then [last] else []);
      assert SumPoints([last]) == PointOf(last) by {
        assert [last][..0] == [];
      }
    }
  }

  /** The Done children of `k` are exactly the issues of `s` that are Done children. */
  lemma {:induction false} DoneChildrenMembers(s: seq<Issue>, k: string)
    ensures Children(s, k, true) == [] <==> forall i :: 0 <= i < |s| ==> !(IsChildOf(s[i], k) && IsDone(s[i]))
  {
    if s != [] {
      var pre := s[..|s| - 1];
      DoneChildrenMembers(pre, k);
      assert forall i :: 0 <= i < |pre| ==> pre[i] == s[i];
    }
  }

  /** The status rule of the roll-up, order-independently: an epic the tracker
      marks Done stays Done; any other epic ends In Progress when some child
      is Done, and keeps its own status when none is. */
  lemma {:induction false} EpicStatus(e: Epic, k: string, s: seq<Issue>)
    ensures e.status == Some(DONE) ==> Accumulate(e, k, s).status == Some(DONE)
    ensures e.status != Some(DONE) && (exists i :: 0 <= i < |s| && IsChildOf(s[i], k) && IsDone(s[i]))
      ==> Accumulate(e, k, s).status == Some(IN_PROGRESS)
    ensures (forall i :: 0 <= i < |s| ==> !(IsChildOf(s[i], k) && IsDone(s[i])))
      ==> Accumulate(e, k, s).status == e.status
  {
    AccumulateCounts(e, k, s);
    DoneChildrenMembers(s, k);
  }

  /** Dropping the non-Done children leaves no more issues, and with
      non-negative points no more points. */
  lemma {:induction false} DoneChildrenBounded(s: seq<Issue>, k: string)
    ensures |Children(s, k, true)| <= |Children(s, k, false)|
    ensures (forall i :: 0 <= i < |s| ==> PointOf(s[i]) >= 0) ==>
      0 <= SumPoints(Children(s, k, true)) <= SumPoints(Children(s, k, false))
  {
    if s != [] {
      var pre := s[..|s| - 1];
      var last := s[|s| - 1];
      DoneChildrenBounded(pre, k);
      assert forall i :: 0 <= i < |pre| ==> pre[i] == s[i];
      SumPointsAppend(Children(pre, k, false), if Counted(last, k, false) then [last] else []);
      SumPointsAppend(Children(pre, k, true), if Counted(last, k, true) then [last] else []);
      assert SumPoints([last]) == PointOf(last) by {
        assert [last][..0] == [];
      }
    }
  }

  /** After the `forEach`, every epic's counters are exactly its children's
      counts and point sums; hence doneCnt <= totalCnt, and with non-negative
      points 0 <= donePoint <= totalPoint. */
  lemma {:induction false} RolledUpEpic(data: seq<Issue>, k: string)
    requires k in SelectEpics(data)
    ensures k in RolledUp(SelectEpics(data), data)
    ensures var r := RolledUp(SelectEpics(data), data)[k];
      && r.key == k
      && r.totalCnt == |Children(data, k, false)| && r.totalPoint == SumPoints(Children(data, k, false))
      && r.doneCnt == |Children(data, k, true)| && r.donePoint == SumPoints(Children(data, k, true))
      && r.doneCnt <= r.totalCnt
    ensures (forall i :: 0 <= i < |data| ==> PointOf(data[i]) >= 0) ==>
      0 <= RolledUp(SelectEpics(data), data)[k].donePoint <= RolledUp(SelectEpics(data), data)[k].totalPoint
  {
    AccumulateCounts(SelectEpics(data)[k], k, data);
    DoneChildrenBounded(data, k);
  }

  /** An issue that is a child of no epic (a feature, or one whose parent is
      not an epic key) changes no accumulator. */
  lemma NonChildChangesNothing(features: map<string, Epic>, data: seq<Issue>, i: Issue)
    requires forall k :: k in features ==> !IsChildOf(i, k)
    ensures RolledUp(features, data + [i]) == RolledUp(features, data)
  {
    assert (data + [i])[..|data|] == data;
  }

  // Order independence of the roll-up.

  lemma ChildrenAppend(u: seq<Issue>, v: seq<Issue>, k: string, onlyDone: bool)
    ensures Children(u + v, k, onlyDone) == Children(u, k, onlyDone) + Children(v, k, onlyDone)
    decreases |v|
  {
    if v == [] {
      assert u + v == u;
    } else {
      assert (u + v)[..|u + v| - 1] == u + v[..|v| - 1];
      assert (u + v)[|u + v| - 1] == v[|v| - 1];
      ChildrenAppend(u, v[..|v| - 1], k, onlyDone);
    }
  }

  /** Reordering the issues reorders the children of each epic and no more. */
  lemma {:induction false} ChildrenPermutation(s: seq<Issue>, t: seq<Issue>, k: string, onlyDone: bool)
    requires multiset(s) == multiset(t)
    ensures multiset(Children(s, k, onlyDone)) == multiset(Children(t, k, onlyDone))
    decreases |s|
  {
    if s == [] {
      assert |t| == |multiset(t)| == 0;
    } else {
      var n := |s| - 1;
      var x := s[n];
      var j := MatchLast(s, t);
      ChildrenPermutation(s[..n], t[..j] + t[j + 1..], k, onlyDone);
      ChildrenAppend(t[..j] + [x], t[j + 1..], k, onlyDone);
      ChildrenAppend(t[..j], [x], k, onlyDone);
      ChildrenAppend(t[..j], t[j + 1..], k, onlyDone);
      assert [x][..0] == [];
    }
  }

  lemma {:induction false} SumPointsPermutation(s: seq<Issue>, t: seq<Issue>)
    requires multiset(s) == multiset(t)
    ensures SumPoints(s) == SumPoints(t)
    decreases |s|
  {
    if s == [] {
      assert |t| == |multiset(t)| == 0;
    } else {
      var n := |s| - 1;
      var x := s[n];
      var j := MatchLast(s, t);
      SumPointsPermutation(s[..n], t[..j] + t[j + 1..]);
      SumPointsAppend(t[..j] + [x], t[j + 1..]);
      SumPointsAppend(t[..j], [x]);
      SumPointsAppend(t[..j], t[j + 1..]);
      assert [x][..0] == [];
    }
  }

  /** Reordering the issues keeps the number and the point sum of an epic's children. */
  lemma {:induction false} ChildTotalsPermutation(s: seq<Issue>, t: seq<Issue>, k: string, onlyDone: bool)
    requires multiset(s) == multiset(t)
    ensures |Children(s, k, onlyDone)| == |Children(t, k, onlyDone)|
    ensures SumPoints(Children(s, k, onlyDone)) == SumPoints(Children(t, k, onlyDone))
  {
    var c1, c2 := Children(s, k, onlyDone), Children(t, k, onlyDone);
    ChildrenPermutation(s, t, k, onlyDone);
    SumPointsPermutation(c1, c2);
    assert |c1| == |multiset(c1)| && |c2| == |multiset(c2)|;
  }

  /** The roll-up does not depend on the order of the issues: an epic's
      counters and status come out the same for any reordering. */
  lemma {:induction false} AccumulateOrderIndependent(e: Epic, k: string, s: seq<Issue>, t: seq<Issue>)
    requires multiset(s) == multiset(t)
    ensures Accumulate(e, k, s) == Accumulate(e, k, t)
  {
    AccumulateCounts(e, k, s);
    AccumulateCounts(e, k, t);
    ChildTotalsPermutation(s, t, k, false);
    ChildTotalsPermutation(s, t, k, true);
    var r1, r2 := Accumulate(e, k, s), Accumulate(e, k, t);
    assert r1.status == r2.status by {
      assert (Children(s, k, true) == []) == (|Children(s, k, true)| == 0);
      assert (Children(t, k, true) == []) == (|Children(t, k, true)| == 0);
    }
    assert r1.totalCnt == r2.totalCnt && r1.doneCnt == r2.doneCnt;
    assert r1.totalPoint == r2.totalPoint && r1.donePoint == r2.donePoint;
  }

  lemma {:induction false} RollUpOrderIndependent(features: map<string, Epic>, s: seq<Issue>, t: seq<Issue>)
    requires multiset(s) == multiset(t)
    ensures RolledUp(features, s) == RolledUp(features, t)
  {
    forall k | k in features ensures Accumulate(features[k], k, s) == Accumulate(features[k], k, t) {
      AccumulateOrderIndependent(features[k], k, s, t);
    }
  }

  // ---------------------------------------------------------------------------
  // Scoring and sorting

  /** The total an epic is scored against: the configured default `pts` when
      its children carry fewer than MIN_SCOPE points, its own total otherwise. */
  function UpdatedTotal(totalPoint: int, pts: int): (r: int)
    ensures totalPoint < MIN_SCOPE ==> r == pts
    ensures totalPoint >= MIN_SCOPE ==> r == totalPoint
    ensures pts != 0 ==> r != 0
    ensures pts >= MIN_SCOPE ==> r >= totalPoint && r >= MIN_SCOPE
  {
    if totalPoint < MIN_SCOPE then pts else totalPoint
  }

  /** `parseInt(donePoint / updatedTotalPoint * 100, 10)`: the done share in
      whole percent, truncated. */
  function EpicProgress(donePoint: int, updatedTotalPoint: int): (r: int)
    requires updatedTotalPoint != 0
    ensures updatedTotalPoint > 0 && donePoint >= 0 ==>
      r * updatedTotalPoint <= donePoint * 100 < (r + 1) * updatedTotalPoint
    ensures 0 <= donePoint <= updatedTotalPoint ==> 0 <= r <= 100
  {
    var q := TruncDiv(donePoint * 100, updatedTotalPoint);
    ScaledShare(donePoint, updatedTotalPoint, 100, q);
    q
  }

  /** The epic-list entry `renderList` builds for one rolled-up epic. */
  function Summarize(e: Epic, pts: int): (r: EpicSummary)
    requires pts != 0
    ensures r.epic == e && r.updatedTotalPoint != 0
    ensures e.totalPoint < MIN_SCOPE ==> r.updatedTotalPoint == pts
    ensures e.totalPoint >= MIN_SCOPE ==> r.updatedTotalPoint == e.totalPoint
    ensures r.progress == EpicProgress(e.donePoint, r.updatedTotalPoint)
    ensures pts >= MIN_SCOPE && 0 <= e.donePoint <= e.totalPoint ==> 0 <= r.progress <= 100
  {
    var u := UpdatedTotal(e.totalPoint, pts);
    EpicSummary(e, u, EpicProgress(e.donePoint, u))
  }

  /** The unsorted epic list: one entry per dictionary key, in key order. */
  function EpicList(data: seq<Issue>, pts: int): (r: seq<EpicSummary>)
    requires pts != 0
    ensures |r| == |EpicOrder(data)|
  {
    Lookup(EpicOrder(data), Scored(RolledUp(SelectEpics(data), data), pts))
  }

  /** The entry `renderList` builds for each key of the rolled-up dictionary. */
  function Scored(rolled: map<string, Epic>, pts: int): (r: map<string, EpicSummary>)
    requires pts != 0
    ensures r.Keys == rolled.Keys
    ensures forall k :: k in r ==> r[k].epic == rolled[k]
  {
    map k | k in rolled :: Summarize(rolled[k], pts)
  }

  /** No two different MVP features share a key. */
  ghost predicate UniqueEpicKeys(data: seq<Issue>) {
    forall i, j ::
      (0 <= i < |data| && 0 <= j < |data| && IsEpic(data[i]) && IsEpic(data[j]) && data[i].key == data[j].key)
      ==> data[i] == data[j]
  }

  /** With unique MVP keys, reordering the issues selects the same epics. */
  lemma {:induction false} SelectEpicsOrderIndependent(s: seq<Issue>, t: seq<Issue>)
    requires multiset(s) == multiset(t)
    requires UniqueEpicKeys(s)
    ensures SelectEpics(s) == SelectEpics(t)
  {
    SelectEpicsKeys(s);
    SelectEpicsKeys(t);
    forall x ensures x in s <==> x in t {
      assert x in s <==> x in multiset(s);
      assert x in t <==> x in multiset(t);
    }
    forall k ensures k in SelectEpics(s) <==> k in SelectEpics(t) {
      if k in SelectEpics(s) {
        var j :| 0 <= j < |s| && IsEpic(s[j]) && s[j].key == k;
        assert s[j] in t;
        var j' :| 0 <= j' < |t| && t[j'] == s[j];
      }
      if k in SelectEpics(t) {
        var j :| 0 <= j < |t| && IsEpic(t[j]) && t[j].key == k;
        assert t[j] in s;
        var j' :| 0 <= j' < |s| && s[j'] == t[j];
      }
    }
    forall k | k in SelectEpics(s) ensures SelectEpics(s)[k] == SelectEpics(t)[k] {
      SelectEpicsLast(s, k);
      SelectEpicsLast(t, k);
      var j :| LastEpicWith(s, k, j) && SelectEpics(s)[k] == NewEpic(s[j]);
      var j' :| LastEpicWith(t, k, j') && SelectEpics(t)[k] == NewEpic(t[j']);
      assert t[j'] in s;
      var i :| 0 <= i < |s| && s[i] == t[j'];
    }
  }

  /** A sequence without repetitions holds each of its elements once. */
  lemma {:induction false} DistinctMultiset(o: seq<string>)
    requires forall i, j :: 0 <= i < j < |o| ==> o[i] != o[j]
    ensures forall x :: multiset(o)[x] == if x in o then 1 else 0
  {
    if o != [] {
      var pre := o[..|o| - 1];
      DistinctMultiset(pre);
      assert o == pre + [o[|o| - 1]];
    }
  }

  /** With unique MVP keys, the epic list does not depend on the order of the
      issues: any reordering yields the same entries, each as often. */
  lemma {:induction false} EpicListOrderIndependent(s: seq<Issue>, t: seq<Issue>, pts: int)
    requires pts != 0
    requires multiset(s) == multiset(t)
    requires UniqueEpicKeys(s)
    ensures multiset(EpicList(s, pts)) == multiset(EpicList(t, pts))
  {
    SelectEpicsOrderIndependent(s, t);
    var features := SelectEpics(s);
    RollUpOrderIndependent(features, s, t);
    var o1, o2 := EpicOrder(s), EpicOrder(t);
    EpicOrderIsKeyOrder(s);
    EpicOrderIsKeyOrder(t);
    DistinctMultiset(o1);
    DistinctMultiset(o2);
    assert multiset(o1) == multiset(o2) by {
      forall x ensures multiset(o1)[x] == multiset(o2)[x] {
        assert x in o1 <==> x in o2;
      }
    }
    LookupPermutation(o1, o2, Scored(RolledUp(features, s), pts));
  }

  /** Every entry of the epic list reports its epic's children: the number
      and point sum of all of them and of the Done ones, the final status,
      and a progress that is the truncated percentage of its scored total. */
  lemma {:induction false} EpicListEntries(data: seq<Issue>, pts: int)
    requires pts != 0
    ensures forall i :: 0 <= i < |EpicList(data, pts)| ==>
      var r := EpicList(data, pts)[i];
      var k := r.epic.key;
      && k in SelectEpics(data)
      && r.epic.totalCnt == |Children(data, k, false)|
      && r.epic.totalPoint == SumPoints(Children(data, k, false))
      && r.epic.doneCnt == |Children(data, k, true)|
      && r.epic.donePoint == SumPoints(Children(data, k, true))
      && r.epic.status == FinalStatus(SelectEpics(data)[k].status, Children(data, k, true) != [])
      && r.updatedTotalPoint == UpdatedTotal(r.epic.totalPoint, pts)
      && r.progress == EpicProgress(r.epic.donePoint, r.updatedTotalPoint)
  {
    var list := EpicList(data, pts);
    var order := EpicOrder(data);
    forall i | 0 <= i < |list|
      ensures var k := list[i].epic.key;
        && k in SelectEpics(data)
        && list[i].epic.totalCnt == |Children(data, k, false)|
        && list[i].epic.totalPoint == SumPoints(Children(data, k, false))
        && list[i].epic.doneCnt == |Children(data, k, true)|
        && list[i].epic.donePoint == SumPoints(Children(data, k, true))
        && list[i].epic.status == FinalStatus(SelectEpics(data)[k].status, Children(data, k, true) != [])
    {
      var k := order[i];
      RolledUpEpic(data, k);
      AccumulateCounts(SelectEpics(data)[k], k, data);
    }
  }

  /** No epic is dropped and none appears twice: each MVP feature key has
      exactly one entry in the epic list, and every entry belongs to one. */
  lemma {:induction false} EpicListCoversEpics(data: seq<Issue>, pts: int)
    requires pts != 0
    ensures forall k :: k in SelectEpics(data) ==>
      exists i :: 0 <= i < |EpicList(data, pts)| && EpicList(data, pts)[i].epic.key == k
    ensures forall i :: 0 <= i < |EpicList(data, pts)| ==> EpicList(data, pts)[i].epic.key in SelectEpics(data)
    ensures forall i, j :: 0 <= i < j < |EpicList(data, pts)| ==>
      EpicList(data, pts)[i].epic.key != EpicList(data, pts)[j].epic.key
  {
    var list := EpicList(data, pts);
    var order := EpicOrder(data);
    EpicOrderIsKeyOrder(data);
    forall i | 0 <= i < |list| ensures list[i].epic.key == order[i] {
      RolledUpEpic(data, order[i]);
    }
    forall k | k in SelectEpics(data)
      ensures exists i :: 0 <= i < |list| && list[i].epic.key == k
    {
      var i :| 0 <= i < |order| && order[i] == k;
      assert list[i].epic.key == k;
    }
  }

  /** With non-negative points and a default of at least MIN_SCOPE, every
      entry's progress is a percentage between 0 and 100 and no epic has
      more points done than it is scored against. */
  lemma {:induction false} EpicListProgressInRange(data: seq<Issue>, pts: int)
    requires pts >= MIN_SCOPE
    requires forall i :: 0 <= i < |data| ==> PointOf(data[i]) >= 0
    ensures forall i :: 0 <= i < |EpicList(data, pts)| ==>
      && 0 <= EpicList(data, pts)[i].epic.donePoint <= EpicList(data, pts)[i].updatedTotalPoint
      && 0 <= EpicList(data, pts)[i].progress <= 100
  {
    var list := EpicList(data, pts);
    var order := EpicOrder(data);
    EpicOrderIsKeyOrder(data);
    forall i | 0 <= i < |list|
      ensures 0 <= list[i].epic.donePoint <= list[i].updatedTotalPoint
      ensures 0 <= list[i].progress <= 100
    {
      RolledUpEpic(data, order[i]);
    }
  }

  predicate NonIncreasing(s: seq<EpicSummary>) {
    forall i, j :: 0 <= i < j < |s| ==> s[i].progress >= s[j].progress
  }

  method Swap(a: array<EpicSummary>, i: int, j: int)
    requires 0 <= i < a.Length && 0 <= j < a.Length
    modifies a
    ensures a[i] == old(a[j]) && a[j] == old(a[i])
    ensures forall m :: 0 <= m < a.Length && m != i && m != j ==> a[m] == old(a[m])
    ensures multiset(a[..]) == multiset(old(a[..]))
  {
    a[i], a[j] := a[j], a[i];
  }

  /** `featList.sort(...)` by non-increasing progress, in place. The order of
      entries with equal progress is not specified. */
  method SortByProgress(a: array<EpicSummary>)
    modifies a
    ensures NonIncreasing(a[..])
    ensures multiset(a[..]) == multiset(old(a[..]))
  {
    if a.Length == 0 { return; }
    var i := 1;
    while i < a.Length
      invariant 1 <= i <= a.Length
      invariant forall m, n :: 0 <= m < n < i ==> a[m].progress >= a[n].progress
      invariant multiset(a[..]) == multiset(old(a[..]))
    {
      var j := i;
      while j > 0 && a[j - 1].progress < a[j].progress
        invariant 0 <= j <= i
        invariant forall m, n :: 0 <= m < n <= i && m != j && n != j ==> a[m].progress >= a[n].progress
        invariant forall n :: j < n <= i ==> a[j].progress >= a[n].progress
        invariant 0 < j < i ==> a[j - 1].progress >= a[j + 1].progress
        invariant multiset(a[..]) == multiset(old(a[..]))
      {
        Swap(a, j - 1, j);
        j := j - 1;
      }
      i := i + 1;
    }
  }

  /** The computational part of `renderList`: select, roll up, score and sort.
      The result holds the epic list's entries, each once, by non-increasing progress. */
  method BuildEpicList(data: seq<Issue>, pts: int) returns (featList: seq<EpicSummary>)
    requires pts != 0
    ensures multiset(featList) == multiset(EpicList(data, pts))
    ensures NonIncreasing(featList)
  {
    var features := SelectEpics(data);
    var rolled := RollUp(data, features);
    var order := EpicOrder(data);
    EpicOrderIsKeyOrder(data);
    assert rolled == RolledUp(features, data);
    var list := Lookup(order, Scored(rolled, pts));
    var a := new EpicSummary[|list|](i requires 0 <= i < |list| => list[i]);
    assert a[..] == list;
    SortByProgress(a);
    featList := a[..];
  }
}
