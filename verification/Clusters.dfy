/** Greedy clustering of pivots into price zones (daybreak_features/resistance.py, _clusters). */
module Clusters {
  import opened Orders
  import opened Pivots

  /** `touches` are the member days, ascending; `age` is counted in bars from the latest one. */
  datatype Cluster = Cluster(
    sequence: nat, anchor: real, members: seq<Pivot>, low: real, high: real, center: real,
    touches: seq<int>, age: int, containsHigh: bool)

  /** How many bars ago a day was. */
  type Calendar = int -> int

  function DayIndex(bars: seq<Bar>, day: int): (i: nat)
    ensures i <= |bars|
    ensures (exists b :: b in bars && b.day == day) ==> i < |bars| && bars[i].day == day
  {
    if bars == [] || bars[0].day == day then 0
    else
      assert bars == [bars[0]] + bars[1..];
      1 + DayIndex(bars[1..], day)
  }

  function CalendarOf(bars: seq<Bar>): Calendar {
    (day: int) => |bars| - 1 - DayIndex(bars, day)
  }

  /** On a bar's day the calendar says how far that bar is from the latest. */
  lemma CalendarCounts(bars: seq<Bar>, i: nat)
    requires Chronological(bars) && i < |bars|
    ensures CalendarOf(bars)(bars[i].day) == |bars| - 1 - i
  {
    assert bars[i] in bars;
    var k := DayIndex(bars, bars[i].day);
    assert bars[k].day == bars[i].day;
  }

  /** Highest price first, earlier day first at equal prices. */
  predicate ByPrice(a: Pivot, b: Pivot) {
    a.price > b.price || (a.price == b.price && a.day <= b.day)
  }

  predicate ByDay(a: Pivot, b: Pivot) {
    a.day <= b.day
  }

  /** Pivots come from different bars. */
  ghost predicate DifferentDays(pivots: seq<Pivot>) {
    forall p, q :: p in pivots && q in pivots && p.day == q.day ==> p == q
  }

  // ---------- a cluster from its pivots ----------

  function MinPrice(ps: seq<Pivot>): (m: real)
    requires ps != []
    ensures forall p :: p in ps ==> m <= p.price
    ensures exists p :: p in ps && p.price == m
  {
    if |ps| == 1 then ps[0].price
    else
      var rest := MinPrice(ps[1..]);
      assert ps == [ps[0]] + ps[1..];
      if ps[0].price < rest then ps[0].price else rest
  }

  function MaxPrice(ps: seq<Pivot>): (m: real)
    requires ps != []
    ensures forall p :: p in ps ==> p.price <= m
    ensures exists p :: p in ps && p.price == m
  {
    if |ps| == 1 then ps[0].price
    else
      var rest := MaxPrice(ps[1..]);
      assert ps == [ps[0]] + ps[1..];
      if ps[0].price > rest then ps[0].price else rest
  }

  /** The middle price, or halfway between the two middle ones. */
  function Median(ps: seq<Pivot>): real
    requires ps != []
  {
    var sorted := SortBy(ByPrice, ps);
    SameElements(sorted, ps);
    var n := |ps|;
    if n % 2 == 1 then sorted[n / 2].price else (sorted[n / 2 - 1].price + sorted[n / 2].price) / 2.0
  }

  /** At least half of the prices are at or above, and at least half at or below. */
  ghost predicate IsMedian(ps: seq<Pivot>, m: real) {
    && 2 * |Filter((p: Pivot) => p.price >= m, ps)| >= |ps|
    && 2 * |Filter((p: Pivot) => p.price <= m, ps)| >= |ps|
  }

  lemma MedianSplits(ps: seq<Pivot>)
    requires ps != []
    ensures IsMedian(ps, Median(ps))
  {
    var sorted, m, n := SortBy(ByPrice, ps), Median(ps), |ps|;
    SameElements(sorted, ps);
    SortSorted(ByPrice, ps);
    var above, below := (p: Pivot) => p.price >= m, (p: Pivot) => p.price <= m;
    HalvesAround(sorted, m);
    FilterFirst(above, sorted, (n + 1) / 2);
    FilterLast(below, sorted, n / 2);
    FilterCount(above, ps, sorted);
    FilterCount(below, ps, sorted);
  }

  lemma HalvesAround(sorted: seq<Pivot>, m: real)
    requires sorted != [] && Sorted(ByPrice, sorted)
    requires var n := |sorted|;
             m == if n % 2 == 1 then sorted[n / 2].price else (sorted[n / 2 - 1].price + sorted[n / 2].price) / 2.0
    ensures forall k :: 0 <= k < (|sorted| + 1) / 2 ==> sorted[k].price >= m
    ensures forall k :: |sorted| / 2 <= k < |sorted| ==> sorted[k].price <= m
  {
    var n := |sorted|;
    assert n % 2 == 0 ==> ByPrice(sorted[n / 2 - 1], sorted[n / 2]);
    forall k | 0 <= k < (n + 1) / 2 ensures sorted[k].price >= m {
      var last := (n + 1) / 2 - 1;
      assert k < last ==> ByPrice(sorted[k], sorted[last]);
    }
    forall k | n / 2 <= k < n ensures sorted[k].price <= m {
      assert n / 2 < k ==> ByPrice(sorted[n / 2], sorted[k]);
    }
  }

  /** The pivots' days differ, so keying the members by day keeps them all. */
  function Describe(sequence: nat, group: seq<Pivot>, cal: Calendar): Cluster
    requires group != []
  {
    var members := SortBy(ByDay, group);
    SameElements(members, group);
    var latest := members[|members| - 1];
    Cluster(sequence, group[0].price, members, MinPrice(members), MaxPrice(members), Median(members),
            Map((p: Pivot) => p.day, members), cal(latest.day), exists p :: p in members && p.lookbackHigh)
  }

  /** The zone is exactly as tall as the group's price range. */
  ghost predicate Zones(c: Cluster, group: seq<Pivot>) {
    && group != [] && multiset(c.members) == multiset(group) && |c.touches| == |group|
    && (forall p :: p in group ==> c.low <= p.price <= c.high)
    && (exists p :: p in group && p.price == c.low)
    && (exists p :: p in group && p.price == c.high)
    && (c.containsHigh <==> exists p :: p in group && p.lookbackHigh)
    && IsMedian(c.members, c.center)
  }

  lemma DescribeZone(sequence: nat, group: seq<Pivot>, cal: Calendar)
    requires group != []
    ensures Zones(Describe(sequence, group, cal), group)
  {
    var members := SortBy(ByDay, group);
    SameElements(members, group);
    assert |members| > 0;
    var m := MinPrice(members);
    assert exists p :: p in members && p.price == m;
    var low: Pivot :| low in members && low.price == MinPrice(members);
    var high: Pivot :| high in members && high.price == MaxPrice(members);
    assert low in group && high in group;
    MedianSplits(members);
  }

  function Describer(cal: Calendar): Description {
    (n: nat, group: seq<Pivot>) requires group != [] => Describe(n, group, cal)
  }

  /** The age is the number of bars after the latest touch. */
  ghost predicate AgedBy(c: Cluster, bars: seq<Bar>) {
    exists i: nat :: i < |bars| && c.age == |bars| - 1 - i && IsLatestTouch(c, bars[i].day)
  }

  ghost predicate IsLatestTouch(c: Cluster, day: int) {
    day in c.touches && forall t :: t in c.touches ==> t <= day
  }

  /** Every pivot is on the day of a bar. */
  ghost predicate OnBars(ps: seq<Pivot>, bars: seq<Bar>) {
    forall p :: p in ps ==> exists i: nat :: i < |bars| && bars[i].day == p.day
  }

  lemma LatestMember(members: seq<Pivot>)
    requires members != [] && Sorted(ByDay, members)
    ensures forall p :: p in members ==> p.day <= members[|members| - 1].day
  {
    forall p | p in members ensures p.day <= members[|members| - 1].day {
      var k :| 0 <= k < |members| && members[k] == p;
      assert k < |members| - 1 ==> ByDay(members[k], members[|members| - 1]);
    }
  }

  lemma TouchesAreMemberDays(members: seq<Pivot>, touches: seq<int>)
    requires members != [] && Sorted(ByDay, members) && touches == Map((p: Pivot) => p.day, members)
    ensures members[|members| - 1].day in touches
    ensures forall t :: t in touches ==> t <= members[|members| - 1].day
  {
    LatestMember(members);
    assert touches[|members| - 1] == members[|members| - 1].day;
    forall t | t in touches ensures t <= members[|members| - 1].day {
      var k :| 0 <= k < |touches| && touches[k] == t;
      assert members[k] in members;
    }
  }

  lemma DescribeAge(sequence: nat, group: seq<Pivot>, bars: seq<Bar>)
    requires group != [] && Chronological(bars) && OnBars(group, bars)
    ensures AgedBy(Describe(sequence, group, CalendarOf(bars)), bars)
  {
    var members := SortBy(ByDay, group);
    SameElements(members, group);
    SortSorted(ByDay, group);
    assert members[|members| - 1] in members;
    var i: nat :| i < |bars| && bars[i].day == members[|members| - 1].day;
    CalendarCounts(bars, i);
    TouchesAreMemberDays(members, Describe(sequence, group, CalendarOf(bars)).touches);
  }

  // ---------- the greedy runs ----------

  /** The end of the run of prices within the tolerance of the anchor. */
  ghost function RunEnd(ps: seq<Pivot>, anchor: real, tolerance: real, j: nat): (e: nat)
    requires j <= |ps|
    ensures j <= e <= |ps|
    ensures forall m :: j <= m < e ==> anchor - ps[m].price <= tolerance
    ensures e < |ps| ==> anchor - ps[e].price > tolerance
    decreases |ps| - j
  {
    if j < |ps| && anchor - ps[j].price <= tolerance then RunEnd(ps, anchor, tolerance, j + 1) else j
  }

  /** From index `i` on: as long a run as the tolerance allows, then the next. */
  ghost function Runs(ps: seq<Pivot>, tolerance: real, i: nat): seq<seq<Pivot>>
    requires i <= |ps|
    decreases |ps| - i
  {
    if i == |ps| then []
    else
      var e := RunEnd(ps, ps[i].price, tolerance, i + 1);
      [ps[i..e]] + Runs(ps, tolerance, e)
  }

  function Concat(groups: seq<seq<Pivot>>): seq<Pivot> {
    if groups == [] then [] else groups[0] + Concat(groups[1..])
  }

  ghost predicate NoneEmpty(groups: seq<seq<Pivot>>) {
    forall k :: 0 <= k < |groups| ==> groups[k] != []
  }

  /** Any way of describing a group, given its sequence number. */
  type Description = (nat, seq<Pivot>) --> Cluster

  ghost predicate Total(f: Description) {
    forall n: nat, g :: g != [] ==> f.requires(n, g)
  }

  /** A description that reports the zone of the group. */
  ghost predicate Faithful(f: Description) {
    Total(f) && forall n: nat, g :: g != [] ==> Zones(f(n, g), g)
  }

  ghost function Number(groups: seq<seq<Pivot>>, f: Description): seq<Cluster>
    requires NoneEmpty(groups) && Total(f)
  {
    if groups == [] then []
    else
      var last := |groups| - 1;
      Number(groups[..last], f) + [f(last + 1, groups[last])]
  }

  /** Runs partition the pivots into contiguous pieces of the price order. */
  lemma {:induction false} RunsPartition(ps: seq<Pivot>, tolerance: real, i: nat)
    requires i <= |ps|
    ensures Concat(Runs(ps, tolerance, i)) == ps[i..]
    ensures forall g :: 0 <= g < |Runs(ps, tolerance, i)| ==> PieceOf(Runs(ps, tolerance, i)[g], ps[i..])
    decreases |ps| - i
  {
    if i < |ps| {
      var e := RunEnd(ps, ps[i].price, tolerance, i + 1);
      RunsPartition(ps, tolerance, e);
      assert ps[i..] == ps[i..e] + ps[e..];
      forall g | 0 <= g < |Runs(ps, tolerance, e)| ensures PieceOf(Runs(ps, tolerance, e)[g], ps[i..]) {
        assert PieceOf(Runs(ps, tolerance, e)[g], ps[e..]);
      }
      assert PieceOf(ps[i..e], ps[i..]);
    }
  }

  ghost predicate PieceOf(run: seq<Pivot>, ps: seq<Pivot>) {
    run != [] && forall p :: p in run ==> p in ps
  }

  lemma LowerPricesFollow(ps: seq<Pivot>, e: nat, p: Pivot)
    requires Sorted(ByPrice, ps) && e < |ps| && p in ps[e..]
    ensures p.price <= ps[e].price
  {
    var k :| 0 <= k < |ps[e..]| && ps[e..][k] == p;
    assert ps[e + k] == p;
  }

  /** Each group starts at its highest price and is no wider than the tolerance. */
  ghost predicate Narrow(groups: seq<seq<Pivot>>, tolerance: real) {
    forall g, a :: 0 <= g < |groups| && a in groups[g] ==> 0.0 <= groups[g][0].price - a.price <= tolerance
  }

  /** Each group lies wholly above the later ones, and its first price more than the tolerance above them. */
  ghost predicate Descending(groups: seq<seq<Pivot>>, tolerance: real) {
    forall g, h, b :: 0 <= g < h < |groups| && b in groups[h] ==> Above(groups[g], b, tolerance)
  }

  ghost predicate Above(group: seq<Pivot>, b: Pivot, tolerance: real) {
    && group != [] && group[0].price - b.price > tolerance
    && forall a :: a in group ==> a.price > b.price
  }

  lemma {:induction false} RunsDescend(ps: seq<Pivot>, tolerance: real, i: nat)
    requires Sorted(ByPrice, ps) && tolerance >= 0.0 && i <= |ps|
    ensures Narrow(Runs(ps, tolerance, i), tolerance)
    ensures Descending(Runs(ps, tolerance, i), tolerance)
    decreases |ps| - i
  {
    if i < |ps| {
      var e := RunEnd(ps, ps[i].price, tolerance, i + 1);
      var first: seq<Pivot> := ps[i..e];
      var rest: seq<seq<Pivot>> := Runs(ps, tolerance, e);
      RunsDescend(ps, tolerance, e);
      RunsPartition(ps, tolerance, e);
      assert first[0] == ps[i];
      forall a | a in first ensures 0.0 <= first[0].price - a.price <= tolerance {
        var k :| 0 <= k < |first| && first[k] == a;
        assert a == ps[i + k];
      }
      forall h, b: Pivot | 0 <= h < |rest| && b in rest[h] ensures Above(first, b, tolerance) {
        assert b in ps[e..];
        LowerPricesFollow(ps, e, b);
      }
      FirstAboveRest(first, rest, tolerance);
    }
  }

  lemma FirstAboveRest(first: seq<Pivot>, rest: seq<seq<Pivot>>, tolerance: real)
    requires Narrow(rest, tolerance) && Descending(rest, tolerance)
    requires forall a :: a in first ==> 0.0 <= first[0].price - a.price <= tolerance
    requires forall h, b :: 0 <= h < |rest| && b in rest[h] ==> Above(first, b, tolerance)
    ensures Narrow([first] + rest, tolerance) && Descending([first] + rest, tolerance)
  {
    var groups := [first] + rest;
    assert forall g :: 0 < g < |groups| ==> groups[g] == rest[g - 1];
  }

  lemma AnchorsArePivots(ps: seq<Pivot>, tolerance: real)
    ensures forall g :: 0 <= g < |Runs(ps, tolerance, 0)| ==>
              Runs(ps, tolerance, 0)[g] != [] && Runs(ps, tolerance, 0)[g][0] in ps
  {
    var runs: seq<seq<Pivot>> := Runs(ps, tolerance, 0);
    RunsPartition(ps, tolerance, 0);
    forall g | 0 <= g < |runs| ensures runs[g] != [] && runs[g][0] in ps {
      assert runs[g][0] in runs[g];
      assert ps[0..] == ps;
    }
  }

  lemma AnchorsFarApart(ps: seq<Pivot>, tolerance: real, g: int, h: int)
    requires Sorted(ByPrice, ps) && tolerance >= 0.0 && 0 <= g < h < |Runs(ps, tolerance, 0)|
    ensures var runs := Runs(ps, tolerance, 0);
            runs[g] != [] && runs[h] != [] && runs[g][0].price - runs[h][0].price > tolerance
  {
    var runs: seq<seq<Pivot>> := Runs(ps, tolerance, 0);
    AnchorsArePivots(ps, tolerance);
    RunsDescend(ps, tolerance, 0);
    assert runs[h][0] in runs[h];
    assert Above(runs[g], runs[h][0], tolerance);
  }

  /** No grouping of the pivots into groups no wider than the tolerance uses fewer groups than the greedy one. */
  lemma NoFewerGroups(ps: seq<Pivot>, tolerance: real, group: Pivot -> nat, count: nat)
    requires Sorted(ByPrice, ps) && tolerance >= 0.0
    requires forall p :: p in ps ==> group(p) < count
    requires forall p, q :: p in ps && q in ps && group(p) == group(q) ==> p.price - q.price <= tolerance
    ensures |Runs(ps, tolerance, 0)| <= count
  {
    var runs: seq<seq<Pivot>> := Runs(ps, tolerance, 0);
    AnchorsArePivots(ps, tolerance);
    var used: seq<nat> := seq(|runs|, g requires 0 <= g < |runs| => group(runs[g][0]));
    forall g, h | 0 <= g < h < |used| ensures used[g] != used[h] {
      AnchorsFarApart(ps, tolerance, g, h);
    }
    Pigeonhole(used, count);
  }

  lemma Pigeonhole(used: seq<nat>, count: nat)
    requires Distinct(used) && forall c :: c in used ==> c < count
    ensures |used| <= count
  {
    DistinctCardinality(used);
    SubsetCardinality((set c | c in used), Below(count));
  }

  ghost function Below(n: nat): (s: set<nat>)
    ensures |s| == n && forall c: nat :: c in s <==> c < n
  {
    if n == 0 then {} else Below(n - 1) + {n - 1}
  }

  // ---------- the clusters ----------

  lemma ByPriceIsOrder(pivots: seq<Pivot>)
    requires DifferentDays(pivots)
    ensures TotalPreorder(ByPrice) && TieFree(ByPrice, pivots)
    ensures Sorted(ByPrice, SortBy(ByPrice, pivots))
    ensures multiset(SortBy(ByPrice, pivots)) == multiset(pivots)
    ensures forall p :: p in SortBy(ByPrice, pivots) <==> p in pivots
  {
    SortSorted(ByPrice, pivots);
    SameElements(SortBy(ByPrice, pivots), pivots);
  }

  lemma RunsNonempty(pivots: seq<Pivot>, tolerance: real)
    requires DifferentDays(pivots)
    ensures NoneEmpty(Runs(SortBy(ByPrice, pivots), tolerance, 0))
  {
    var ps := SortBy(ByPrice, pivots);
    ByPriceIsOrder(pivots);
    RunsPartition(ps, tolerance, 0);
    assert ps[0..] == ps;
  }

  ghost function ClustersOf(pivots: seq<Pivot>, describe: Description, tolerance: real): seq<Cluster>
    requires DifferentDays(pivots) && Total(describe)
  {
    RunsNonempty(pivots, tolerance);
    Number(Runs(SortBy(ByPrice, pivots), tolerance, 0), describe)
  }

  /** The clusters do not depend on the order in which the pivots are listed. */
  lemma ClustersForgetOrder(a: seq<Pivot>, b: seq<Pivot>, describe: Description, tolerance: real)
    requires DifferentDays(a) && multiset(a) == multiset(b) && Total(describe)
    ensures DifferentDays(b) && ClustersOf(a, describe, tolerance) == ClustersOf(b, describe, tolerance)
  {
    SameElements(a, b);
    ByPriceIsOrder(a);
    SortForgetsOrder(ByPrice, a, b);
  }

  /** The inner loop: the anchor with every later, untaken pivot within the tolerance. */
  method Gather(sorted: seq<Pivot>, index: nat, tolerance: real, taken: set<nat>)
    returns (members: seq<Pivot>, taken': set<nat>)
    requires Sorted(ByPrice, sorted) && index < |sorted|
    requires forall j: nat :: j in taken <==> j < index
    ensures var e := RunEnd(sorted, sorted[index].price, tolerance, index + 1);
            members == sorted[index..e] && forall j: nat :: j in taken' <==> j < e
  {
    ghost var e := RunEnd(sorted, sorted[index].price, tolerance, index + 1);
    members, taken' := [sorted[index]], taken + {index};
    ghost var m := index + 1;
    for candidateIndex := index + 1 to |sorted|
      invariant m == if candidateIndex <= e then candidateIndex else e
      invariant members == sorted[index..m]
      invariant forall j: nat :: j in taken' <==> j < m
    {
      if candidateIndex in taken' {
        continue;
      }
      var candidate := sorted[candidateIndex];
      assert candidateIndex > e ==> ByPrice(sorted[e], candidate);
      if sorted[index].price - candidate.price <= tolerance {
        members := members + [candidate];
        taken' := taken' + {candidateIndex};
        m := candidateIndex + 1;
      }
    }
  }

  lemma NumberNext(groups: seq<seq<Pivot>>, group: seq<Pivot>, f: Description)
    requires NoneEmpty(groups) && group != [] && Total(f)
    ensures NoneEmpty(groups + [group])
    ensures Number(groups + [group], f) == Number(groups, f) + [f(|groups| + 1, group)]
  {
    var all := groups + [group];
    assert all[..|all| - 1] == groups && all[|all| - 1] == group;
  }

  lemma NextRun(ps: seq<Pivot>, tolerance: real, groups: seq<seq<Pivot>>, i: nat)
    requires i < |ps| && groups + Runs(ps, tolerance, i) == Runs(ps, tolerance, 0)
    ensures var e := RunEnd(ps, ps[i].price, tolerance, i + 1);
            && groups + [ps[i..e]] + Runs(ps, tolerance, e) == Runs(ps, tolerance, 0)
            && ps[i..e] in Runs(ps, tolerance, 0)
  {
    var e := RunEnd(ps, ps[i].price, tolerance, i + 1);
    var run, rest := ps[i..e], Runs(ps, tolerance, e);
    assert Runs(ps, tolerance, i) == [run] + rest;
    assert groups + [run] + rest == groups + ([run] + rest);
    assert (groups + [run] + rest)[|groups|] == run;
  }

  lemma {:induction false} NumberAged(groups: seq<seq<Pivot>>, bars: seq<Bar>)
    requires Chronological(bars) && NoneEmpty(groups) && Total(Describer(CalendarOf(bars)))
    requires forall g :: 0 <= g < |groups| ==> OnBars(groups[g], bars)
    ensures forall c :: c in Number(groups, Describer(CalendarOf(bars))) ==> AgedBy(c, bars)
  {
    if groups != [] {
      var last := |groups| - 1;
      NumberAged(groups[..last], bars);
      DescribeAge(last + 1, groups[last], bars);
    }
  }

  /** Every cluster is as old as its latest touch. */
  lemma ClustersAged(pivots: seq<Pivot>, bars: seq<Bar>, tolerance: real)
    requires DifferentDays(pivots) && Chronological(bars) && OnBars(pivots, bars)
    ensures Total(Describer(CalendarOf(bars)))
    ensures forall c :: c in ClustersOf(pivots, Describer(CalendarOf(bars)), tolerance) ==> AgedBy(c, bars)
  {
    var ps := SortBy(ByPrice, pivots);
    var runs: seq<seq<Pivot>> := Runs(ps, tolerance, 0);
    ByPriceIsOrder(pivots);
    RunsPartition(ps, tolerance, 0);
    RunsNonempty(pivots, tolerance);
    forall g | 0 <= g < |runs| ensures OnBars(runs[g], bars) {
      forall p: Pivot | p in runs[g] ensures exists i: nat :: i < |bars| && bars[i].day == p.day {
        assert p in ps[0..] && p in pivots;
      }
    }
    NumberAged(runs, bars);
  }

  method FindClusters(pivots: seq<Pivot>, cal: Calendar, tolerance: real) returns (result: seq<Cluster>)
    requires DifferentDays(pivots)
    ensures result == ClustersOf(pivots, Describer(cal), tolerance)
  {
    var sorted := SortBy(ByPrice, pivots);
    ByPriceIsOrder(pivots);
    RunsNonempty(pivots, tolerance);
    result := CloseRuns(sorted, Describer(cal), tolerance);
  }

  /** The groups so far, followed by the runs from `done` on, are all the runs. */
  ghost predicate Completes(groups: seq<seq<Pivot>>, ps: seq<Pivot>, tolerance: real, done: nat) {
    done <= |ps| && groups + Runs(ps, tolerance, done) == Runs(ps, tolerance, 0)
  }

  ghost predicate Numbers(result: seq<Cluster>, groups: seq<seq<Pivot>>, f: Description) {
    NoneEmpty(groups) && |result| == |groups| && Total(f) && result == Number(groups, f)
  }

  lemma CompletesNext(groups: seq<seq<Pivot>>, ps: seq<Pivot>, tolerance: real, i: nat)
    requires i < |ps| && Completes(groups, ps, tolerance, i)
    ensures var e := RunEnd(ps, ps[i].price, tolerance, i + 1);
            Completes(groups + [ps[i..e]], ps, tolerance, e)
  {
    NextRun(ps, tolerance, groups, i);
  }

  lemma NumbersNext(result: seq<Cluster>, groups: seq<seq<Pivot>>, group: seq<Pivot>, f: Description)
    requires Numbers(result, groups, f) && group != []
    ensures Numbers(result + [f(|result| + 1, group)], groups + [group], f)
  {
    NumberNext(groups, group, f);
  }

  method CloseRuns(sorted: seq<Pivot>, describe: Description, tolerance: real) returns (result: seq<Cluster>)
    requires Sorted(ByPrice, sorted) && NoneEmpty(Runs(sorted, tolerance, 0)) && Total(describe)
    ensures result == Number(Runs(sorted, tolerance, 0), describe)
  {
    var taken: set<nat> := {};
    result := [];
    ghost var groups: seq<seq<Pivot>>, done: nat := [], 0;
    for index := 0 to |sorted|
      invariant index <= done <= |sorted|
      invariant forall j: nat :: j in taken <==> j < done
      invariant Completes(groups, sorted, tolerance, done) && Numbers(result, groups, describe)
    {
      if index in taken {
        continue;
      }
      var members;
      CompletesNext(groups, sorted, tolerance, index);
      members, taken := Gather(sorted, index, tolerance, taken);
      NumbersNext(result, groups, members, describe);
      result := result + [describe(|result| + 1, members)];
      groups := groups + [members];
      done := RunEnd(sorted, sorted[index].price, tolerance, index + 1);
    }
    assert groups + [] == groups;
  }

  // ---------- what the clusters satisfy ----------

  function MembersOf(cs: seq<Cluster>): multiset<Pivot> {
    if cs == [] then multiset{} else MembersOf(cs[..|cs| - 1]) + multiset(cs[|cs| - 1].members)
  }

  lemma {:induction false} ConcatSnoc(groups: seq<seq<Pivot>>, last: seq<Pivot>)
    ensures Concat(groups + [last]) == Concat(groups) + last
  {
    if groups == [] {
      assert groups + [last] == [last];
    } else {
      assert (groups + [last])[1..] == groups[1..] + [last];
      ConcatSnoc(groups[1..], last);
    }
  }

  /** Whatever describes the groups has their pivots as members. */
  lemma {:induction false} MembersAreConcat(cs: seq<Cluster>, groups: seq<seq<Pivot>>)
    requires AllZones(cs, groups)
    ensures MembersOf(cs) == multiset(Concat(groups))
  {
    if groups != [] {
      var last := |groups| - 1;
      assert groups == groups[..last] + [groups[last]];
      MembersAreConcat(cs[..last], groups[..last]);
      ConcatSnoc(groups[..last], groups[last]);
      assert Zones(cs[last], groups[last]);
    }
  }

  ghost predicate ZonesDescend(cs: seq<Cluster>) {
    forall g, h :: 0 <= g < h < |cs| ==> cs[g].low > cs[h].high
  }

  ghost predicate ZonesNarrow(cs: seq<Cluster>, tolerance: real) {
    forall g :: 0 <= g < |cs| ==> 0.0 <= cs[g].high - cs[g].low <= tolerance
  }

  /** The tops of two zones are more than the tolerance apart. */
  ghost predicate TopsApart(cs: seq<Cluster>, tolerance: real) {
    forall g, h :: 0 <= g < h < |cs| ==> cs[g].high - cs[h].high > tolerance
  }

  /** The runs behind the clusters. */
  lemma RunsBehind(pivots: seq<Pivot>, f: Description, tolerance: real) returns (runs: seq<seq<Pivot>>)
    requires DifferentDays(pivots) && tolerance >= 0.0 && Total(f)
    ensures NoneEmpty(runs) && ClustersOf(pivots, f, tolerance) == Number(runs, f)
    ensures Narrow(runs, tolerance) && Descending(runs, tolerance)
    ensures multiset(Concat(runs)) == multiset(pivots)
  {
    var ps := SortBy(ByPrice, pivots);
    ByPriceIsOrder(pivots);
    RunsNonempty(pivots, tolerance);
    RunsPartition(ps, tolerance, 0);
    RunsDescend(ps, tolerance, 0);
    assert ps[0..] == ps;
    runs := Runs(ps, tolerance, 0);
  }

  ghost predicate AllZones(cs: seq<Cluster>, runs: seq<seq<Pivot>>) {
    |cs| == |runs| && forall k :: 0 <= k < |cs| ==> Zones(cs[k], runs[k])
  }

  lemma {:induction false} DescribedZones(runs: seq<seq<Pivot>>, f: Description)
    requires NoneEmpty(runs) && Faithful(f)
    ensures AllZones(Number(runs, f), runs)
  {
    if runs != [] {
      DescribedZones(runs[..|runs| - 1], f);
    }
  }

  lemma DescriberIsFaithful(cal: Calendar)
    ensures Faithful(Describer(cal))
  {
    forall n: nat, g: seq<Pivot> | g != [] ensures Zones(Describer(cal)(n, g), g) {
      DescribeZone(n, g, cal);
    }
  }

  lemma ZonesOfRuns(cs: seq<Cluster>, runs: seq<seq<Pivot>>, tolerance: real)
    requires AllZones(cs, runs) && Narrow(runs, tolerance) && Descending(runs, tolerance)
    ensures ZonesNarrow(cs, tolerance) && ZonesDescend(cs) && TopsApart(cs, tolerance)
  {
    forall g | 0 <= g < |cs| ensures 0.0 <= cs[g].high - cs[g].low <= tolerance {
      ZoneHeight(cs[g], runs[g], tolerance);
    }
    forall g, h | 0 <= g < h < |cs| ensures cs[g].low > cs[h].high && cs[g].high - cs[h].high > tolerance {
      ZoneBelow(cs[g], runs[g], cs[h], runs[h], tolerance);
      ZoneHeight(cs[g], runs[g], tolerance);
      ZoneHeight(cs[h], runs[h], tolerance);
      assert Above(runs[g], runs[h][0], tolerance);
    }
  }

  /** Every pivot is in exactly one cluster; a zone is no taller than the tolerance and lies wholly below the one before,
      with their tops more than the tolerance apart. */
  lemma ClustersPartition(pivots: seq<Pivot>, f: Description, tolerance: real)
    requires DifferentDays(pivots) && tolerance >= 0.0 && Faithful(f)
    ensures MembersOf(ClustersOf(pivots, f, tolerance)) == multiset(pivots)
    ensures ZonesNarrow(ClustersOf(pivots, f, tolerance), tolerance)
    ensures ZonesDescend(ClustersOf(pivots, f, tolerance)) && TopsApart(ClustersOf(pivots, f, tolerance), tolerance)
  {
    var runs := RunsBehind(pivots, f, tolerance);
    DescribedZones(runs, f);
    MembersAreConcat(ClustersOf(pivots, f, tolerance), runs);
    ZonesOfRuns(ClustersOf(pivots, f, tolerance), runs, tolerance);
  }

  lemma ZoneHeight(c: Cluster, group: seq<Pivot>, tolerance: real)
    requires Zones(c, group) && forall a :: a in group ==> 0.0 <= group[0].price - a.price <= tolerance
    ensures 0.0 <= c.high - c.low <= tolerance && c.high == group[0].price
  {
    assert group[0] in group;
  }

  lemma ZoneBelow(upper: Cluster, above: seq<Pivot>, lower: Cluster, below: seq<Pivot>, tolerance: real)
    requires Zones(upper, above) && Zones(lower, below)
    requires forall b :: b in below ==> Above(above, b, tolerance)
    ensures upper.low > lower.high
  {
  }

  lemma PivotDaysDiffer(bars: seq<Bar>)
    requires Chronological(bars)
    ensures DifferentDays(PivotsOf(bars))
  {
    PivotDays(bars);
  }

  lemma {:induction false} InSomeGroup(groups: seq<seq<Pivot>>, p: Pivot) returns (g: nat)
    requires p in Concat(groups)
    ensures g < |groups| && p in groups[g]
  {
    if p in groups[0] {
      g := 0;
    } else {
      var rest := InSomeGroup(groups[1..], p);
      g := rest + 1;
    }
  }

  /** The first cluster, and no other, contains the lookback high, and its zone tops out there. */
  lemma LookbackHighLeads(bars: seq<Bar>, f: Description, tolerance: real)
    requires bars != [] && Chronological(bars) && tolerance >= 0.0 && Faithful(f)
    ensures DifferentDays(PivotsOf(bars))
    ensures var cs := ClustersOf(PivotsOf(bars), f, tolerance);
            && cs != [] && cs[0].containsHigh && cs[0].high == MaxHigh(bars)
            && forall h :: 0 < h < |cs| ==> !cs[h].containsHigh
  {
    PivotDaysDiffer(bars);
    var runs := RunsBehind(PivotsOf(bars), f, tolerance);
    SameElements(Concat(runs), PivotsOf(bars));
    var top := ExactlyOneLookbackHigh(bars);
    assert top in multiset(PivotsOf(bars));
    DescribedZones(runs, f);
    forall p | p in Concat(runs) ensures p.price <= top.price && (p.lookbackHigh ==> p == top) {
      PricesBelowHigh(bars, p);
    }
    HighestLeads(ClustersOf(PivotsOf(bars), f, tolerance), runs, tolerance, top);
  }

  lemma HighestLeads(cs: seq<Cluster>, runs: seq<seq<Pivot>>, tolerance: real, top: Pivot)
    requires AllZones(cs, runs) && Narrow(runs, tolerance) && Descending(runs, tolerance)
    requires top in Concat(runs) && top.lookbackHigh
    requires forall p :: p in Concat(runs) ==> p.price <= top.price && (p.lookbackHigh ==> p == top)
    ensures cs != [] && cs[0].containsHigh && cs[0].high == top.price
    ensures forall h :: 0 < h < |cs| ==> !cs[h].containsHigh
  {
    var g := InSomeGroup(runs, top);
    assert Zones(cs[0], runs[0]);
    GroupInConcat(runs, 0, runs[0][0]);
    assert g > 0 ==> Above(runs[0], top, tolerance);
    ZoneHeight(cs[0], runs[0], tolerance);
    forall h | 0 < h < |cs| ensures !cs[h].containsHigh {
      assert Zones(cs[h], runs[h]);
      forall p | p in runs[h] ensures !p.lookbackHigh {
        GroupInConcat(runs, h, p);
        assert Above(runs[0], p, tolerance);
      }
    }
  }

  lemma {:induction false} GroupInConcat(groups: seq<seq<Pivot>>, g: nat, p: Pivot)
    requires g < |groups| && p in groups[g]
    ensures p in Concat(groups)
  {
    if g > 0 {
      GroupInConcat(groups[1..], g - 1, p);
    }
  }

  lemma PricesBelowHigh(bars: seq<Bar>, p: Pivot)
    requires bars != [] && Chronological(bars) && p in PivotsOf(bars)
    ensures p.price <= MaxHigh(bars)
  {
    SelectMembers(|bars|, IsPivot(bars), Flagged(bars), p);
    var i: nat :| i < |bars| && IsPivot(bars)(i) && p == Flagged(bars)(i);
    assert bars[i] in bars;
  }
}
