/** The nearest overhead resistance (daybreak_features/resistance.py, daily_pivot_cluster_v1). */
module Resistance {
  import opened Orders
  import opened Pivots
  import opened Clusters
  import opened Results
  import opened Rounding

  const LOOKBACK := 180
  const RECENCY := 120

  datatype Settings = Settings(tolerance: real, minHistory: nat, sentinel: real)

  /** A tolerance is a width. */
  type Config = s: Settings | s.tolerance >= 0.0 && s.minHistory >= 14 witness Settings(0.5, 30, 99.0)

  function Tolerance(config: Config, atr: real): (width: real)
    ensures atr > 0.0 ==> width >= 0.0
  {
    config.tolerance * atr
  }

  datatype Error = InsufficientHistory | InvalidAtr | IncompleteHistory

  datatype Structure = BlueSky | Clean | Moderate | Capped

  datatype Source = PivotCluster(zone: Cluster, raw: real) | AllTimeHighFallback(raw: real) | NoneAboveAllTimeHigh

  datatype Audit = Audit(
    availableBars: nat, lookbackBars: nat, allTimeHigh: real, allTimeHighDay: int, confirmedPivots: nat,
    synthetic: bool, validClusters: nat, source: Source, distance: real, structure: Structure)

  // ---------- distances ----------

  /** The nearest millionth, ties to even. */
  function Millionths(x: real): int {
    NearestEven(x * 1000000.0)
  }

  function Rounded(x: real): real {
    Millionths(x) as real / 1000000.0
  }

  function StructureOf(distance: real): Structure {
    if distance > 2.0 then Clean
    else if distance >= 1.0 then Moderate
    else Capped
  }

  /** The thresholds on the exact distance: rounding moves the boundaries by half a millionth, and the ties of the
      two boundaries fall on opposite sides. */
  lemma StructureThresholds(raw: real)
    ensures StructureOf(Rounded(raw)) == Clean <==> raw > 2.0000005
    ensures StructureOf(Rounded(raw)) == Moderate <==> 0.9999995 <= raw <= 2.0000005
  {
    var scaled := raw * 1000000.0;
    var below := scaled.Floor;
    assert Rounded(raw) > 2.0 <==> Millionths(raw) > 2000000;
    assert Rounded(raw) >= 1.0 <==> Millionths(raw) >= 1000000;
    if below == 2000000 || below == 999999 {
      assert Millionths(raw) in {below, below + 1};
    }
  }

  // ---------- which zone ----------

  predicate ValidCluster(c: Cluster) {
    && (|c.touches| >= 2 || c.containsHigh)
    && !(c.age > RECENCY && |c.touches| < 3)
  }

  /** Three touches always do; otherwise the zone must be recent and touched twice or hold the lookback high. */
  lemma ValidExactly(c: Cluster)
    ensures ValidCluster(c) <==> |c.touches| >= 3 || (c.age <= 120 && (|c.touches| == 2 || c.containsHigh))
  {
  }

  predicate Eligible(c: Cluster, price: real) {
    price < c.low || c.low <= price <= c.high
  }

  function Distance(c: Cluster, price: real, atr: real): real
    requires atr > 0.0
  {
    if price < c.low then (c.low - price) / atr else 0.0
  }

  /** Exactly the zones that reach up to the price are eligible, at their distance in average ranges above it. */
  lemma DistanceExactly(c: Cluster, price: real, atr: real)
    requires atr > 0.0 && c.low <= c.high
    ensures Eligible(c, price) <==> price <= c.high
    ensures Eligible(c, price) ==>
              && Distance(c, price, atr) >= 0.0 && (Distance(c, price, atr) == 0.0 <==> c.low <= price)
              && (price < c.low ==> price + Distance(c, price, atr) * atr == c.low)
  {
    if price < c.low {
      Quotients(c.low - price, 0.0, atr);
    }
  }

  datatype Candidate = Candidate(distance: real, cluster: Cluster)

  function LastTouch(c: Cluster): int {
    if c.touches == [] then 0 else c.touches[|c.touches| - 1]
  }

  /** The sort key: distance, then latest touch, most touches, lowest zone, sequence. */
  predicate NearestFirst(a: Candidate, b: Candidate) {
    if a.distance != b.distance then a.distance < b.distance
    else if LastTouch(a.cluster) != LastTouch(b.cluster) then LastTouch(a.cluster) > LastTouch(b.cluster)
    else if |a.cluster.touches| != |b.cluster.touches| then |a.cluster.touches| > |b.cluster.touches|
    else if a.cluster.low != b.cluster.low then a.cluster.low < b.cluster.low
    else a.cluster.sequence <= b.cluster.sequence
  }

  predicate Below(a: Cluster, b: Cluster) {
    a.low > b.high
  }

  /** Valid zones: each wholly below the one before. */
  ghost predicate Zoned(valid: seq<Cluster>) {
    Sorted(Below, valid) && forall c :: c in valid ==> c.low <= c.high
  }

  /** The lowest zone whose top is at or above the price. */
  ghost predicate IsNearest(valid: seq<Cluster>, price: real, c: Cluster) {
    && c in valid && price <= c.high
    && forall d :: d in valid && price <= d.high ==> c.low <= d.low
  }

  /** All eligible distances differ: they strictly decrease down the zones, so no tie-break ever decides. */
  lemma DistancesDiffer(valid: seq<Cluster>, price: real, atr: real, i: nat, j: nat)
    requires Zoned(valid) && atr > 0.0 && i < j < |valid|
    requires Eligible(valid[i], price) && Eligible(valid[j], price)
    ensures Distance(valid[i], price, atr) > Distance(valid[j], price, atr)
  {
    assert Below(valid[i], valid[j]) && valid[j] in valid;
    Quotients(valid[i].low - price, valid[j].low - price, atr);
  }

  lemma Scaled(x: real, y: real, atr: real)
    requires atr > 0.0
    ensures x <= y ==> x * atr <= y * atr
  {
  }

  lemma Quotients(a: real, b: real, atr: real)
    requires atr > 0.0 && a > b
    ensures a / atr > b / atr
    ensures a > 0.0 ==> a / atr > 0.0
  {
    assert (a / atr) * atr == a && (b / atr) * atr == b;
    Scaled(a / atr, b / atr, atr);
  }

  /** There is at most one nearest zone. */
  lemma NearestIsUnique(valid: seq<Cluster>, price: real, c: Cluster, d: Cluster)
    requires Zoned(valid) && IsNearest(valid, price, c) && IsNearest(valid, price, d)
    ensures c == d
  {
    var i :| 0 <= i < |valid| && valid[i] == c;
    var j :| 0 <= j < |valid| && valid[j] == d;
    assert i < j ==> Below(c, d);
    assert j < i ==> Below(d, c);
  }

  lemma NearestFirstIsOrder()
    ensures TotalPreorder(NearestFirst)
  {
  }

  /** The first candidate in the sort order is the lowest zone. */
  lemma FirstIsNearest(valid: seq<Cluster>, price: real, atr: real, candidates: seq<Candidate>)
    requires Zoned(valid) && atr > 0.0 && candidates != []
    requires forall k :: k in candidates <==>
               k.cluster in valid && Eligible(k.cluster, price) && k.distance == Distance(k.cluster, price, atr)
    ensures var first := SortBy(NearestFirst, candidates)[0];
            IsNearest(valid, price, first.cluster) && first.distance == Distance(first.cluster, price, atr)
  {
    var sorted := SortBy(NearestFirst, candidates);
    NearestFirstIsOrder();
    SortSorted(NearestFirst, candidates);
    SameElements(sorted, candidates);
    var c := sorted[0].cluster;
    assert sorted[0] in candidates;
    forall d | d in valid && price <= d.high ensures c.low <= d.low {
      var other := Candidate(Distance(d, price, atr), d);
      assert other in candidates;
      HeadIsLeast(NearestFirst, sorted, other);
      NearerIsLower(valid, price, atr, c, d);
    }
  }

  lemma NearerIsLower(valid: seq<Cluster>, price: real, atr: real, c: Cluster, d: Cluster)
    requires Zoned(valid) && atr > 0.0 && c in valid && d in valid
    requires Eligible(c, price) && Eligible(d, price) && Distance(c, price, atr) <= Distance(d, price, atr)
    ensures c.low <= d.low
  {
    var i :| 0 <= i < |valid| && valid[i] == c;
    var j :| 0 <= j < |valid| && valid[j] == d;
    if i < j {
      DistancesDiffer(valid, price, atr, i, j);
    } else if j < i {
      assert Below(d, c);
    }
  }

  // ---------- the specification ----------

  /** The bars of the lookback. */
  function Recent(bars: seq<Bar>): seq<Bar> {
    if |bars| <= LOOKBACK then bars else bars[|bars| - LOOKBACK..]
  }

  lemma RecentChronological(bars: seq<Bar>)
    requires Chronological(bars)
    ensures Chronological(Recent(bars))
    ensures bars != [] ==> Recent(bars) != []
    ensures |bars| <= LOOKBACK ==> Recent(bars) == bars
  {
  }

  /** The lookback is the last 180 bars, or all of them. */
  lemma RecentExactly(bars: seq<Bar>)
    ensures |Recent(bars)| == if |bars| < 180 then |bars| else 180
    ensures Recent(bars) == bars[|bars| - |Recent(bars)|..]
  {
  }

  /** The clusters of the lookback's pivots. */
  ghost function ZonesOf(recent: seq<Bar>, atr: real, config: Config): seq<Cluster>
    requires Chronological(recent)
  {
    PivotDaysDiffer(recent);
    ClustersOf(PivotsOf(recent), Describer(CalendarOf(recent)), Tolerance(config, atr))
  }

  ghost function ValidZones(recent: seq<Bar>, atr: real, config: Config): seq<Cluster>
    requires Chronological(recent)
  {
    Filter(ValidCluster, ZonesOf(recent, atr, config))
  }

  /** The day of the latest bar at the highest high. */
  ghost predicate HighDay(bars: seq<Bar>, day: int)
    requires bars != []
  {
    exists k :: Peak(bars, k) && bars[k].day == day
  }

  ghost predicate Overhead(valid: seq<Cluster>, price: real) {
    exists c :: c in valid && price <= c.high
  }

  /** What the source reports for the zones: the nearest one, else the all-time high above the price, else nothing. */
  ghost predicate SourceMeets(source: Source, valid: seq<Cluster>, allTimeHigh: real, price: real, atr: real)
    requires atr > 0.0
  {
    if Overhead(valid, price) then
      && source.PivotCluster? && IsNearest(valid, price, source.zone)
      && source.raw == Distance(source.zone, price, atr)
    else if price < allTimeHigh then
      source == AllTimeHighFallback((allTimeHigh - price) / atr)
    else source == NoneAboveAllTimeHigh
  }

  /** The structure and the reported distance follow from the source. */
  ghost predicate DistanceMeets(audit: Audit, config: Config) {
    match audit.source
    case PivotCluster(_, raw) => audit.distance == Rounded(raw) && audit.structure == StructureOf(audit.distance)
    case AllTimeHighFallback(raw) => audit.distance == Rounded(raw) && audit.structure == StructureOf(audit.distance)
    case NoneAboveAllTimeHigh => audit.distance == config.sentinel && audit.structure == BlueSky
  }

  ghost predicate CountsMeet(audit: Audit, bars: seq<Bar>, recent: seq<Bar>, atr: real, config: Config)
    requires bars != [] && Chronological(recent)
  {
    && audit.availableBars == |bars| && audit.lookbackBars == |recent|
    && audit.allTimeHigh == MaxHigh(bars) && HighDay(bars, audit.allTimeHighDay)
    && audit.confirmedPivots == |Filter((p: Pivot) => p.confirmed, PivotsOf(recent))|
    && (audit.synthetic <==> forall k :: Peak(recent, k) ==> !Confirmed(recent, k))
    && audit.validClusters == |ValidZones(recent, atr, config)|
  }

  ghost predicate Meets(r: Result<Audit, Error>, bars: seq<Bar>, price: real, atr: real, complete: bool, config: Config)
    requires Chronological(bars)
  {
    if |bars| < config.minHistory then r == Err(InsufficientHistory)
    else if atr <= 0.0 then r == Err(InvalidAtr)
    else
      RecentChronological(bars);
      Selects(r, bars, Recent(bars), ValidZones(Recent(bars), atr, config), price, atr, complete, config)
  }

  /** The answer for a history that is long enough, given its valid zones. */
  ghost predicate Selects(r: Result<Audit, Error>, bars: seq<Bar>, recent: seq<Bar>, valid: seq<Cluster>, price: real, atr: real,
                          complete: bool, config: Config)
    requires bars != [] && Chronological(recent) && atr > 0.0
  {
    if !complete && SourceMeets(NoneAboveAllTimeHigh, valid, MaxHigh(bars), price, atr) then r == Err(IncompleteHistory)
    else
      && r.Ok? && SourceMeets(r.value.source, valid, MaxHigh(bars), price, atr)
      && DistanceMeets(r.value, config) && CountsMeet(r.value, bars, recent, atr, config)
  }

  // ---------- the selection, step by step ----------

  /** Zones one below the other. */
  ghost predicate Stacked(zones: seq<Cluster>) {
    ZonesDescend(zones) && forall g :: 0 <= g < |zones| ==> zones[g].low <= zones[g].high
  }

  lemma StackedFilter(zones: seq<Cluster>)
    requires Stacked(zones)
    ensures Zoned(Filter(ValidCluster, zones))
  {
    FilterSorted(Below, ValidCluster, zones);
  }

  lemma NarrowStacks(zones: seq<Cluster>, tolerance: real)
    requires ZonesNarrow(zones, tolerance) && ZonesDescend(zones)
    ensures Stacked(zones)
  {
  }

  lemma ClustersStack(pivots: seq<Pivot>, f: Description, tolerance: real)
    requires DifferentDays(pivots) && tolerance >= 0.0 && Faithful(f)
    ensures Stacked(ClustersOf(pivots, f, tolerance))
  {
    ClustersPartition(pivots, f, tolerance);
    NarrowStacks(ClustersOf(pivots, f, tolerance), tolerance);
  }

  /** The scan over the valid zones and the sorted pick. */
  method SelectNearest(valid: seq<Cluster>, price: real, atr: real) returns (found: bool, nearest: Candidate)
    requires Zoned(valid) && atr > 0.0
    ensures found <==> Overhead(valid, price)
    ensures found ==> IsNearest(valid, price, nearest.cluster) && nearest.distance == Distance(nearest.cluster, price, atr)
  {
    var eligible: seq<Candidate> := [];
    for k := 0 to |valid|
      invariant forall e :: e in eligible <==>
                  e.cluster in valid[..k] && Eligible(e.cluster, price) && e.distance == Distance(e.cluster, price, atr)
    {
      var cluster := valid[k];
      assert valid[..k + 1] == valid[..k] + [cluster];
      if price < cluster.low {
        eligible := eligible + [Candidate((cluster.low - price) / atr, cluster)];
      } else if cluster.low <= price <= cluster.high {
        eligible := eligible + [Candidate(0.0, cluster)];
      }
    }
    assert valid[..|valid|] == valid;
    found := eligible != [];
    if found {
      assert eligible[0] in eligible;
      FirstIsNearest(valid, price, atr, eligible);
      nearest := SortBy(NearestFirst, eligible)[0];
    } else {
      nearest := Candidate(0.0, Cluster(0, 0.0, [], 0.0, 0.0, 0.0, [], 0, false));
      forall c | c in valid ensures price > c.high {
        assert Candidate(Distance(c, price, atr), c) !in eligible;
      }
    }
  }

  method ChooseSource(valid: seq<Cluster>, allTimeHigh: real, price: real, atr: real) returns (source: Source)
    requires Zoned(valid) && atr > 0.0
    ensures SourceMeets(source, valid, allTimeHigh, price, atr)
  {
    var found, nearest := SelectNearest(valid, price, atr);
    if found {
      source := PivotCluster(nearest.cluster, nearest.distance);
    } else if price < allTimeHigh {
      source := AllTimeHighFallback((allTimeHigh - price) / atr);
    } else {
      source := NoneAboveAllTimeHigh;
    }
  }

  method DailyPivotCluster(bars: seq<Bar>, price: real, atr: real, complete: bool, config: Config) returns (r: Result<Audit, Error>)
    requires Chronological(bars)
    ensures Meets(r, bars, price, atr, complete, config)
  {
    if |bars| < config.minHistory {
      return Err(InsufficientHistory);
    }
    if atr <= 0.0 {
      return Err(InvalidAtr);
    }
    RecentChronological(bars);
    r := NearestResistance(bars, Recent(bars), price, atr, complete, config);
  }

  method NearestResistance(bars: seq<Bar>, recent: seq<Bar>, price: real, atr: real, complete: bool, config: Config)
    returns (r: Result<Audit, Error>)
    requires Chronological(bars) && bars != [] && Chronological(recent) && recent != [] && atr > 0.0
    ensures Selects(r, bars, recent, ValidZones(recent, atr, config), price, atr, complete, config)
  {
    var allTimeHigh := MaxHigh(bars);
    var top := Latest(Filter((b: Bar) => b.high == allTimeHigh, bars));
    ghost var peak := PeakOfHigh(bars, top);
    var valid, confirmed, synthetic := FindZones(recent, atr, config);
    var source := ChooseSource(valid, allTimeHigh, price, atr);
    if source.NoneAboveAllTimeHigh? && !complete {
      return Err(IncompleteHistory);
    }
    var audit := Report(bars, recent, atr, config, allTimeHigh, top, confirmed, synthetic, valid, source);
    r := Ok(audit);
  }

  method Report(bars: seq<Bar>, recent: seq<Bar>, ghost atr: real, config: Config, allTimeHigh: real, top: Bar,
                confirmed: nat, synthetic: bool, valid: seq<Cluster>, source: Source) returns (audit: Audit)
    requires bars != [] && Chronological(recent) && allTimeHigh == MaxHigh(bars) && HighDay(bars, top.day)
    requires confirmed == |Filter((p: Pivot) => p.confirmed, PivotsOf(recent))|
    requires synthetic <==> forall k :: Peak(recent, k) ==> !Confirmed(recent, k)
    requires valid == ValidZones(recent, atr, config)
    ensures audit.source == source && DistanceMeets(audit, config) && CountsMeet(audit, bars, recent, atr, config)
  {
    var distance := if source.NoneAboveAllTimeHigh? then config.sentinel else Rounded(source.raw);
    var structure := if source.NoneAboveAllTimeHigh? then BlueSky else StructureOf(distance);
    audit := Audit(|bars|, |recent|, allTimeHigh, top.day, confirmed, synthetic, |valid|, source, distance, structure);
  }

  /** Pivots, clusters and the valid zones of the lookback. */
  method FindZones(recent: seq<Bar>, atr: real, config: Config) returns (valid: seq<Cluster>, confirmed: nat, synthetic: bool)
    requires Chronological(recent) && recent != [] && atr > 0.0
    ensures valid == ValidZones(recent, atr, config) && Zoned(valid)
    ensures confirmed == |Filter((p: Pivot) => p.confirmed, PivotsOf(recent))|
    ensures synthetic <==> forall k :: Peak(recent, k) ==> !Confirmed(recent, k)
  {
    var pivots;
    pivots, synthetic := PivotCandidates(recent);
    PivotDaysDiffer(recent);
    FilterCount((p: Pivot) => p.confirmed, pivots, PivotsOf(recent));
    confirmed := |Filter((p: Pivot) => p.confirmed, pivots)|;
    var clusters := ClustersInAnyOrder(PivotsOf(recent), pivots, CalendarOf(recent), Tolerance(config, atr));
    StackedFilter(clusters);
    valid := Filter(ValidCluster, clusters);
  }

  method ClustersInAnyOrder(ghost listed: seq<Pivot>, pivots: seq<Pivot>, cal: Calendar, tolerance: real)
    returns (clusters: seq<Cluster>)
    requires multiset(listed) == multiset(pivots) && DifferentDays(listed) && tolerance >= 0.0
    ensures Total(Describer(cal)) && clusters == ClustersOf(listed, Describer(cal), tolerance) && Stacked(clusters)
  {
    DescriberIsFaithful(cal);
    ClustersForgetOrder(listed, pivots, Describer(cal), tolerance);
    clusters := FindClusters(pivots, cal, tolerance);
    ClustersStack(listed, Describer(cal), tolerance);
  }

  // ---------- when the all-time high can be the answer ----------

  ghost predicate StaleFirst(zones: seq<Cluster>) {
    zones != [] && zones[0].age > RECENCY && |zones[0].touches| < 3
  }

  /** Stacked zones of which the first reaches up to the lookback high. */
  ghost predicate Topped(zones: seq<Cluster>, high: real) {
    && Stacked(zones) && zones != [] && zones[0].high == high && zones[0].containsHigh
    && forall h :: 0 < h < |zones| ==> !zones[h].containsHigh
  }

  /** The zones are no taller than the configured share of the average range, and their tops further apart. */
  lemma ZonesWithinTolerance(recent: seq<Bar>, atr: real, config: Config, g: nat)
    requires Chronological(recent) && atr > 0.0 && g < |ZonesOf(recent, atr, config)|
    ensures var zones, width := ZonesOf(recent, atr, config), atr * config.tolerance;
            && zones[g].high - zones[g].low <= width
            && forall h :: g < h < |zones| ==> zones[g].high - zones[h].high > width
  {
    hide ClustersOf, PivotsOf, CalendarOf, Describer, MembersOf, ZonesDescend, MaxHigh, DifferentDays, Chronological;
    PivotDaysDiffer(recent);
    DescriberIsFaithful(CalendarOf(recent));
    ClustersPartition(PivotsOf(recent), Describer(CalendarOf(recent)), Tolerance(config, atr));
  }

  lemma ZonesAreTopped(recent: seq<Bar>, atr: real, config: Config)
    requires Chronological(recent) && recent != [] && atr > 0.0
    ensures Topped(ZonesOf(recent, atr, config), MaxHigh(recent))
  {
    DescriberIsFaithful(CalendarOf(recent));
    ClustersAreTopped(recent, Describer(CalendarOf(recent)), Tolerance(config, atr));
  }

  /** The age the zones are judged by is the number of lookback bars after their latest touch. */
  lemma ZonesAreAged(recent: seq<Bar>, atr: real, config: Config)
    requires Chronological(recent)
    ensures forall c :: c in ZonesOf(recent, atr, config) ==> AgedBy(c, recent)
  {
    PivotDaysDiffer(recent);
    forall p | p in PivotsOf(recent) ensures exists i: nat :: i < |recent| && recent[i].day == p.day {
      SelectMembers(|recent|, IsPivot(recent), Flagged(recent), p);
      var i: nat :| i < |recent| && IsPivot(recent)(i) && p == Flagged(recent)(i);
      assert recent[i].day == p.day;
    }
    ClustersAged(PivotsOf(recent), recent, Tolerance(config, atr));
  }

  lemma ClustersAreTopped(bars: seq<Bar>, f: Description, tolerance: real)
    requires Chronological(bars) && bars != [] && tolerance >= 0.0 && Faithful(f)
    ensures DifferentDays(PivotsOf(bars)) && Topped(ClustersOf(PivotsOf(bars), f, tolerance), MaxHigh(bars))
  {
    LookbackHighLeads(bars, f, tolerance);
    ClustersStack(PivotsOf(bars), f, tolerance);
  }

  /** No valid zone reaches up to the price, but the all-time high does. */
  ghost predicate FallsBack(zones: seq<Cluster>, allTimeHigh: real, price: real) {
    price < allTimeHigh && !Overhead(Filter(ValidCluster, zones), price)
  }

  lemma FirstZoneReaches(zones: seq<Cluster>, high: real, price: real)
    requires Topped(zones, high) && !StaleFirst(zones)
    ensures Overhead(Filter(ValidCluster, zones), price) <==> price <= high
  {
    assert zones[0] in zones && ValidCluster(zones[0]);
    if Overhead(Filter(ValidCluster, zones), price) {
      var c :| c in Filter(ValidCluster, zones) && price <= c.high;
      var k :| 0 <= k < |zones| && zones[k] == c;
    }
  }

  /** With the first cluster not stale, some zone is eligible exactly up to the lookback high. So with the whole
      history in the lookback the fallback is unreachable, and no resistance means a price above the all-time high. */
  lemma NoResistanceMeansNewHigh(recent: seq<Bar>, price: real, atr: real, config: Config)
    requires Chronological(recent) && recent != [] && atr > 0.0
    requires !StaleFirst(ZonesOf(recent, atr, config))
    ensures Overhead(ValidZones(recent, atr, config), price) <==> price <= MaxHigh(recent)
  {
    ZonesAreTopped(recent, atr, config);
    FirstZoneReaches(ZonesOf(recent, atr, config), MaxHigh(recent), price);
  }

  /** A positive price between a stale first zone and the next. */
  function Gap(zones: seq<Cluster>): real
    requires zones != []
  {
    if |zones| == 1 || zones[1].high <= 0.0 then zones[0].high / 2.0 else (zones[1].high + zones[0].high) / 2.0
  }

  lemma StaleFirstLeavesGap(zones: seq<Cluster>, high: real)
    requires Topped(zones, high) && StaleFirst(zones) && high > 0.0
    ensures 0.0 < Gap(zones) < high && !Overhead(Filter(ValidCluster, zones), Gap(zones))
  {
    forall c | c in Filter(ValidCluster, zones) ensures Gap(zones) > c.high {
      var k :| 0 <= k < |zones| && zones[k] == c;
      assert k > 0 && zones[k].high <= zones[1].high;
    }
  }

  /** Some positive price meets the all-time-high fallback exactly when the first cluster is stale or the all-time high lies
      before the lookback. */
  lemma FallbackReachableExactly(bars: seq<Bar>, recent: seq<Bar>, atr: real, config: Config)
    requires Chronological(bars) && bars != [] && recent == Recent(bars) && atr > 0.0
    requires forall b :: b in bars ==> b.high > 0.0
    ensures Chronological(recent) && recent != []
    ensures (exists price :: price > 0.0 && FallsBack(ZonesOf(recent, atr, config), MaxHigh(bars), price))
            <==> StaleFirst(ZonesOf(recent, atr, config)) || MaxHigh(recent) < MaxHigh(bars)
  {
    RecentChronological(bars);
    PartIsNoHigher(recent, bars);
    ZonesAreTopped(recent, atr, config);
    GapExactly(ZonesOf(recent, atr, config), MaxHigh(recent), MaxHigh(bars));
  }

  lemma PartIsNoHigher(part: seq<Bar>, bars: seq<Bar>)
    requires part != [] && bars != [] && forall b :: b in part ==> b in bars
    ensures MaxHigh(part) <= MaxHigh(bars) && exists b :: b in bars && b.high == MaxHigh(part)
  {
    var high := MaxHigh(part);
    var b :| b in part && b.high == high;
  }

  lemma GapExactly(zones: seq<Cluster>, high: real, allTimeHigh: real)
    requires Topped(zones, high) && 0.0 < high <= allTimeHigh
    ensures (exists price :: price > 0.0 && FallsBack(zones, allTimeHigh, price)) <==> StaleFirst(zones) || high < allTimeHigh
  {
    if StaleFirst(zones) {
      StaleFirstLeavesGap(zones, high);
      assert FallsBack(zones, allTimeHigh, Gap(zones));
    } else {
      forall price ensures FallsBack(zones, allTimeHigh, price) <==> high < price < allTimeHigh {
        FirstZoneReaches(zones, high, price);
      }
      var middle := (high + allTimeHigh) / 2.0;
      assert FallsBack(zones, allTimeHigh, middle) <==> high < allTimeHigh;
    }
  }
}
