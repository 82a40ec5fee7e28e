/** What the checks 1, 3, 4, 5, 17 and 67 say together: up to the order of the exclusions, exactly one
    output passes them for given magnitude buckets and echoed catalyst ages, and it is the one the
    replay functions build. */
module Determinacy {
  import opened Orders
  import opened Ranking
  import opened Replay
  import opened Results
  import opened Validator

  /** The evaluator's only free choices: a magnitude bucket and an echoed age for every ticker. */
  datatype Choice = Choice(bucket: string -> Bucket, age: string -> real)

  function ScoreFor(p: Payload, c: Choice, e: TickerInput): Score {
    ExpectedScore(p, e, c.bucket(e.ticker))
  }

  predicate Passing(p: Payload, c: Choice, e: TickerInput) {
    PassesGates(e, ScoreFor(p, c, e).raw)
  }

  function RecordFor(p: Payload, c: Choice, e: TickerInput): PassingRecord {
    var score := ScoreFor(p, c, e);
    PassingRecord(e.ticker, Conviction(score), c.age(e.ticker), score.raw, score.volumePoints, score.technicalPoints)
  }

  function ApprovedFor(p: Payload, c: Choice, e: TickerInput): Approved {
    var score := ScoreFor(p, c, e);
    Approved(e.ticker, Conviction(score), score, c.age(e.ticker), RiskFlags(e), EchoOf(e))
  }

  function QualifiedFor(p: Payload, c: Choice, e: TickerInput, rank: int): Qualified {
    var score := ScoreFor(p, c, e);
    Qualified(e.ticker, rank, Conviction(score), score, c.age(e.ticker), RiskFlags(e))
  }

  function ExcludedFor(p: Payload, c: Choice, e: TickerInput): Excluded
    requires !Passing(p, c, e)
  {
    var score := ScoreFor(p, c, e);
    var gates := FailedGates(e, score.raw);
    Excluded(e.ticker, gates[0], gates[1..], score, RiskFlags(e))
  }

  function PassingEntries(p: Payload, c: Choice): (r: seq<TickerInput>)
    ensures forall e :: e in r <==> e in p.tickers && Passing(p, c, e)
  {
    Filter((e: TickerInput) => Passing(p, c, e), p.tickers)
  }

  function FailingEntries(p: Payload, c: Choice): (r: seq<TickerInput>)
    ensures forall e :: e in r <==> e in p.tickers && !Passing(p, c, e)
  {
    Filter((e: TickerInput) => !Passing(p, c, e), p.tickers)
  }

  function Records(p: Payload, c: Choice): seq<PassingRecord> {
    Map((e: TickerInput) => RecordFor(p, c, e), PassingEntries(p, c))
  }

  function RankedRecords(p: Payload, c: Choice): seq<PassingRecord> {
    Ranked(Records(p, c))
  }

  function Top(n: nat): nat {
    if n < 3 then n else 3
  }

  /** `r` is the replayed record of the input entry with its ticker, and that entry passes. */
  predicate IsReplayed(p: Payload, c: Choice, r: PassingRecord) {
    var m := InputByTicker(p.tickers);
    && r.ticker in m
    && Passing(p, c, m[r.ticker])
    && r == RecordFor(p, c, m[r.ticker])
  }

  /** The passing tickers in rank order, as input entries. */
  function RankedEntries(p: Payload, c: Choice): (r: seq<TickerInput>)
    requires ValidInput(p)
    ensures |r| == |RankedRecords(p, c)|
    ensures forall i :: 0 <= i < |r| ==>
              && r[i] in p.tickers && Passing(p, c, r[i])
              && RankedRecords(p, c)[i] == RecordFor(p, c, r[i])
  {
    var m := InputByTicker(p.tickers);
    var ranked := RankedRecords(p, c);
    RankedAreEntries(p, c);
    seq(|ranked|, i requires 0 <= i < |ranked| => m[ranked[i].ticker])
  }

  /** The output that lists `re` as its passing tickers. */
  function Assemble(p: Payload, c: Choice, re: seq<TickerInput>, excluded: seq<Excluded>): Output {
    var k := Top(|re|);
    Output(
      if k > 0 then ApprovedRun else NoSetups,
      seq(k, i requires 0 <= i < k => ApprovedFor(p, c, re[i])),
      seq(|re| - k, i requires 0 <= i < |re| - k => QualifiedFor(p, c, re[k + i], k + i + 1)),
      excluded,
      [])
  }

  /** The output the replay functions build. */
  function Build(p: Payload, c: Choice): Output
    requires ValidInput(p)
  {
    Assemble(p, c, RankedEntries(p, c), BuildExcluded(p, c))
  }

  function BuildExcluded(p: Payload, c: Choice): (r: seq<Excluded>)
    ensures |r| == |FailingEntries(p, c)|
  {
    var failing := FailingEntries(p, c);
    assert forall i :: 0 <= i < |failing| ==> failing[i] in failing;
    seq(|failing|, i requires 0 <= i < |failing| => ExcludedFor(p, c, failing[i]))
  }

  // ---------- entries and records ----------

  lemma EntriesDistinct(p: Payload)
    requires ValidInput(p)
    ensures forall i, j :: 0 <= i < j < |p.tickers| ==> p.tickers[i].ticker != p.tickers[j].ticker
    ensures forall x, y :: x in p.tickers && y in p.tickers && x.ticker == y.ticker ==> x == y
  {
    forall i, j | 0 <= i < j < |p.tickers| ensures p.tickers[i].ticker != p.tickers[j].ticker {
      assert InputTickers(p)[i] != InputTickers(p)[j];
    }
  }

  lemma {:induction false} FilterKeepsTickersDistinct(f: TickerInput -> bool, s: seq<TickerInput>)
    requires forall i, j :: 0 <= i < j < |s| ==> s[i].ticker != s[j].ticker
    ensures forall i, j :: 0 <= i < j < |Filter(f, s)| ==> Filter(f, s)[i].ticker != Filter(f, s)[j].ticker
  {
    if s != [] {
      FilterKeepsTickersDistinct(f, s[1..]);
      var tail := Filter(f, s[1..]);
      forall k | 0 <= k < |tail| ensures s[0].ticker != tail[k].ticker {
        assert tail[k] in s[1..];
      }
    }
  }

  lemma RecordsRankable(p: Payload, c: Choice)
    requires ValidInput(p)
    ensures Rankable(Records(p, c))
    ensures forall r :: r in Records(p, c) <==> exists e :: e in p.tickers && Passing(p, c, e) && r == RecordFor(p, c, e)
  {
    EntriesDistinct(p);
    FilterKeepsTickersDistinct((e: TickerInput) => Passing(p, c, e), p.tickers);
    var entries := PassingEntries(p, c);
    forall r | r in Records(p, c)
      ensures r.score <= MAX_SCORE
      ensures exists e :: e in p.tickers && Passing(p, c, e) && r == RecordFor(p, c, e)
    {
      var i :| 0 <= i < |entries| && Records(p, c)[i] == r;
      PassingScoreFloor(p, entries[i], c.bucket(entries[i].ticker));
      assert entries[i] in entries;
    }
    MapElements((e: TickerInput) => RecordFor(p, c, e), entries);
  }

  lemma RecordsAreReplayed(p: Payload, c: Choice, r: PassingRecord)
    requires ValidInput(p)
    ensures r in Records(p, c) <==> IsReplayed(p, c, r)
  {
    RecordsRankable(p, c);
    var m := InputByTicker(p.tickers);
    if r in Records(p, c) {
      var e :| e in p.tickers && Passing(p, c, e) && r == RecordFor(p, c, e);
      LookupIsEntry(p, e);
    }
    if IsReplayed(p, c, r) {
      assert m[r.ticker] in p.tickers;
    }
  }

  lemma RankedAreEntries(p: Payload, c: Choice)
    requires ValidInput(p)
    ensures forall i :: 0 <= i < |RankedRecords(p, c)| ==> IsReplayed(p, c, RankedRecords(p, c)[i])
  {
    RecordsRankable(p, c);
    RankingIsBandSort(Records(p, c));
    SameElements(Records(p, c), RankedRecords(p, c));
    forall i | 0 <= i < |RankedRecords(p, c)| ensures IsReplayed(p, c, RankedRecords(p, c)[i]) {
      RecordsAreReplayed(p, c, RankedRecords(p, c)[i]);
    }
  }

  // ---------- passing the checks forces the built output ----------

  ghost predicate Echoes(o: Output, c: Choice) {
    && (forall i :: 0 <= i < |o.approved| ==>
          o.approved[i].score.bucket == c.bucket(o.approved[i].ticker) && o.approved[i].age == c.age(o.approved[i].ticker))
    && (forall i :: 0 <= i < |o.qualified| ==>
          o.qualified[i].score.bucket == c.bucket(o.qualified[i].ticker) && o.qualified[i].age == c.age(o.qualified[i].ticker))
    && (forall i :: 0 <= i < |o.excluded| ==>
          o.excluded[i].score.bucket == c.bucket(o.excluded[i].ticker))
  }

  ghost predicate PassesAll(p: Payload, o: Output) {
    Check1(o) && Check3(p, o) && Check4(p, o) && Check5(p, o) && Check17(p, o) && Check67(o)
  }

  /** A scoring run, in the shape the output schema enforces for it. */
  ghost predicate ScoringRun(o: Output) {
    o.status in {ApprovedRun, NoSetups} && o.schemaFailures == []
  }

  /** The passing part of the output lists the entries `re` in order: three approved, the rest ranked from four. */
  ghost predicate Shaped(p: Payload, c: Choice, o: Output, re: seq<TickerInput>) {
    && |o.approved| == Top(|re|)
    && |o.approved| + |o.qualified| == |re|
    && (forall i :: 0 <= i < |o.approved| ==> o.approved[i] == ApprovedFor(p, c, re[i]))
    && (forall i :: 0 <= i < |o.qualified| ==>
          o.qualified[i] == QualifiedFor(p, c, re[|o.approved| + i], |o.approved| + i + 1))
  }

  /** `o` is the built output, up to the order of its exclusions. */
  ghost predicate IsBuild(p: Payload, c: Choice, o: Output)
    requires ValidInput(p)
  {
    && Shaped(p, c, o, RankedEntries(p, c))
    && multiset(o.excluded) == multiset(BuildExcluded(p, c))
  }

  lemma ConcatDistinct<T>(a: seq<T>, b: seq<T>)
    requires Distinct(a + b)
    ensures Distinct(a) && Distinct(b)
    ensures forall x :: x in a ==> x !in b
  {
    var s := a + b;
    forall i, j | 0 <= i < j < |a| ensures a[i] != a[j] { assert s[i] != s[j]; }
    forall i, j | 0 <= i < j < |b| ensures b[i] != b[j] { assert s[|a| + i] != s[|a| + j]; }
    forall x | x in a ensures x !in b {
      var i :| 0 <= i < |a| && a[i] == x;
      forall j | 0 <= j < |b| ensures b[j] != x { assert s[i] != s[|a| + j]; }
    }
  }

  /** A ticker whose record passes the checks is replayed from its input entry. */
  lemma ApprovedIsReplayed(p: Payload, c: Choice, o: Output, i: nat)
    requires Echoes(o, c) && Check4(p, o) && Check17(p, o) && i < |o.approved|
    ensures
      var m := InputByTicker(p.tickers);
      var x := o.approved[i];
      && x.ticker in m && x == ApprovedFor(p, c, m[x.ticker]) && IsReplayed(p, c, PassingRecords(o)[i])
  {
    var m := InputByTicker(p.tickers);
    assert PassOk(m, PassingRecords(o)[i].ticker, PassingRecords(o)[i].catalystRaw);
    assert ApprovedOk(p, m, o.approved[i]);
  }

  lemma QualifiedIsReplayed(p: Payload, c: Choice, o: Output, i: nat)
    requires Echoes(o, c) && Check4(p, o) && Check17(p, o) && i < |o.qualified|
    ensures
      var m := InputByTicker(p.tickers);
      var x := o.qualified[i];
      && x.ticker in m && x == QualifiedFor(p, c, m[x.ticker], x.rank)
      && IsReplayed(p, c, PassingRecords(o)[|o.approved| + i])
  {
    var m := InputByTicker(p.tickers);
    var k := |o.approved| + i;
    assert PassingRecords(o)[k] == QualifiedRecord(o.qualified[i]);
    assert PassOk(m, PassingRecords(o)[k].ticker, PassingRecords(o)[k].catalystRaw);
    assert QualifiedOk(p, m, o.qualified[i]);
  }

  lemma ExcludedIsReplayed(p: Payload, c: Choice, o: Output, i: nat)
    requires Echoes(o, c) && Check3(p, o) && Check17(p, o) && i < |o.excluded|
    ensures
      var m := InputByTicker(p.tickers);
      var x := o.excluded[i];
      x.ticker in m && !Passing(p, c, m[x.ticker]) && x == ExcludedFor(p, c, m[x.ticker])
  {
    var m := InputByTicker(p.tickers);
    var x := o.excluded[i];
    assert ExclusionOk(m, x);
    assert ScoreOk(p, m, x.ticker, x.score, x.flags);
    var gates := [x.primary] + x.additional;
    assert gates[0] == x.primary && gates[1..] == x.additional;
  }

  /** Approved, qualified and excluded partition the input tickers. */
  lemma TerminalPartition(p: Payload, o: Output)
    requires ValidInput(p) && ScoringRun(o)
    requires Check1(o) && Check3(p, o) && Check4(p, o) && Check5(p, o)
    ensures multiset(ObservedOrder(o) + ExcludedTickers(o)) == multiset(InputTickers(p))
    ensures Distinct(ObservedOrder(o)) && Distinct(ExcludedTickers(o))
    ensures forall t :: t in ObservedOrder(o) ==> t !in ExcludedTickers(o)
    ensures forall t :: t in ApprovedTickers(o) ==> t !in QualifiedTickers(o)
    ensures forall e :: e in p.tickers ==> e.ticker in ObservedOrder(o) || e.ticker in ExcludedTickers(o)
  {
    var observed, excluded := ObservedOrder(o), ExcludedTickers(o);
    assert TerminalSymbols(o) == observed + excluded;
    ConcatDistinct(observed, excluded);
    ConcatDistinct(ApprovedTickers(o), QualifiedTickers(o));
    forall t | t in observed + excluded ensures t in InputTickers(p) {
      OutputTickerIsInput(p, o, t);
    }
    DistinctSelectionIsAll(observed + excluded, InputTickers(p));
    SameMembersSameElements(observed + excluded, InputTickers(p));
    MapElements((e: TickerInput) => e.ticker, p.tickers);
    forall e | e in p.tickers ensures e.ticker in observed || e.ticker in excluded {
      assert e.ticker in InputTickers(p);
      assert e.ticker in observed + excluded;
    }
  }

  lemma OutputTickerIsInput(p: Payload, o: Output, t: string)
    requires ValidInput(p) && Check3(p, o) && Check4(p, o)
    requires t in ObservedOrder(o) + ExcludedTickers(o)
    ensures t in InputTickers(p)
  {
    var m := InputByTicker(p.tickers);
    if t in ObservedOrder(o) {
      var i :| 0 <= i < |ObservedOrder(o)| && ObservedOrder(o)[i] == t;
      assert PassOk(m, PassingRecords(o)[i].ticker, PassingRecords(o)[i].catalystRaw);
    } else {
      var i :| 0 <= i < |o.excluded| && ExcludedTickers(o)[i] == t;
      assert ExclusionOk(m, o.excluded[i]);
    }
    MapElements((e: TickerInput) => e.ticker, p.tickers);
    assert m[t] in p.tickers;
  }

  /** The passing records of a passing output are the replayed passing records of the input. */
  lemma PassingRecordsAreReplayed(p: Payload, c: Choice, o: Output)
    requires ValidInput(p) && ScoringRun(o) && Echoes(o, c)
    requires Check1(o) && Check3(p, o) && Check4(p, o) && Check5(p, o) && Check17(p, o)
    ensures Ranked(PassingRecords(o)) == RankedRecords(p, c)
  {
    var mine := PassingRecords(o);
    TerminalPartition(p, o);
    RecordsRankable(p, c);
    RecordTickers(o);
    forall r ensures r in mine <==> r in Records(p, c) {
      MineAreTheRecords(p, c, o, r);
    }
    DistinctRecords(Records(p, c));
    DistinctRecords(mine);
    SameMembersSameElements(mine, Records(p, c));
    RankingForgetsInputOrder(Records(p, c), mine);
  }

  lemma MineAreTheRecords(p: Payload, c: Choice, o: Output, r: PassingRecord)
    requires ValidInput(p) && ScoringRun(o) && Echoes(o, c)
    requires Check1(o) && Check3(p, o) && Check4(p, o) && Check5(p, o) && Check17(p, o)
    ensures r in PassingRecords(o) <==> r in Records(p, c)
  {
    var mine := PassingRecords(o);
    RecordsAreReplayed(p, c, r);
    if r in mine {
      var i :| 0 <= i < |mine| && mine[i] == r;
      MineIsReplayed(p, c, o, i);
    } else if IsReplayed(p, c, r) {
      ReplayedIsMine(p, c, o, r);
    }
  }

  lemma RecordTickers(o: Output)
    ensures |PassingRecords(o)| == |ObservedOrder(o)|
    ensures forall i :: 0 <= i < |PassingRecords(o)| ==> ObservedOrder(o)[i] == PassingRecords(o)[i].ticker
    ensures Distinct(ObservedOrder(o)) ==> DistinctTickers(PassingRecords(o))
  {
  }

  lemma DistinctRecords(s: seq<PassingRecord>)
    requires DistinctTickers(s)
    ensures Distinct(s)
  {
  }

  lemma MineIsReplayed(p: Payload, c: Choice, o: Output, i: nat)
    requires Echoes(o, c) && Check4(p, o) && Check17(p, o) && i < |PassingRecords(o)|
    ensures IsReplayed(p, c, PassingRecords(o)[i])
  {
    if i < |o.approved| {
      ApprovedIsReplayed(p, c, o, i);
    } else {
      QualifiedIsReplayed(p, c, o, i - |o.approved|);
    }
  }

  /** A passing entry cannot have been excluded, so its record is among the output's. */
  lemma ReplayedIsMine(p: Payload, c: Choice, o: Output, r: PassingRecord)
    requires ValidInput(p) && ScoringRun(o) && Echoes(o, c) && IsReplayed(p, c, r)
    requires Check1(o) && Check3(p, o) && Check4(p, o) && Check5(p, o) && Check17(p, o)
    ensures r in PassingRecords(o)
  {
    TerminalPartition(p, o);
    RecordTickers(o);
    assert InputByTicker(p.tickers)[r.ticker] in p.tickers;
    if r.ticker in ExcludedTickers(o) {
      var i :| 0 <= i < |o.excluded| && ExcludedTickers(o)[i] == r.ticker;
      ExcludedIsReplayed(p, c, o, i);
    } else {
      var i :| 0 <= i < |ObservedOrder(o)| && ObservedOrder(o)[i] == r.ticker;
      MineIsReplayed(p, c, o, i);
      assert PassingRecords(o)[i] == r;
    }
  }

  // ---------- the output is pinned down ----------

  /** The top three of the common order are approved and the rest qualified, with their ranks. */
  lemma SplitIsAtThree(o: Output, order: seq<string>)
    requires order == ObservedOrder(o) && RoutesOk(o, order) && Distinct(order)
    ensures |o.approved| == Top(|order|)
    ensures forall i :: 0 <= i < |o.qualified| ==> o.qualified[i].rank == |o.approved| + i + 1
  {
    var a := |o.approved|;
    if a > 3 {
      RoutedAt(o, order, 3);
    } else if a < 3 && a < |order| {
      RoutedAt(o, order, a);
    }
    forall i | 0 <= i < |o.qualified| ensures o.qualified[i].rank == a + i + 1 {
      RoutedAt(o, order, a + i);
    }
  }

  lemma RoutedAt(o: Output, order: seq<string>, i: nat)
    requires order == ObservedOrder(o) && RoutesOk(o, order) && Distinct(order) && i < |order|
    ensures i < 3 <==> i < |o.approved|
    ensures i >= |o.approved| ==> o.qualified[i - |o.approved|].rank == i + 1
  {
    var a, t := |o.approved|, order[i];
    assert RouteOk(o, t, i + 1);
    if i < 3 {
      var j :| 0 <= j < a && ApprovedTickers(o)[j] == t;
      assert order[j] == t;
    } else {
      var item := FindQualified(o.qualified, t);
      var j :| 0 <= j < |o.qualified| && o.qualified[j] == item.value;
      assert order[a + j] == QualifiedTickers(o)[j] == t;
      assert a + j == i;
    }
  }

  lemma PinnedOrder(p: Payload, c: Choice, o: Output, re: seq<TickerInput>)
    requires ValidInput(p) && ScoringRun(o) && Echoes(o, c) && PassesAll(p, o) && re == RankedEntries(p, c)
    ensures |ObservedOrder(o)| == |re|
    ensures forall i :: 0 <= i < |re| ==>
              ObservedOrder(o)[i] == re[i].ticker && re[i].ticker in InputByTicker(p.tickers)
              && InputByTicker(p.tickers)[re[i].ticker] == re[i]
  {
    PassingRecordsAreReplayed(p, c, o);
    forall i | 0 <= i < |re|
      ensures ObservedOrder(o)[i] == re[i].ticker && re[i].ticker in InputByTicker(p.tickers)
              && InputByTicker(p.tickers)[re[i].ticker] == re[i]
    {
      assert Tickers(RankedRecords(p, c))[i] == RankedRecords(p, c)[i].ticker;
      LookupIsEntry(p, re[i]);
    }
  }

  lemma PinnedShape(p: Payload, c: Choice, o: Output, re: seq<TickerInput>)
    requires Echoes(o, c) && Check4(p, o) && Check17(p, o)
    requires |ObservedOrder(o)| == |re|
    requires forall i :: 0 <= i < |re| ==>
               ObservedOrder(o)[i] == re[i].ticker && re[i].ticker in InputByTicker(p.tickers)
               && InputByTicker(p.tickers)[re[i].ticker] == re[i]
    requires RoutesOk(o, ObservedOrder(o)) && Distinct(ObservedOrder(o))
    ensures Shaped(p, c, o, re)
  {
    var a := |o.approved|;
    SplitIsAtThree(o, ObservedOrder(o));
    forall i | 0 <= i < a ensures o.approved[i] == ApprovedFor(p, c, re[i]) {
      ApprovedIsReplayed(p, c, o, i);
      assert ObservedOrder(o)[i] == o.approved[i].ticker;
    }
    forall i | 0 <= i < |o.qualified| ensures o.qualified[i] == QualifiedFor(p, c, re[a + i], a + i + 1) {
      QualifiedIsReplayed(p, c, o, i);
      assert ObservedOrder(o)[a + i] == o.qualified[i].ticker;
    }
  }

  lemma PinnedPassing(p: Payload, c: Choice, o: Output)
    requires ValidInput(p) && ScoringRun(o) && Echoes(o, c) && PassesAll(p, o)
    ensures Shaped(p, c, o, RankedEntries(p, c))
  {
    TerminalPartition(p, o);
    PinnedOrder(p, c, o, RankedEntries(p, c));
    PinnedShape(p, c, o, RankedEntries(p, c));
  }

  /** `x` is the replayed exclusion of the input entry with its ticker. */
  ghost predicate IsExclusion(p: Payload, c: Choice, x: Excluded) {
    var m := InputByTicker(p.tickers);
    && x.ticker in m
    && !Passing(p, c, m[x.ticker])
    && x == ExcludedFor(p, c, m[x.ticker])
  }

  lemma BuiltExclusions(p: Payload, c: Choice, x: Excluded)
    requires ValidInput(p)
    ensures x in BuildExcluded(p, c) <==> IsExclusion(p, c, x)
  {
    var failing := FailingEntries(p, c);
    if x in BuildExcluded(p, c) {
      var i :| 0 <= i < |failing| && BuildExcluded(p, c)[i] == x;
      assert failing[i] in failing;
      EntryExclusion(p, c, failing[i]);
    }
    if IsExclusion(p, c, x) {
      ExclusionIsBuilt(p, c, x);
    }
  }

  lemma EntryExclusion(p: Payload, c: Choice, e: TickerInput)
    requires ValidInput(p) && e in p.tickers && !Passing(p, c, e)
    ensures IsExclusion(p, c, ExcludedFor(p, c, e))
  {
    LookupIsEntry(p, e);
  }

  lemma ExclusionIsBuilt(p: Payload, c: Choice, x: Excluded)
    requires IsExclusion(p, c, x)
    ensures x in BuildExcluded(p, c)
  {
    var failing := FailingEntries(p, c);
    var e := InputByTicker(p.tickers)[x.ticker];
    assert e in failing;
    var i :| 0 <= i < |failing| && failing[i] == e;
    assert BuildExcluded(p, c)[i] == x;
  }

  lemma BuiltExclusionsDistinct(p: Payload, c: Choice)
    requires ValidInput(p)
    ensures Distinct(BuildExcluded(p, c))
  {
    EntriesDistinct(p);
    FilterKeepsTickersDistinct((e: TickerInput) => !Passing(p, c, e), p.tickers);
    var failing := FailingEntries(p, c);
    var built := BuildExcluded(p, c);
    forall i, j | 0 <= i < j < |built| ensures built[i] != built[j] {
      assert built[i].ticker == failing[i].ticker && built[j].ticker == failing[j].ticker;
    }
  }

  lemma PinnedExcluded(p: Payload, c: Choice, o: Output)
    requires ValidInput(p) && ScoringRun(o) && Echoes(o, c) && PassesAll(p, o)
    ensures multiset(o.excluded) == multiset(BuildExcluded(p, c))
  {
    TerminalPartition(p, o);
    ExcludedDistinct(o);
    forall x ensures x in o.excluded <==> x in BuildExcluded(p, c) {
      ExcludedAreTheExclusions(p, c, o, x);
    }
    BuiltExclusionsDistinct(p, c);
    SameMembersSameElements(o.excluded, BuildExcluded(p, c));
  }

  lemma ExcludedDistinct(o: Output)
    requires Distinct(ExcludedTickers(o))
    ensures Distinct(o.excluded)
  {
    forall i, j | 0 <= i < j < |o.excluded| ensures o.excluded[i] != o.excluded[j] {
      assert ExcludedTickers(o)[i] != ExcludedTickers(o)[j];
    }
  }

  lemma ExcludedAreTheExclusions(p: Payload, c: Choice, o: Output, x: Excluded)
    requires ValidInput(p) && ScoringRun(o) && Echoes(o, c) && PassesAll(p, o)
    ensures x in o.excluded <==> x in BuildExcluded(p, c)
  {
    BuiltExclusions(p, c, x);
    if x in o.excluded {
      ExcludedIsExclusion(p, c, o, x);
    } else if IsExclusion(p, c, x) {
      FailingIsExcluded(p, c, o, x);
    }
  }

  lemma ExcludedIsExclusion(p: Payload, c: Choice, o: Output, x: Excluded)
    requires Echoes(o, c) && Check3(p, o) && Check17(p, o) && x in o.excluded
    ensures IsExclusion(p, c, x)
  {
    var i :| 0 <= i < |o.excluded| && o.excluded[i] == x;
    ExcludedIsReplayed(p, c, o, i);
  }

  /** A failing entry cannot be among the passing records, so it was excluded. */
  lemma FailingIsExcluded(p: Payload, c: Choice, o: Output, x: Excluded)
    requires ValidInput(p) && ScoringRun(o) && Echoes(o, c) && PassesAll(p, o) && IsExclusion(p, c, x)
    ensures x in o.excluded
  {
    TerminalPartition(p, o);
    RecordTickers(o);
    assert InputByTicker(p.tickers)[x.ticker] in p.tickers;
    if x.ticker in ObservedOrder(o) {
      var i :| 0 <= i < |ObservedOrder(o)| && ObservedOrder(o)[i] == x.ticker;
      MineIsReplayed(p, c, o, i);
    } else {
      var i :| 0 <= i < |o.excluded| && ExcludedTickers(o)[i] == x.ticker;
      ExcludedIsReplayed(p, c, o, i);
    }
  }

  // ---------- the built output passes ----------

  lemma ShapedRecords(p: Payload, c: Choice, o: Output, re: seq<TickerInput>)
    requires Shaped(p, c, o, re)
    ensures |PassingRecords(o)| == |re| == |ObservedOrder(o)|
    ensures forall i :: 0 <= i < |re| ==>
              PassingRecords(o)[i] == RecordFor(p, c, re[i]) && ObservedOrder(o)[i] == re[i].ticker
  {
    var a := |o.approved|;
    forall i | 0 <= i < |re|
      ensures PassingRecords(o)[i] == RecordFor(p, c, re[i]) && ObservedOrder(o)[i] == re[i].ticker
    {
      if i < a {
        assert PassingRecords(o)[i] == ApprovedRecord(o.approved[i]) && ObservedOrder(o)[i] == o.approved[i].ticker;
      } else {
        assert o.qualified[i - a] == QualifiedFor(p, c, re[a + (i - a)], a + (i - a) + 1);
        assert PassingRecords(o)[i] == QualifiedRecord(o.qualified[i - a]);
        assert ObservedOrder(o)[i] == o.qualified[i - a].ticker;
      }
    }
  }

  lemma BuiltRecords(p: Payload, c: Choice, o: Output)
    requires ValidInput(p) && IsBuild(p, c, o)
    ensures PassingRecords(o) == RankedRecords(p, c)
  {
    var re := RankedEntries(p, c);
    ShapedRecords(p, c, o, re);
    assert forall i :: 0 <= i < |re| ==> RankedRecords(p, c)[i] == RecordFor(p, c, re[i]);
  }

  lemma BuiltOrder(p: Payload, c: Choice, o: Output)
    requires ValidInput(p) && IsBuild(p, c, o)
    ensures RankOrder(o) == ObservedOrder(o)
    ensures Distinct(ObservedOrder(o))
  {
    BuiltRecords(p, c, o);
    RecordsRankable(p, c);
    RankedIsRankable(Records(p, c));
    ObservedIsTickers(o);
  }

  lemma RankedIsRankable(records: seq<PassingRecord>)
    requires Rankable(records)
    ensures Ranked(Ranked(records)) == Ranked(records) && DistinctTickers(Ranked(records))
  {
    RankingIsIdempotent(records);
    RankingIsBandSort(records);
    DistinctIsOneEach(records);
    DistinctIsOneEach(Ranked(records));
  }

  lemma ObservedIsTickers(o: Output)
    ensures ObservedOrder(o) == Tickers(PassingRecords(o))
    ensures DistinctTickers(PassingRecords(o)) ==> Distinct(ObservedOrder(o))
  {
    RecordTickers(o);
  }

  /** With distinct tickers, the lookup by ticker finds the record at its own position. */
  lemma FindsItself(s: seq<Qualified>, i: nat)
    requires i < |s|
    requires forall j, k :: 0 <= j < k < |s| ==> s[j].ticker != s[k].ticker
    ensures FindQualified(s, s[i].ticker) == Some(s[i])
  {
    assert s[i] in s;
    var found := FindQualified(s, s[i].ticker).value;
    var j :| 0 <= j < |s| && s[j] == found;
    assert j == i;
  }

  lemma BuiltRoutes(o: Output)
    requires Distinct(ObservedOrder(o)) && |o.approved| == Top(|ObservedOrder(o)|)
    requires forall i :: 0 <= i < |o.qualified| ==> o.qualified[i].rank == |o.approved| + i + 1
    ensures RoutesOk(o, ObservedOrder(o))
  {
    var order := ObservedOrder(o);
    var a := |o.approved|;
    forall j, k | 0 <= j < k < |o.qualified| ensures o.qualified[j].ticker != o.qualified[k].ticker {
      assert order[a + j] != order[a + k];
    }
    forall i | 0 <= i < |order| ensures RouteOk(o, order[i], i + 1) {
      if i < a {
        assert ApprovedTickers(o)[i] == order[i];
      } else {
        FindsItself(o.qualified, i - a);
        assert order[i] == o.qualified[i - a].ticker;
      }
    }
  }

  lemma BuiltPassingScores(p: Payload, c: Choice, o: Output, re: seq<TickerInput>)
    requires Shaped(p, c, o, re)
    requires forall i :: 0 <= i < |re| ==>
               && re[i].ticker in InputByTicker(p.tickers) && InputByTicker(p.tickers)[re[i].ticker] == re[i]
               && Passing(p, c, re[i])
    ensures Check4(p, o)
    ensures forall i :: 0 <= i < |o.approved| ==> ApprovedOk(p, InputByTicker(p.tickers), o.approved[i])
    ensures forall i :: 0 <= i < |o.qualified| ==> QualifiedOk(p, InputByTicker(p.tickers), o.qualified[i])
  {
    ShapedRecords(p, c, o, re);
    var m := InputByTicker(p.tickers);
    forall i | 0 <= i < |PassingRecords(o)|
      ensures PassOk(m, PassingRecords(o)[i].ticker, PassingRecords(o)[i].catalystRaw)
    {
      assert PassingRecords(o)[i] == RecordFor(p, c, re[i]);
    }
    forall i | 0 <= i < |o.approved| ensures ApprovedOk(p, m, o.approved[i]) {
      assert o.approved[i] == ApprovedFor(p, c, re[i]);
    }
    forall i | 0 <= i < |o.qualified| ensures QualifiedOk(p, m, o.qualified[i]) {
      assert o.qualified[i] == QualifiedFor(p, c, re[|o.approved| + i], |o.approved| + i + 1);
    }
  }

  lemma ExclusionScores(p: Payload, c: Choice, x: Excluded)
    requires IsExclusion(p, c, x)
    ensures ExclusionOk(InputByTicker(p.tickers), x)
    ensures ScoreOk(p, InputByTicker(p.tickers), x.ticker, x.score, x.flags)
    ensures x.score.bucket == c.bucket(x.ticker)
  {
    var gates := FailedGates(InputByTicker(p.tickers)[x.ticker], x.score.raw);
    assert [gates[0]] + gates[1..] == gates;
  }

  lemma BuiltExcludedAre(p: Payload, c: Choice, o: Output)
    requires ValidInput(p) && multiset(o.excluded) == multiset(BuildExcluded(p, c))
    ensures forall i :: 0 <= i < |o.excluded| ==> IsExclusion(p, c, o.excluded[i])
    ensures Distinct(ExcludedTickers(o))
  {
    SameElements(o.excluded, BuildExcluded(p, c));
    forall i | 0 <= i < |o.excluded| ensures IsExclusion(p, c, o.excluded[i]) {
      BuiltExclusions(p, c, o.excluded[i]);
    }
    BuiltExclusionsDistinct(p, c);
    PermutedDistinct(o.excluded, BuildExcluded(p, c));
    forall i, j | 0 <= i < j < |o.excluded| ensures ExcludedTickers(o)[i] != ExcludedTickers(o)[j] {
      assert o.excluded[i] != o.excluded[j];
    }
  }

  lemma PermutedDistinct<T(!new)>(a: seq<T>, b: seq<T>)
    requires multiset(a) == multiset(b) && Distinct(b)
    ensures Distinct(a)
  {
    SameElements(a, b);
    assert (set x | x in a) == (set x | x in b);
    DistinctCardinality(a);
    DistinctCardinality(b);
  }

  lemma BuiltScores(p: Payload, c: Choice, o: Output)
    requires ValidInput(p) && IsBuild(p, c, o)
    ensures Check3(p, o) && Check4(p, o) && Check17(p, o)
  {
    var re := RankedEntries(p, c);
    forall i | 0 <= i < |re|
      ensures re[i].ticker in InputByTicker(p.tickers) && InputByTicker(p.tickers)[re[i].ticker] == re[i]
    {
      LookupIsEntry(p, re[i]);
    }
    BuiltPassingScores(p, c, o, re);
    BuiltExcludedAre(p, c, o);
    forall i | 0 <= i < |o.excluded|
      ensures ExclusionOk(InputByTicker(p.tickers), o.excluded[i])
      ensures ScoreOk(p, InputByTicker(p.tickers), o.excluded[i].ticker, o.excluded[i].score, o.excluded[i].flags)
    {
      ExclusionScores(p, c, o.excluded[i]);
    }
  }

  lemma BuiltPartition(p: Payload, c: Choice, o: Output)
    requires ValidInput(p) && ScoringRun(o) && IsBuild(p, c, o)
    ensures Check1(o)
  {
    BuiltOrder(p, c, o);
    BuiltExcludedAre(p, c, o);
    forall i, j | 0 <= i < |ObservedOrder(o)| && 0 <= j < |ExcludedTickers(o)|
      ensures ObservedOrder(o)[i] != ExcludedTickers(o)[j]
    {
      RankedIsNotExcluded(p, c, o, i, j);
    }
    DisjointPartition(o);
  }

  lemma DisjointPartition(o: Output)
    requires Distinct(ObservedOrder(o)) && Distinct(ExcludedTickers(o)) && o.schemaFailures == []
    requires forall i, j :: 0 <= i < |ObservedOrder(o)| && 0 <= j < |ExcludedTickers(o)| ==>
               ObservedOrder(o)[i] != ExcludedTickers(o)[j]
    ensures Check1(o)
  {
    DistinctConcat(ObservedOrder(o), ExcludedTickers(o));
    assert TerminalSymbols(o) == ObservedOrder(o) + ExcludedTickers(o);
  }

  lemma DistinctConcat(a: seq<string>, b: seq<string>)
    requires Distinct(a) && Distinct(b)
    requires forall i, j :: 0 <= i < |a| && 0 <= j < |b| ==> a[i] != b[j]
    ensures Distinct(a + b)
  {
  }

  lemma RankedIsNotExcluded(p: Payload, c: Choice, o: Output, i: nat, j: nat)
    requires ValidInput(p) && ScoringRun(o) && IsBuild(p, c, o)
    requires i < |ObservedOrder(o)| && j < |ExcludedTickers(o)|
    ensures ObservedOrder(o)[i] != ExcludedTickers(o)[j]
  {
    var re := RankedEntries(p, c);
    BuiltExcludedAre(p, c, o);
    ShapedRecords(p, c, o, re);
    LookupIsEntry(p, re[i]);
    assert IsExclusion(p, c, o.excluded[j]);
  }

  lemma BuiltCount(p: Payload, c: Choice, o: Output)
    requires ValidInput(p) && IsBuild(p, c, o)
    ensures |o.approved| + |o.qualified| + |o.excluded| == |p.tickers|
  {
    RecordsRankable(p, c);
    RankingIsBandSort(Records(p, c));
    SameElements(RankedRecords(p, c), Records(p, c));
    SameElements(o.excluded, BuildExcluded(p, c));
    var pass := (e: TickerInput) => Passing(p, c, e);
    var fail := (e: TickerInput) => !Passing(p, c, e);
    FilterSplit(pass, fail, p.tickers);
    assert |multiset(p.tickers)| == |multiset(Filter(pass, p.tickers))| + |multiset(Filter(fail, p.tickers))|;
  }

  lemma BuiltPassesAll(p: Payload, c: Choice, o: Output)
    requires ValidInput(p) && ScoringRun(o) && IsBuild(p, c, o)
    ensures PassesAll(p, o)
  {
    BuiltRouted(p, c, o);
    BuiltScores(p, c, o);
    BuiltPartition(p, c, o);
    BuiltCount(p, c, o);
  }

  lemma BuiltRouted(p: Payload, c: Choice, o: Output)
    requires ValidInput(p) && IsBuild(p, c, o)
    ensures Check67(o)
  {
    BuiltOrder(p, c, o);
    BuiltRanks(p, c, o, RankedEntries(p, c));
    BuiltRoutes(o);
  }

  lemma BuiltRanks(p: Payload, c: Choice, o: Output, re: seq<TickerInput>)
    requires Shaped(p, c, o, re)
    ensures |o.approved| == Top(|ObservedOrder(o)|)
    ensures forall i :: 0 <= i < |o.qualified| ==> o.qualified[i].rank == |o.approved| + i + 1
  {
  }

  /** The six checks hold of exactly the built output, up to the order of the exclusions. */
  lemma ChecksPinTheOutput(p: Payload, c: Choice, o: Output)
    requires ValidInput(p) && ScoringRun(o) && Echoes(o, c)
    ensures PassesAll(p, o) <==> IsBuild(p, c, o)
  {
    if PassesAll(p, o) {
      PinnedPassing(p, c, o);
      PinnedExcluded(p, c, o);
    }
    if IsBuild(p, c, o) {
      BuiltPassesAll(p, c, o);
    }
  }

  lemma ShapedAgree(p: Payload, c: Choice, x: Output, y: Output, re: seq<TickerInput>)
    requires Shaped(p, c, x, re) && Shaped(p, c, y, re)
    ensures x.approved == y.approved && x.qualified == y.qualified
    ensures |x.approved| == Top(|x.approved| + |x.qualified|)
  {
  }

  lemma BuildsAgree(p: Payload, c: Choice, x: Output, y: Output)
    requires ValidInput(p) && IsBuild(p, c, x) && IsBuild(p, c, y)
    ensures x.approved == y.approved && x.qualified == y.qualified
    ensures multiset(x.excluded) == multiset(y.excluded)
    ensures |x.approved| == Top(|x.approved| + |x.qualified|)
  {
    ShapedAgree(p, c, x, y, RankedEntries(p, c));
  }

  /** Two passing outputs with the same buckets and echoed ages agree on everything checked. */
  lemma OutputsAgree(p: Payload, c: Choice, x: Output, y: Output)
    requires ValidInput(p) && ScoringRun(x) && ScoringRun(y) && Echoes(x, c) && Echoes(y, c)
    requires PassesAll(p, x) && PassesAll(p, y)
    ensures x.approved == y.approved && x.qualified == y.qualified
    ensures multiset(x.excluded) == multiset(y.excluded)
    ensures |x.approved| == Top(|x.approved| + |x.qualified|)
    ensures Check14(p, x) && Check14(p, y) ==> x.status == y.status
  {
    ChecksPinTheOutput(p, c, x);
    ChecksPinTheOutput(p, c, y);
    BuildsAgree(p, c, x, y);
  }

  lemma AssembleIsShaped(p: Payload, c: Choice, re: seq<TickerInput>, excluded: seq<Excluded>)
    ensures Shaped(p, c, Assemble(p, c, re, excluded), re)
  {
  }

  lemma BuildIsBuild(p: Payload, c: Choice)
    requires ValidInput(p)
    ensures IsBuild(p, c, Build(p, c)) && ScoringRun(Build(p, c))
  {
    AssembleIsShaped(p, c, RankedEntries(p, c), BuildExcluded(p, c));
  }

  lemma BuildEchoes(p: Payload, c: Choice, o: Output, re: seq<TickerInput>)
    requires Shaped(p, c, o, re)
    requires forall i :: 0 <= i < |o.excluded| ==> IsExclusion(p, c, o.excluded[i])
    ensures Echoes(o, c)
  {
    forall i | 0 <= i < |o.excluded| ensures o.excluded[i].score.bucket == c.bucket(o.excluded[i].ticker) {
      ExclusionScores(p, c, o.excluded[i]);
    }
  }

  /** The replay functions build an output that passes: for every choice of buckets and ages one exists. */
  lemma BuildPasses(p: Payload, c: Choice)
    requires ValidInput(p)
    ensures PassesAll(p, Build(p, c)) && Check77(Build(p, c)) && Echoes(Build(p, c), c)
    ensures Check14(p, Build(p, c)) <==> p.marketStatus == Normal && p.ageSeconds <= 180
  {
    BuildIsBuild(p, c);
    BuiltExcludedAre(p, c, Build(p, c));
    BuildEchoes(p, c, Build(p, c), RankedEntries(p, c));
    ChecksPinTheOutput(p, c, Build(p, c));
    BuiltStatus(p, c, RankedEntries(p, c), BuildExcluded(p, c));
    hide Assemble, PassesAll, Check77, Check14, Echoes, Shaped, RankedEntries, BuildExcluded, IsBuild;
  }

  lemma BuiltStatus(p: Payload, c: Choice, re: seq<TickerInput>, excluded: seq<Excluded>)
    ensures Check14(p, Assemble(p, c, re, excluded)) <==> p.marketStatus == Normal && p.ageSeconds <= 180
  {
  }
}
