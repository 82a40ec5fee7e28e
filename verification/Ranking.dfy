/** Anchored two-point tie-group ranking of passing tickers
    (daybreak_contracts/logic/replay.py, expected_passing_order).

    The source peels off groups: the best remaining score is the anchor, every
    record within two points of it joins the group, the group is re-sorted by
    freshness, and the loop repeats. The declarative reading is one sort: a score
    is an anchor when neither of the two next higher scores is an anchor, each
    record belongs to the band of the anchor at most two points above it, and
    records are ordered by band, then by freshness. */
module Ranking {
  import opened Orders

  const MAX_SCORE := 100

  datatype PassingRecord = PassingRecord(
    ticker: string,
    score: int,
    age: real,
    catalystRaw: int,
    volumePoints: int,
    technicalPoints: int)

  /** Sort key of the outer list: score descending, then ticker. */
  predicate ScoreLe(a: PassingRecord, b: PassingRecord) {
    if a.score != b.score then a.score > b.score else LexLe(a.ticker, b.ticker)
  }

  /** Sort key inside a group: freshest catalyst first, then the point tie-breaks, then ticker. */
  predicate FreshLe(a: PassingRecord, b: PassingRecord) {
    if a.age != b.age then a.age < b.age
    else if a.catalystRaw != b.catalystRaw then a.catalystRaw > b.catalystRaw
    else if a.volumePoints != b.volumePoints then a.volumePoints > b.volumePoints
    else if a.technicalPoints != b.technicalPoints then a.technicalPoints > b.technicalPoints
    else LexLe(a.ticker, b.ticker)
  }

  function TickerSet(s: seq<PassingRecord>): set<string> {
    set r | r in s :: r.ticker
  }

  /** The records within two points of the first one. */
  function Group(rem: seq<PassingRecord>): (g: seq<PassingRecord>)
    requires rem != []
    ensures forall r :: r in g <==> r in rem && rem[0].score - r.score <= 2
  {
    Filter((r: PassingRecord) => rem[0].score - r.score <= 2, rem)
  }

  /** The records whose ticker is not among the group's. */
  function Rest(rem: seq<PassingRecord>): (g: seq<PassingRecord>)
    requires rem != []
    ensures forall r :: r in g <==> r in rem && r.ticker !in TickerSet(Group(rem))
    ensures |g| < |rem|
  {
    var tickers := TickerSet(Group(rem));
    var out := (r: PassingRecord) => r.ticker !in tickers;
    assert rem[0] in Group(rem) && rem[0].ticker in tickers;
    FilterShrinks(out, rem, rem[0]);
    Filter(out, rem)
  }

  function Tickers(s: seq<PassingRecord>): (t: seq<string>)
    ensures |t| == |s| && forall i :: 0 <= i < |s| ==> t[i] == s[i].ticker
  {
    if s == [] then [] else [s[0].ticker] + Tickers(s[1..])
  }

  /** What the loop appends to `ranked` from a given `remaining` list. */
  function Peel(remaining: seq<PassingRecord>): seq<PassingRecord>
    decreases |remaining|
  {
    if remaining == [] then []
    else SortBy(FreshLe, Group(remaining)) + Peel(Rest(remaining))
  }

  function Ranked(records: seq<PassingRecord>): seq<PassingRecord> {
    Peel(SortBy(ScoreLe, records))
  }

  lemma PeelNext(ranked: seq<PassingRecord>, remaining: seq<PassingRecord>)
    requires remaining != []
    ensures ranked + SortBy(FreshLe, Group(remaining)) + Peel(Rest(remaining)) == ranked + Peel(remaining)
  {
    Associates(ranked, SortBy(FreshLe, Group(remaining)), Peel(Rest(remaining)));
  }

  method ExpectedPassingOrder(records: seq<PassingRecord>) returns (order: seq<string>)
    ensures order == Tickers(Ranked(records))
  {
    var remaining := SortBy(ScoreLe, records);
    var ranked: seq<PassingRecord> := [];
    while remaining != []
      invariant ranked + Peel(remaining) == Ranked(records)
      decreases |remaining|
    {
      var group := Group(remaining);
      PeelNext(ranked, remaining);
      remaining := Rest(remaining);
      ranked := ranked + SortBy(FreshLe, group);
    }
    assert ranked == ranked + Peel(remaining);
    order := Tickers(ranked);
  }

  // ---------- the declarative reading ----------

  /** `a` heads a group of the score set `s`. */
  predicate Anchor(s: set<int>, a: int)
    decreases MAX_SCORE - a
  {
    a <= MAX_SCORE && a in s && !Anchor(s, a + 1) && !Anchor(s, a + 2)
  }

  function Band(s: set<int>, score: int): (b: int)
    ensures score <= b <= score + 2
    ensures score in s && score <= MAX_SCORE ==> Anchor(s, b)
  {
    if Anchor(s, score) then score else if Anchor(s, score + 1) then score + 1 else score + 2
  }

  predicate BandLe(s: set<int>, a: PassingRecord, b: PassingRecord) {
    if Band(s, a.score) != Band(s, b.score) then Band(s, a.score) > Band(s, b.score) else FreshLe(a, b)
  }

  function BandOrder(s: set<int>): (PassingRecord, PassingRecord) -> bool {
    (a: PassingRecord, b: PassingRecord) => BandLe(s, a, b)
  }

  function ScoreSet(records: seq<PassingRecord>): set<int> {
    set r | r in records :: r.score
  }

  ghost predicate DistinctTickers(records: seq<PassingRecord>) {
    forall i, j :: 0 <= i < j < |records| ==> records[i].ticker != records[j].ticker
  }

  ghost predicate Rankable(records: seq<PassingRecord>) {
    DistinctTickers(records) && forall r :: r in records ==> r.score <= MAX_SCORE
  }

  /** Distinct tickers in a form that does not mention positions. */
  ghost predicate OneEach(m: multiset<PassingRecord>) {
    && (forall a, b :: a in m && b in m && a.ticker == b.ticker ==> a == b)
    && (forall a :: a in m ==> m[a] == 1)
  }

  lemma {:induction false} DistinctIsOneEach(s: seq<PassingRecord>)
    ensures DistinctTickers(s) <==> OneEach(multiset(s))
  {
    if s != [] {
      var head, tail := s[0], s[1..];
      assert s == [head] + tail;
      assert multiset(s) == multiset{head} + multiset(tail);
      DistinctIsOneEach(tail);
      DistinctCons(s);
      OneEachCons(head, multiset(tail));
    }
  }

  lemma DistinctCons(s: seq<PassingRecord>)
    requires s != []
    ensures DistinctTickers(s) <==>
            DistinctTickers(s[1..]) && forall r :: r in multiset(s[1..]) ==> r.ticker != s[0].ticker
  {
    var tail := s[1..];
    if DistinctTickers(s) {
      forall i, j | 0 <= i < j < |tail| ensures tail[i].ticker != tail[j].ticker {
        assert s[i + 1].ticker != s[j + 1].ticker;
      }
      forall r | r in multiset(tail) ensures r.ticker != s[0].ticker {
        var k :| 0 <= k < |tail| && tail[k] == r;
        assert s[k + 1].ticker != s[0].ticker;
      }
    }
    if DistinctTickers(tail) && forall r :: r in multiset(tail) ==> r.ticker != s[0].ticker {
      forall i, j | 0 <= i < j < |s| ensures s[i].ticker != s[j].ticker {
        assert s[j] == tail[j - 1] && s[j] in multiset(tail);
        assert i > 0 ==> s[i] == tail[i - 1];
      }
    }
  }

  lemma OneEachCons(head: PassingRecord, m: multiset<PassingRecord>)
    ensures OneEach(multiset{head} + m) <==>
            OneEach(m) && forall r :: r in m ==> r.ticker != head.ticker
  {
    var all := multiset{head} + m;
    if OneEach(all) {
      forall r | r in m ensures r.ticker != head.ticker && m[r] == 1 {
        assert r in all && head in all && all[r] == 1;
      }
      forall a, b | a in m && b in m && a.ticker == b.ticker ensures a == b {
        assert a in all && b in all;
      }
    }
  }

  lemma FreshPreorder()
    ensures TotalPreorder(FreshLe)
  {
    LexLaws();
  }

  lemma ScorePreorder()
    ensures TotalPreorder(ScoreLe)
  {
    LexLaws();
  }

  lemma BandPreorder(s: set<int>)
    ensures TotalPreorder(BandOrder(s))
  {
    FreshPreorder();
    var le := BandOrder(s);
    forall a, b ensures le(a, b) || le(b, a) {
      assert FreshLe(a, b) || FreshLe(b, a);
    }
    forall a, b, c | le(a, b) && le(b, c) ensures le(a, c) {
      assert FreshLe(a, b) && FreshLe(b, c) ==> FreshLe(a, c);
    }
  }

  lemma BandTieFree(s: set<int>, records: seq<PassingRecord>)
    requires DistinctTickers(records)
    ensures TieFree(BandOrder(s), records)
  {
    DistinctIsOneEach(records);
    forall a, b | a in records && b in records && BandLe(s, a, b) && BandLe(s, b, a) ensures a == b {
      LexAntisymmetric(a.ticker, b.ticker);
      assert a in multiset(records) && b in multiset(records);
    }
  }

  /** Records of one ticker all lie in one band of the score set `s`. */
  ghost predicate OneBandEach(records: seq<PassingRecord>, s: set<int>) {
    forall a, b :: a in records && b in records && a.ticker == b.ticker ==> Band(s, a.score) == Band(s, b.score)
  }

  lemma DistinctHaveOneBand(records: seq<PassingRecord>, s: set<int>)
    requires DistinctTickers(records)
    ensures OneBandEach(records, s)
  {
    forall a, b | a in records && b in records && a.ticker == b.ticker ensures a == b {
      var i :| 0 <= i < |records| && records[i] == a;
      var j :| 0 <= j < |records| && records[j] == b;
      assert i < j ==> a.ticker != b.ticker;
      assert j < i ==> b.ticker != a.ticker;
    }
  }

  /** The group of the first record is its band. */
  ghost predicate GroupIsBand(rem: seq<PassingRecord>, s: set<int>)
    requires rem != []
  {
    forall r :: r in rem ==>
      && Band(s, r.score) <= rem[0].score
      && (rem[0].score - r.score <= 2 <==> Band(s, r.score) == rem[0].score)
  }

  /** No record outside the group of the first one carries a ticker of the group. */
  ghost predicate NoTickerSplit(rem: seq<PassingRecord>)
    requires rem != []
  {
    forall a, b :: a in rem && b in rem && a.ticker == b.ticker && rem[0].score - a.score <= 2
                   ==> rem[0].score - b.score <= 2
  }

  /** Removing a group by ticker then removes exactly the near records. */
  lemma PeelStep(rem: seq<PassingRecord>)
    requires rem != [] && NoTickerSplit(rem)
    ensures multiset(rem) == multiset(Group(rem)) + multiset(Rest(rem))
    ensures forall r :: r in Rest(rem) <==> r in rem && rem[0].score - r.score > 2
  {
    var tickers := TickerSet(Group(rem));
    var near := (r: PassingRecord) => rem[0].score - r.score <= 2;
    var out := (r: PassingRecord) => r.ticker !in tickers;
    forall r | r in rem ensures near(r) <==> !out(r) {
      if !out(r) {
        var g :| g in Group(rem) && g.ticker == r.ticker;
      } else {
        assert r in Group(rem) ==> !out(r);
      }
    }
    FilterSplit(near, out, rem);
  }

  /** Otherwise it removes a record that no group ever ranks. */
  lemma SplitTickerIsLost(rem: seq<PassingRecord>)
    requires rem != [] && !NoTickerSplit(rem)
    ensures |Group(rem)| + |Rest(rem)| < |rem|
  {
    var a, b :| a in rem && b in rem && a.ticker == b.ticker && rem[0].score - a.score <= 2 < rem[0].score - b.score;
    var tickers := TickerSet(Group(rem));
    var near := (r: PassingRecord) => rem[0].score - r.score <= 2;
    var far := (r: PassingRecord) => rem[0].score - r.score > 2;
    var out := (r: PassingRecord) => r.ticker !in tickers;
    assert a in Group(rem) && !out(b);
    FilterSplit(near, far, rem);
    assert |multiset(rem)| == |multiset(Filter(near, rem))| + |multiset(Filter(far, rem))|;
    forall r | r in rem && out(r) ensures far(r) {
      assert r in Group(rem) ==> r.ticker in tickers;
    }
    FilterFewer(out, far, rem, b);
  }

  lemma OneBandMeansNoSplit(rem: seq<PassingRecord>, s: set<int>)
    requires rem != [] && GroupIsBand(rem, s)
    ensures OneBandEach(rem, s) ==> NoTickerSplit(rem)
    ensures NoTickerSplit(rem) && (forall r :: r in Rest(rem) <==> r in rem && rem[0].score - r.score > 2)
            ==> (OneBandEach(rem, s) <==> OneBandEach(Rest(rem), s))
  {
    if NoTickerSplit(rem) && (forall r :: r in Rest(rem) <==> r in rem && rem[0].score - r.score > 2)
       && OneBandEach(Rest(rem), s) {
      forall a, b | a in rem && b in rem && a.ticker == b.ticker ensures Band(s, a.score) == Band(s, b.score) {
        assert rem[0].score - a.score <= 2 <==> rem[0].score - b.score <= 2;
      }
    }
  }

  /** `rem` holds exactly the scores of `s` up to `hi`, and no group of `s` reaches over `hi` from above. */
  ghost predicate Slice(rem: seq<PassingRecord>, s: set<int>, hi: int) {
    && hi <= MAX_SCORE && !Anchor(s, hi + 1) && !Anchor(s, hi + 2)
    && ScoreSet(rem) == set v | v in s && v <= hi
  }

  /** Peeling never lengthens the list. */
  lemma {:induction false} PeelNoLonger(rem: seq<PassingRecord>)
    ensures |Peel(rem)| <= |rem|
    decreases |rem|
  {
    if rem == [] {
    } else {
      SameElements(SortBy(FreshLe, Group(rem)), Group(rem));
      PeelNoLonger(Rest(rem));
      if NoTickerSplit(rem) {
        PeelStep(rem);
        assert |multiset(rem)| == |multiset(Group(rem))| + |multiset(Rest(rem))|;
      } else {
        SplitTickerIsLost(rem);
      }
    }
  }

  /** Peeling a score-sorted slice whose tickers keep to one band is a permutation, in band order. */
  lemma {:induction false} PeelIsBandSorted(rem: seq<PassingRecord>, s: set<int>, hi: int)
    requires Sorted(ScoreLe, rem) && Slice(rem, s, hi) && OneBandEach(rem, s)
    ensures Sorted(BandOrder(s), Peel(rem))
    ensures multiset(Peel(rem)) == multiset(rem)
    decreases |rem|
  {
    if rem == [] {
    } else {
      PeelOneGroup(rem, s, hi);
      OneBandMeansNoSplit(rem, s);
      RestOfGroup(rem, s, hi);
      PeelIsBandSorted(Rest(rem), s, rem[0].score - 3);
      SameElements(Peel(Rest(rem)), Rest(rem));
      GroupBeatsRest(Group(rem), Peel(Rest(rem)), s, rem[0].score);
      assert multiset(Peel(rem)) == multiset(SortBy(FreshLe, Group(rem))) + multiset(Peel(Rest(rem)));
    }
  }

  /** Peeling a score-sorted slice in which some ticker reaches over two bands loses a record. */
  lemma {:induction false} PeelLosesSplit(rem: seq<PassingRecord>, s: set<int>, hi: int)
    requires Sorted(ScoreLe, rem) && Slice(rem, s, hi) && !OneBandEach(rem, s)
    ensures |Peel(rem)| < |rem|
    decreases |rem|
  {
    PeelOneGroup(rem, s, hi);
    OneBandMeansNoSplit(rem, s);
    SameElements(SortBy(FreshLe, Group(rem)), Group(rem));
    if NoTickerSplit(rem) {
      RestOfGroup(rem, s, hi);
      PeelLosesSplit(Rest(rem), s, rem[0].score - 3);
      assert |multiset(rem)| == |multiset(Group(rem))| + |multiset(Rest(rem))|;
    } else {
      SplitTickerIsLost(rem);
      PeelNoLonger(Rest(rem));
    }
  }

  /** The first group of a score-sorted slice is the band of its anchor. */
  lemma PeelOneGroup(rem: seq<PassingRecord>, s: set<int>, hi: int)
    requires rem != [] && Sorted(ScoreLe, rem) && Slice(rem, s, hi)
    ensures Anchor(s, rem[0].score) && GroupIsBand(rem, s)
    ensures forall r :: r in rem ==> r.score <= rem[0].score && r.score in s
  {
    TopIsAnchor(rem, s, hi);
    forall r | r in rem
      ensures Band(s, r.score) <= rem[0].score && (rem[0].score - r.score <= 2 <==> Band(s, r.score) == rem[0].score)
    {
      NearIsInBand(s, rem[0].score, r.score);
    }
  }

  lemma NearIsInBand(s: set<int>, anchor: int, score: int)
    requires Anchor(s, anchor) && score <= anchor && score in s
    ensures Band(s, score) <= anchor && (anchor - score <= 2 <==> Band(s, score) == anchor)
  {
    assert !Anchor(s, anchor + 1) && !Anchor(s, anchor + 2);
    assert Anchor(s, anchor - 1) ==> !Anchor(s, anchor);
    assert Anchor(s, anchor - 2) ==> !Anchor(s, anchor);
  }

  /** After one round the remaining list is again a slice, three points below the anchor. */
  lemma RestOfGroup(rem: seq<PassingRecord>, s: set<int>, hi: int)
    requires rem != [] && Sorted(ScoreLe, rem) && Slice(rem, s, hi) && NoTickerSplit(rem)
    ensures multiset(rem) == multiset(Group(rem)) + multiset(Rest(rem))
    ensures Sorted(ScoreLe, Rest(rem)) && Slice(Rest(rem), s, rem[0].score - 3)
    ensures forall r :: r in Rest(rem) <==> r in rem && rem[0].score - r.score > 2
  {
    PeelStep(rem);
    TopIsAnchor(rem, s, hi);
    RestSorted(rem);
    RestSlice(rem, s, hi);
  }

  lemma RestSlice(rem: seq<PassingRecord>, s: set<int>, hi: int)
    requires rem != [] && Slice(rem, s, hi) && Anchor(s, rem[0].score)
    requires forall r :: r in rem ==> r.score <= rem[0].score && r.score in s
    requires forall r :: r in Rest(rem) <==> r in rem && rem[0].score - r.score > 2
    ensures Slice(Rest(rem), s, rem[0].score - 3)
  {
    var low := rem[0].score - 3;
    assert rem[0].score in ScoreSet(rem);
    forall v ensures v in ScoreSet(Rest(rem)) <==> v in s && v <= low {
      if v in s && v <= low {
        assert v in ScoreSet(rem);
        var r :| r in rem && r.score == v;
        assert r in Rest(rem);
      }
    }
  }

  lemma RestSorted(rem: seq<PassingRecord>)
    requires rem != [] && Sorted(ScoreLe, rem)
    ensures Sorted(ScoreLe, Rest(rem))
  {
    var tickers := TickerSet(Group(rem));
    FilterSorted(ScoreLe, (r: PassingRecord) => r.ticker !in tickers, rem);
  }

  /** One step: the freshly sorted group, all in one band, goes before everything lower. */
  lemma GroupBeatsRest(group: seq<PassingRecord>, lower: seq<PassingRecord>, s: set<int>, anchor: int)
    requires Anchor(s, anchor)
    requires forall r :: r in group ==> r.score in s && anchor - 2 <= r.score <= anchor
    requires forall r :: r in lower ==> r.score < anchor - 2
    requires Sorted(BandOrder(s), lower)
    ensures Sorted(BandOrder(s), SortBy(FreshLe, group) + lower)
  {
    var head := SortBy(FreshLe, group);
    SameElements(head, group);
    FreshPreorder();
    SortSorted(FreshLe, group);
    forall r | r in head ensures Band(s, r.score) == anchor {
      assert !Anchor(s, anchor - 1) && !Anchor(s, anchor - 2);
    }
    assert Sorted(BandOrder(s), head);
    SortedConcat(BandOrder(s), head, lower);
  }

  /** The best remaining score is an anchor and bounds every remaining score. */
  lemma TopIsAnchor(rem: seq<PassingRecord>, s: set<int>, hi: int)
    requires rem != [] && Sorted(ScoreLe, rem) && Slice(rem, s, hi)
    ensures Anchor(s, rem[0].score)
    ensures forall r :: r in rem ==> r.score <= rem[0].score && r.score in s
  {
    var anchor := rem[0].score;
    forall r | r in rem ensures r.score <= anchor && r.score in s {
      var k :| 0 <= k < |rem| && rem[k] == r;
      assert k == 0 || ScoreLe(rem[0], rem[k]);
      assert r.score in ScoreSet(rem);
    }
    assert anchor in ScoreSet(rem);
    forall v | anchor < v <= hi ensures v !in s {
      assert v in s ==> v in ScoreSet(rem);
    }
  }

  lemma SortedIsSlice(records: seq<PassingRecord>)
    requires forall r :: r in records ==> r.score <= MAX_SCORE
    ensures Sorted(ScoreLe, SortBy(ScoreLe, records)) && Slice(SortBy(ScoreLe, records), ScoreSet(records), MAX_SCORE)
    ensures OneBandEach(SortBy(ScoreLe, records), ScoreSet(records)) <==> OneBandEach(records, ScoreSet(records))
  {
    ScorePreorder();
    SortSorted(ScoreLe, records);
    SameElements(SortBy(ScoreLe, records), records);
    assert ScoreSet(SortBy(ScoreLe, records)) == ScoreSet(records);
  }

  /** The loop ranks every record exactly when records of one ticker keep to one band; otherwise it loses some. What
      it ranks without loss is in band order. */
  lemma RankingKeepsAllExactly(records: seq<PassingRecord>)
    requires forall r :: r in records ==> r.score <= MAX_SCORE
    ensures multiset(Ranked(records)) == multiset(records) <==> OneBandEach(records, ScoreSet(records))
    ensures |Ranked(records)| < |records| <==> !OneBandEach(records, ScoreSet(records))
    ensures OneBandEach(records, ScoreSet(records)) ==> Sorted(BandOrder(ScoreSet(records)), Ranked(records))
  {
    var sorted := SortBy(ScoreLe, records);
    SortedIsSlice(records);
    SameElements(sorted, records);
    if OneBandEach(records, ScoreSet(records)) {
      PeelIsBandSorted(sorted, ScoreSet(records), MAX_SCORE);
      SameElements(Ranked(records), records);
    } else {
      PeelLosesSplit(sorted, ScoreSet(records), MAX_SCORE);
      assert |multiset(Ranked(records))| < |multiset(records)|;
    }
  }

  /** The loop computes the band sort: peeling groups is one sort by band and freshness. */
  lemma RankingIsBandSort(records: seq<PassingRecord>)
    requires Rankable(records)
    ensures Ranked(records) == SortBy(BandOrder(ScoreSet(records)), records)
    ensures multiset(Ranked(records)) == multiset(records)
    ensures Sorted(BandOrder(ScoreSet(records)), Ranked(records))
  {
    var s := ScoreSet(records);
    var le := BandOrder(s);
    DistinctHaveOneBand(records, s);
    RankingKeepsAllExactly(records);
    BandPreorder(s);
    SortSorted(le, records);
    BandTieFree(s, records);
    SameElements(Ranked(records), records);
    assert TieFree(le, Ranked(records));
    SortedUnique(le, Ranked(records), SortBy(le, records));
  }

  /** Any permutation that meets the band order is the ranking. */
  lemma RankingIsUnique(records: seq<PassingRecord>, other: seq<PassingRecord>)
    requires Rankable(records)
    requires multiset(other) == multiset(records)
    requires Sorted(BandOrder(ScoreSet(records)), other)
    ensures other == Ranked(records)
  {
    var s := ScoreSet(records);
    RankingIsBandSort(records);
    BandPreorder(s);
    BandTieFree(s, records);
    SameElements(records, other);
    assert TieFree(BandOrder(s), other);
    SortedUnique(BandOrder(s), other, Ranked(records));
  }

  /** The input order of the passing records does not matter. */
  lemma RankingForgetsInputOrder(a: seq<PassingRecord>, b: seq<PassingRecord>)
    requires Rankable(a) && multiset(a) == multiset(b)
    ensures Ranked(a) == Ranked(b)
  {
    SameElements(a, b);
    DistinctIsOneEach(a);
    DistinctIsOneEach(b);
    assert ScoreSet(a) == ScoreSet(b);
    RankingIsBandSort(a);
    RankingIsUnique(b, Ranked(a));
  }

  lemma RankingIsIdempotent(records: seq<PassingRecord>)
    requires Rankable(records)
    ensures Ranked(Ranked(records)) == Ranked(records)
  {
    RankingIsBandSort(records);
    RankingForgetsInputOrder(records, Ranked(records));
  }

  /** Within a band, in particular between equal scores, the fresher catalyst comes first; at equal age the higher
      catalyst score, then the volume points, then the technical points, then the ticker. */
  lemma FresherRanksFirst(records: seq<PassingRecord>, i: nat, j: nat)
    requires Rankable(records) && i < j < |Ranked(records)|
    requires var s := ScoreSet(records); Band(s, Ranked(records)[i].score) == Band(s, Ranked(records)[j].score)
    ensures
      var a, b := Ranked(records)[i], Ranked(records)[j];
      && a.age <= b.age
      && (a.age == b.age ==> a.catalystRaw >= b.catalystRaw)
      && (a.age == b.age && a.catalystRaw == b.catalystRaw ==> a.volumePoints >= b.volumePoints)
      && (a.age == b.age && a.catalystRaw == b.catalystRaw && a.volumePoints == b.volumePoints ==>
            a.technicalPoints >= b.technicalPoints)
      && (a.age == b.age && a.catalystRaw == b.catalystRaw && a.volumePoints == b.volumePoints &&
          a.technicalPoints == b.technicalPoints ==>
            LexLe(a.ticker, b.ticker))
  {
    RankingIsBandSort(records);
    assert BandOrder(ScoreSet(records))(Ranked(records)[i], Ranked(records)[j]);
  }

  /** Two records within two points of the highest score are in one band. */
  lemma TopScoresShareABand(records: seq<PassingRecord>, a: PassingRecord, b: PassingRecord)
    requires forall r :: r in records ==> r.score <= MAX_SCORE
    requires a in records && b in records
    requires forall r :: r in records ==> r.score - 2 <= a.score && r.score - 2 <= b.score
    ensures Band(ScoreSet(records), a.score) == Band(ScoreSet(records), b.score)
  {
    var s := ScoreSet(records);
    TopAnchors(s, Band(s, a.score), a.score);
    TopAnchors(s, Band(s, b.score), b.score);
  }

  lemma TopAnchors(s: set<int>, band: int, score: int)
    requires score in s && score <= MAX_SCORE && band == Band(s, score)
    requires forall x :: x in s ==> x <= score + 2 && x <= MAX_SCORE
    ensures band in s && forall x :: x in s ==> x <= band
  {
    assert !Anchor(s, score + 3) && !Anchor(s, score + 4);
    assert score + 2 in s && score + 2 <= MAX_SCORE ==> Anchor(s, score + 2);
    assert score + 2 !in s ==> !Anchor(s, score + 2);
    assert score + 2 !in s && score + 1 in s && score + 1 <= MAX_SCORE ==> Anchor(s, score + 1);
  }

  /** Freshness never lifts a record over one that beats it by more than two points. */
  lemma RankingRespectsScores(records: seq<PassingRecord>, i: nat, j: nat)
    requires Rankable(records) && i < j < |Ranked(records)|
    ensures Ranked(records)[i].score >= Ranked(records)[j].score - 2
  {
    RankingIsBandSort(records);
    var s := ScoreSet(records);
    assert BandOrder(s)(Ranked(records)[i], Ranked(records)[j]);
  }

  /** A ticker scored 90 and again 80 is ranked once: removing the first group by ticker drops the second record. */
  lemma RepeatedTickerIsDropped()
    ensures
      var a := PassingRecord("A", 90, 1.0, 9, 35, 25);
      var b := PassingRecord("A", 80, 1.0, 9, 35, 25);
      Ranked([a, b]) == [a]
  {
    var a := PassingRecord("A", 90, 1.0, 9, 35, 25);
    var b := PassingRecord("A", 80, 1.0, 9, 35, 25);
    assert SortBy(ScoreLe, [b]) == [b];
    assert SortBy(ScoreLe, [a, b]) == [a, b];
    assert a in Group([a, b]) && b !in Group([a, b]);
    assert a.ticker in TickerSet(Group([a, b]));
    assert forall r :: r in [a, b] ==> r == a || r == b;
    EmptyOrInhabited(Rest([a, b]));
    assert Group([a, b]) == [a] by {
      assert Filter((r: PassingRecord) => [a, b][0].score - r.score <= 2, [b]) == [];
    }
    assert SortBy(FreshLe, [a]) == [a];
  }
}
