/** Pivot highs of a daily bar series (daybreak_features/resistance.py, _pivot_candidates). */
module Pivots {
  import opened Orders

  /** Bars strictly lower on either side of a confirmed pivot. */
  const WIDTH := 5

  datatype Bar = Bar(day: int, high: real)

  datatype Pivot = Pivot(day: int, price: real, confirmed: bool, lookbackHigh: bool)

  /** Bars are unique by day and ascending. */
  ghost predicate Chronological(bars: seq<Bar>) {
    forall i, j :: 0 <= i < j < |bars| ==> bars[i].day < bars[j].day
  }

  function MaxHigh(bars: seq<Bar>): (m: real)
    requires bars != []
    ensures forall b :: b in bars ==> b.high <= m
    ensures exists b :: b in bars && b.high == m
  {
    if |bars| == 1 then bars[0].high
    else
      var rest := MaxHigh(bars[1..]);
      assert bars == [bars[0]] + bars[1..];
      if bars[0].high > rest then bars[0].high else rest
  }

  function Latest(bars: seq<Bar>): (bar: Bar)
    requires bars != []
    ensures bar in bars
    ensures forall b :: b in bars ==> b.day <= bar.day
  {
    if |bars| == 1 then bars[0]
    else
      var rest := Latest(bars[1..]);
      assert bars == [bars[0]] + bars[1..];
      if bars[0].day >= rest.day then bars[0] else rest
  }

  // ---------- what a pivot is ----------

  /** Strictly higher than the five bars on either side. */
  ghost predicate Confirmed(bars: seq<Bar>, i: int) {
    && WIDTH <= i < |bars| - WIDTH
    && forall j :: i - WIDTH <= j <= i + WIDTH && j != i ==> bars[j].high < bars[i].high
  }

  /** The five bars before it and the five after it are there, and each has a lower high. */
  lemma ConfirmedExactly(bars: seq<Bar>, i: int)
    ensures Confirmed(bars, i) <==>
            5 <= i < |bars| - 5 && forall b: Bar :: b in bars[i - 5..i] + bars[i + 1..i + 6] ==> b.high < bars[i].high
  {
    if 5 <= i < |bars| - 5 {
      var before, after := bars[i - 5..i], bars[i + 1..i + 6];
      if forall b: Bar :: b in before + after ==> b.high < bars[i].high {
        forall j | i - 5 <= j <= i + 5 && j != i ensures bars[j].high < bars[i].high {
          if j < i {
            assert before[j - (i - 5)] == bars[j];
          } else {
            assert after[j - (i + 1)] == bars[j];
          }
        }
      }
    }
  }

  /** The latest bar at the highest high. */
  ghost predicate Peak(bars: seq<Bar>, i: int) {
    && 0 <= i < |bars|
    && (forall j :: 0 <= j < |bars| ==> bars[j].high <= bars[i].high)
    && (forall j :: i < j < |bars| ==> bars[j].high < bars[i].high)
  }

  ghost function PivotAt(bars: seq<Bar>, i: nat): Pivot {
    if i < |bars| then Pivot(bars[i].day, bars[i].high, Confirmed(bars, i), Peak(bars, i)) else Pivot(0, 0.0, false, false)
  }

  /** The selected indices below `n`, in order, as pivots. */
  ghost function Select(n: nat, keep: nat -> bool, at: nat -> Pivot): seq<Pivot>
    decreases n, 0
  {
    if n == 0 then [] else SelectThrough(n - 1, keep, at)
  }

  ghost function SelectThrough(last: nat, keep: nat -> bool, at: nat -> Pivot): seq<Pivot>
    decreases last, 1
  {
    Select(last, keep, at) + if keep(last) then [at(last)] else []
  }

  ghost function IsPivot(bars: seq<Bar>): nat -> bool {
    (i: nat) => Confirmed(bars, i) || Peak(bars, i)
  }

  ghost function Flagged(bars: seq<Bar>): nat -> Pivot {
    (i: nat) => PivotAt(bars, i)
  }

  ghost function PivotsOf(bars: seq<Bar>): seq<Pivot> {
    Select(|bars|, IsPivot(bars), Flagged(bars))
  }

  lemma {:induction false} SelectMembers(n: nat, keep: nat -> bool, at: nat -> Pivot, p: Pivot)
    ensures p in Select(n, keep, at) <==> exists i: nat :: i < n && keep(i) && p == at(i)
  {
    if n > 0 {
      SelectMembers(n - 1, keep, at, p);
    }
  }

  /** Selecting keeps the order of the indices. */
  lemma {:induction false} SelectAscends(n: nat, keep: nat -> bool, at: nat -> Pivot)
    requires forall i: nat, j: nat :: i < j < n ==> at(i).day < at(j).day
    ensures forall i, j :: 0 <= i < j < |Select(n, keep, at)| ==> Select(n, keep, at)[i].day < Select(n, keep, at)[j].day
  {
    if n > 0 {
      SelectAscends(n - 1, keep, at);
      var before := Select(n - 1, keep, at);
      forall k | 0 <= k < |before| ensures keep(n - 1) ==> before[k].day < at(n - 1).day {
        SelectMembers(n - 1, keep, at, before[k]);
      }
    }
  }

  lemma {:induction false} SelectSame(n: nat, keep: nat -> bool, at: nat -> Pivot, keep': nat -> bool, at': nat -> Pivot)
    requires forall i: nat :: i < n ==> keep(i) == keep'(i) && (keep(i) ==> at(i) == at'(i))
    ensures Select(n, keep, at) == Select(n, keep', at')
  {
    if n > 0 {
      SelectSame(n - 1, keep, at, keep', at');
    }
  }

  lemma {:induction false} SelectMapped(n: nat, keep: nat -> bool, at: nat -> Pivot, f: Pivot -> Pivot, at': nat -> Pivot)
    requires forall i: nat :: i < n && keep(i) ==> f(at(i)) == at'(i)
    ensures Map(f, Select(n, keep, at)) == Select(n, keep, at')
  {
    if n > 0 {
      SelectMapped(n - 1, keep, at, f, at');
    }
  }

  /** Keeping one more index adds its pivot. */
  lemma {:induction false} SelectExtra(n: nat, keep: nat -> bool, keep': nat -> bool, at: nat -> Pivot, k: nat)
    requires !keep(k) && forall i: nat :: i < n ==> (keep'(i) <==> keep(i) || i == k)
    ensures multiset(Select(n, keep', at)) == multiset(Select(n, keep, at)) + if k < n then multiset{at(k)} else multiset{}
  {
    if n > 0 {
      SelectExtra(n - 1, keep, keep', at, k);
    }
  }

  /** Indices that are not kept can be skipped. */
  lemma {:induction false} SelectTail(n: nat, m: nat, keep: nat -> bool, at: nat -> Pivot)
    requires n <= m && forall i: nat :: n <= i < m ==> !keep(i)
    ensures Select(m, keep, at) == Select(n, keep, at)
    decreases m
  {
    if n < m {
      SelectTail(n, m - 1, keep, at);
    }
  }

  // ---------- the peak ----------

  lemma PeakIsUnique(bars: seq<Bar>, i: int, j: int)
    requires Peak(bars, i) && Peak(bars, j)
    ensures i == j
  {
    var a, b := bars[i].high, bars[j].high;
  }

  lemma PeakOfHigh(bars: seq<Bar>, bar: Bar) returns (k: nat)
    requires Chronological(bars) && bars != []
    requires bar in bars && bar.high == MaxHigh(bars)
    requires forall b :: b in bars && b.high == MaxHigh(bars) ==> b.day <= bar.day
    ensures Peak(bars, k) && bars[k] == bar
  {
    k :| 0 <= k < |bars| && bars[k] == bar;
    forall j | k < j < |bars| ensures bars[j].high < bars[k].high {
      assert bars[j] in bars && bars[j].day > bar.day;
    }
  }

  // ---------- the candidates, collected ----------

  ghost function IsConfirmed(bars: seq<Bar>): nat -> bool {
    (i: nat) => Confirmed(bars, i)
  }

  ghost function Unmarked(bars: seq<Bar>): nat -> Pivot {
    (i: nat) => PivotAt(bars, i).(confirmed := true, lookbackHigh := false)
  }

  function Mark(day: int): Pivot -> Pivot {
    (p: Pivot) => p.(lookbackHigh := p.day == day)
  }

  predicate AboveNeighbours(bars: seq<Bar>, i: int)
    requires WIDTH <= i < |bars| - WIDTH
  {
    bars[i].high > MaxHigh(bars[i - WIDTH..i]) && bars[i].high > MaxHigh(bars[i + 1..i + WIDTH + 1])
  }

  lemma WindowIsHigher(bars: seq<Bar>, i: int)
    requires WIDTH <= i < |bars| - WIDTH
    ensures Confirmed(bars, i) <==> AboveNeighbours(bars, i)
  {
    var left, right := bars[i - WIDTH..i], bars[i + 1..i + WIDTH + 1];
    if bars[i].high > MaxHigh(left) && bars[i].high > MaxHigh(right) {
      forall j | i - WIDTH <= j <= i + WIDTH && j != i ensures bars[j].high < bars[i].high {
        if j < i {
          assert left[j - (i - WIDTH)] == bars[j];
        } else {
          assert right[j - (i + 1)] == bars[j];
        }
      }
    }
    if Confirmed(bars, i) {
      var l :| l in left && l.high == MaxHigh(left);
      var r :| r in right && r.high == MaxHigh(right);
    }
  }

  lemma NoneBelowWidth(bars: seq<Bar>)
    ensures Select(WIDTH, IsConfirmed(bars), Unmarked(bars)) == []
  {
    SelectTail(0, WIDTH, IsConfirmed(bars), Unmarked(bars));
  }

  lemma NoneFrom(bars: seq<Bar>, index: nat)
    requires |bars| - WIDTH <= index
    ensures Select(index, IsConfirmed(bars), Unmarked(bars)) == Select(|bars|, IsConfirmed(bars), Unmarked(bars))
  {
    if index <= |bars| {
      SelectTail(index, |bars|, IsConfirmed(bars), Unmarked(bars));
    } else {
      SelectTail(|bars|, index, IsConfirmed(bars), Unmarked(bars));
    }
  }

  lemma NextConfirmed(bars: seq<Bar>, i: nat)
    requires WIDTH <= i < |bars| - WIDTH
    ensures Select(i + 1, IsConfirmed(bars), Unmarked(bars)) == Select(i, IsConfirmed(bars), Unmarked(bars))
              + if AboveNeighbours(bars, i) then [Pivot(bars[i].day, bars[i].high, true, false)] else []
  {
    WindowIsHigher(bars, i);
  }

  /** The loop over the bars: the confirmed pivots, not yet marked. */
  method ConfirmedPivots(bars: seq<Bar>) returns (pivots: seq<Pivot>)
    ensures pivots == Select(|bars|, IsConfirmed(bars), Unmarked(bars))
  {
    pivots := [];
    ghost var keep, at := IsConfirmed(bars), Unmarked(bars);
    NoneBelowWidth(bars);
    var index := WIDTH;
    while index < |bars| - WIDTH
      invariant index == WIDTH || WIDTH <= index <= |bars| - WIDTH
      invariant pivots == Select(index, keep, at)
    {
      NextConfirmed(bars, index);
      if AboveNeighbours(bars, index) {
        pivots := pivots + [Pivot(bars[index].day, bars[index].high, true, false)];
      }
      index := index + 1;
    }
    NoneFrom(bars, index);
  }

  lemma MarkedArePivots(bars: seq<Bar>, k: nat)
    requires Chronological(bars) && Peak(bars, k) && Confirmed(bars, k)
    ensures Map(Mark(bars[k].day), Select(|bars|, IsConfirmed(bars), Unmarked(bars))) == PivotsOf(bars)
  {
    var n := |bars|;
    forall i: nat | i < n ensures Confirmed(bars, i) ==> Mark(bars[k].day)(Unmarked(bars)(i)) == Flagged(bars)(i) {
      PeakAt(bars, i, k);
    }
    SelectMapped(n, IsConfirmed(bars), Unmarked(bars), Mark(bars[k].day), Flagged(bars));
    forall i: nat | i < n ensures IsConfirmed(bars)(i) == IsPivot(bars)(i) {
      PeakAt(bars, i, k);
    }
    SelectSame(n, IsConfirmed(bars), Flagged(bars), IsPivot(bars), Flagged(bars));
  }

  lemma PeakAt(bars: seq<Bar>, i: nat, k: nat)
    requires Chronological(bars) && Peak(bars, k) && i < |bars|
    ensures Peak(bars, i) <==> i == k
    ensures bars[i].day == bars[k].day <==> i == k
  {
    if Peak(bars, i) {
      PeakIsUnique(bars, i, k);
    }
  }

  lemma AddedArePivots(bars: seq<Bar>, k: nat)
    requires Chronological(bars) && Peak(bars, k) && !Confirmed(bars, k)
    ensures multiset(PivotsOf(bars)) ==
            multiset(Select(|bars|, IsConfirmed(bars), Unmarked(bars))) + multiset{PivotAt(bars, k)}
  {
    var n := |bars|;
    forall i: nat | i < n
      ensures (IsPivot(bars)(i) <==> IsConfirmed(bars)(i) || i == k)
      ensures IsConfirmed(bars)(i) ==> Unmarked(bars)(i) == Flagged(bars)(i)
    {
      PeakAt(bars, i, k);
    }
    SelectSame(n, IsConfirmed(bars), Unmarked(bars), IsConfirmed(bars), Flagged(bars));
    SelectExtra(n, IsConfirmed(bars), IsPivot(bars), Flagged(bars), k);
  }

  lemma ConfirmedDay(bars: seq<Bar>, k: nat)
    requires Chronological(bars) && k < |bars|
    ensures (exists p :: p in Select(|bars|, IsConfirmed(bars), Unmarked(bars)) && p.day == bars[k].day) <==> Confirmed(bars, k)
  {
    var keep, at := IsConfirmed(bars), Unmarked(bars);
    var chosen := Select(|bars|, keep, at);
    if Confirmed(bars, k) {
      SelectMembers(|bars|, keep, at, at(k));
      assert keep(k);
    }
    forall p | p in chosen && p.day == bars[k].day ensures Confirmed(bars, k) {
      SelectMembers(|bars|, keep, at, p);
    }
  }

  /** The pivots, whatever their order: the confirmed ones and, marked, the lookback high. */
  method PivotCandidates(bars: seq<Bar>) returns (pivots: seq<Pivot>, synthetic: bool)
    requires bars != [] && Chronological(bars)
    ensures multiset(pivots) == multiset(PivotsOf(bars))
    ensures synthetic <==> forall k :: Peak(bars, k) ==> !Confirmed(bars, k)
  {
    pivots := ConfirmedPivots(bars);
    var maxPrice := MaxHigh(bars);
    var representative := Latest(Filter((b: Bar) => b.high == maxPrice, bars));
    ghost var k := PeakOfHigh(bars, representative);
    forall j | Peak(bars, j) ensures j == k { PeakIsUnique(bars, j, k); }
    ConfirmedDay(bars, k);
    synthetic := forall p :: p in pivots ==> p.day != representative.day;
    if synthetic {
      AddedArePivots(bars, k);
      pivots := pivots + [Pivot(representative.day, representative.high, false, true)];
    } else {
      MarkedArePivots(bars, k);
      pivots := Map(Mark(representative.day), pivots);
    }
  }

  // ---------- what the candidates satisfy ----------

  /** Confirmed pivots are more than five bars apart. */
  lemma ConfirmedFarApart(bars: seq<Bar>, i: int, j: int)
    requires Confirmed(bars, i) && Confirmed(bars, j) && i < j
    ensures j - i > 5
  {
    var a, b := bars[i].high, bars[j].high;
  }

  /** Pivots have pairwise different days, each the day of a bar. */
  lemma PivotDays(bars: seq<Bar>)
    requires Chronological(bars)
    ensures Distinct(PivotsOf(bars))
    ensures forall p, q :: p in PivotsOf(bars) && q in PivotsOf(bars) && p.day == q.day ==> p == q
    ensures forall p :: p in PivotsOf(bars) ==> exists i :: 0 <= i < |bars| && bars[i].day == p.day
  {
    SelectAscends(|bars|, IsPivot(bars), Flagged(bars));
    forall p | p in PivotsOf(bars) ensures exists i :: 0 <= i < |bars| && bars[i].day == p.day {
      SelectMembers(|bars|, IsPivot(bars), Flagged(bars), p);
    }
  }

  /** Exactly one pivot carries the lookback-high mark, and its price is the highest high. */
  lemma ExactlyOneLookbackHigh(bars: seq<Bar>) returns (top: Pivot)
    requires bars != [] && Chronological(bars)
    ensures top.lookbackHigh && top.price == MaxHigh(bars)
    ensures forall p :: p in PivotsOf(bars) && p.lookbackHigh ==> p == top
    ensures multiset(PivotsOf(bars))[top] == 1
  {
    var k := PeakOfHigh(bars, Latest(Filter((b: Bar) => b.high == MaxHigh(bars), bars)));
    top := PivotAt(bars, k);
    PivotDays(bars);
    SelectMembers(|bars|, IsPivot(bars), Flagged(bars), top);
    assert IsPivot(bars)(k) && Flagged(bars)(k) == top;
    forall p | p in PivotsOf(bars) && p.lookbackHigh ensures p == top {
      MarkedIsPeak(bars, k, p);
    }
    DistinctMultiplicity(PivotsOf(bars), top);
  }

  lemma MarkedIsPeak(bars: seq<Bar>, k: nat, p: Pivot)
    requires Peak(bars, k) && p in PivotsOf(bars) && p.lookbackHigh
    ensures p == PivotAt(bars, k)
  {
    SelectMembers(|bars|, IsPivot(bars), Flagged(bars), p);
    var i: nat :| i < |bars| && IsPivot(bars)(i) && p == Flagged(bars)(i);
    assert Peak(bars, i);
    PeakIsUnique(bars, i, k);
  }
}
