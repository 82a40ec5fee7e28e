/** Orderings, stable sorting and filtering shared by the other modules.

    `SortBy` is the stable insertion sort that stands for the source language's
    `sorted(values, key=...)`: the key comparison is passed as a `<=`-relation. */
module Orders {

  ghost predicate TotalPreorder<T(!new)>(le: (T, T) -> bool) {
    && (forall a, b :: le(a, b) || le(b, a))
    && (forall a, b, c :: le(a, b) && le(b, c) ==> le(a, c))
  }

  /** No two different elements of `s` are tied. */
  ghost predicate TieFree<T(!new)>(le: (T, T) -> bool, s: seq<T>) {
    forall a, b :: a in s && b in s && le(a, b) && le(b, a) ==> a == b
  }

  ghost predicate Sorted<T>(le: (T, T) -> bool, s: seq<T>) {
    forall i, j :: 0 <= i < j < |s| ==> le(s[i], s[j])
  }

  function Insert<T>(le: (T, T) -> bool, x: T, s: seq<T>): (r: seq<T>)
    ensures multiset(r) == multiset{x} + multiset(s)
  {
    if s == [] || le(x, s[0]) then [x] + s
    else
      assert s == [s[0]] + s[1..];
      [s[0]] + Insert(le, x, s[1..])
  }

  function SortBy<T>(le: (T, T) -> bool, s: seq<T>): (r: seq<T>)
    ensures multiset(r) == multiset(s)
  {
    if s == [] then []
    else
      assert s == [s[0]] + s[1..];
      Insert(le, s[0], SortBy(le, s[1..]))
  }

  lemma SameElements<T>(a: seq<T>, b: seq<T>)
    requires multiset(a) == multiset(b)
    ensures |a| == |b|
    ensures forall x :: x in a <==> x in b
  {
    assert |multiset(a)| == |multiset(b)|;
    forall x ensures x in a <==> x in b {
      assert x in a <==> x in multiset(a);
      assert x in b <==> x in multiset(b);
    }
  }

  lemma EmptyOrInhabited<T(!new)>(s: seq<T>)
    ensures s == [] || exists x :: x in s
  {
    if s != [] {
      assert s[0] in s;
    }
  }

  lemma {:induction false} InsertSorted<T(!new)>(le: (T, T) -> bool, x: T, s: seq<T>)
    requires TotalPreorder(le) && Sorted(le, s)
    ensures Sorted(le, Insert(le, x, s))
  {
    if s != [] && !le(x, s[0]) {
      InsertSorted(le, x, s[1..]);
      var tail := Insert(le, x, s[1..]);
      forall k | 0 <= k < |tail| ensures le(s[0], tail[k]) {
        assert tail[k] in multiset(tail);
        assert tail[k] == x || tail[k] in s[1..];
      }
    }
  }

  lemma {:induction false} SortSorted<T(!new)>(le: (T, T) -> bool, s: seq<T>)
    requires TotalPreorder(le)
    ensures Sorted(le, SortBy(le, s))
  {
    if s != [] {
      SortSorted(le, s[1..]);
      InsertSorted(le, s[0], SortBy(le, s[1..]));
    }
  }

  /** A tie-free multiset has exactly one sorted listing. */
  lemma {:induction false} SortedUnique<T(!new)>(le: (T, T) -> bool, a: seq<T>, b: seq<T>)
    requires multiset(a) == multiset(b)
    requires Sorted(le, a) && Sorted(le, b) && TieFree(le, a)
    requires TotalPreorder(le)
    ensures a == b
  {
    SameElements(a, b);
    if a != [] {
      SameHeads(le, a, b);
      TailElements(a);
      TailElements(b);
      TailSorted(le, a);
      TailSorted(le, b);
      SortedUnique(le, a[1..], b[1..]);
      SameHeadAndTail(a, b);
    }
  }

  lemma SameHeads<T(!new)>(le: (T, T) -> bool, a: seq<T>, b: seq<T>)
    requires a != [] && b != [] && b[0] in a && a[0] in b
    requires Sorted(le, a) && Sorted(le, b) && TieFree(le, a)
    requires TotalPreorder(le)
    ensures a[0] == b[0]
  {
    HeadIsLeast(le, a, b[0]);
    HeadIsLeast(le, b, a[0]);
  }

  lemma SameHeadAndTail<T>(a: seq<T>, b: seq<T>)
    requires a != [] && b != [] && a[0] == b[0] && a[1..] == b[1..]
    ensures a == b
  {
    assert a == [a[0]] + a[1..] && b == [b[0]] + b[1..];
  }

  lemma HeadIsLeast<T(!new)>(le: (T, T) -> bool, s: seq<T>, x: T)
    requires Sorted(le, s) && TotalPreorder(le) && x in s
    ensures le(s[0], x)
  {
    var k :| 0 <= k < |s| && s[k] == x;
    assert le(s[0], s[0]) || k > 0;
  }

  lemma TailSorted<T(!new)>(le: (T, T) -> bool, s: seq<T>)
    requires s != [] && Sorted(le, s)
    ensures Sorted(le, s[1..])
    ensures TieFree(le, s) ==> TieFree(le, s[1..])
  {
    forall i, j | 0 <= i < j < |s[1..]| ensures le(s[1..][i], s[1..][j]) {
      assert le(s[i + 1], s[j + 1]);
    }
  }

  lemma TailElements<T(!new)>(s: seq<T>)
    requires s != []
    ensures multiset(s[1..]) == multiset(s) - multiset{s[0]}
    ensures forall x :: x in s[1..] ==> x in s
  {
    assert s == [s[0]] + s[1..];
  }

  /** Sorting forgets the order of a tie-free input. */
  lemma SortForgetsOrder<T(!new)>(le: (T, T) -> bool, a: seq<T>, b: seq<T>)
    requires TotalPreorder(le) && multiset(a) == multiset(b) && TieFree(le, a)
    ensures SortBy(le, a) == SortBy(le, b)
  {
    SortSorted(le, a);
    SortSorted(le, b);
    SameElements(a, SortBy(le, a));
    SortedUnique(le, SortBy(le, a), SortBy(le, b));
  }

  lemma SortedConcat<T(!new)>(le: (T, T) -> bool, a: seq<T>, b: seq<T>)
    requires Sorted(le, a) && Sorted(le, b)
    requires forall x, y :: x in a && y in b ==> le(x, y)
    ensures Sorted(le, a + b)
  {
  }

  function Filter<T(!new)>(p: T -> bool, s: seq<T>): (r: seq<T>)
    ensures forall x :: x in r <==> x in s && p(x)
    ensures |r| <= |s|
  {
    if s == [] then [] else Kept(p, s[0]) + Filter(p, s[1..])
  }

  lemma {:induction false} FilterShrinks<T(!new)>(p: T -> bool, s: seq<T>, x: T)
    requires x in s && !p(x)
    ensures |Filter(p, s)| < |s|
  {
    if x in s[1..] {
      FilterShrinks(p, s[1..], x);
    }
  }

  /** A filter that drops one element more keeps fewer. */
  lemma {:induction false} FilterFewer<T(!new)>(p: T -> bool, q: T -> bool, s: seq<T>, x: T)
    requires forall y :: y in s && p(y) ==> q(y)
    ensures |Filter(p, s)| <= |Filter(q, s)|
    ensures x in s && q(x) && !p(x) ==> |Filter(p, s)| < |Filter(q, s)|
  {
    if s != [] {
      FilterFewer(p, q, s[1..], x);
    }
  }

  lemma {:induction false} FilterSplit<T(!new)>(p: T -> bool, q: T -> bool, s: seq<T>)
    requires forall x :: x in s ==> (p(x) <==> !q(x))
    ensures multiset(s) == multiset(Filter(p, s)) + multiset(Filter(q, s))
  {
    if s != [] {
      assert s == [s[0]] + s[1..];
      FilterSplit(p, q, s[1..]);
    }
  }

  lemma {:induction false} FilterCongruent<T(!new)>(p: T -> bool, q: T -> bool, s: seq<T>)
    requires forall x :: x in s ==> (p(x) <==> q(x))
    ensures Filter(p, s) == Filter(q, s)
  {
    if s != [] {
      FilterCongruent(p, q, s[1..]);
    }
  }

  lemma {:induction false} FilterMultiplicity<T(!new)>(p: T -> bool, s: seq<T>, x: T)
    ensures multiset(Filter(p, s))[x] == if p(x) then multiset(s)[x] else 0
  {
    if s != [] {
      assert s == [s[0]] + s[1..];
      FilterMultiplicity(p, s[1..], x);
    }
  }

  lemma FilterCount<T(!new)>(p: T -> bool, a: seq<T>, b: seq<T>)
    requires multiset(a) == multiset(b)
    ensures |Filter(p, a)| == |Filter(p, b)|
  {
    forall x ensures multiset(Filter(p, a))[x] == multiset(Filter(p, b))[x] {
      FilterMultiplicity(p, a, x);
      FilterMultiplicity(p, b, x);
    }
    assert multiset(Filter(p, a)) == multiset(Filter(p, b));
    SameElements(Filter(p, a), Filter(p, b));
  }

  /** The first `n` elements alone give the filter `n`. */
  lemma {:induction false} FilterFirst<T(!new)>(p: T -> bool, s: seq<T>, n: nat)
    requires n <= |s| && forall k :: 0 <= k < n ==> p(s[k])
    ensures |Filter(p, s)| >= n
  {
    if n > 0 {
      FilterFirst(p, s[1..], n - 1);
    }
  }

  lemma {:induction false} FilterLast<T(!new)>(p: T -> bool, s: seq<T>, from: nat)
    requires from <= |s| && forall k :: from <= k < |s| ==> p(s[k])
    ensures |Filter(p, s)| >= |s| - from
  {
    if from == 0 {
      FilterFirst(p, s, |s|);
    } else {
      FilterLast(p, s[1..], from - 1);
    }
  }

  lemma Associates<T>(a: seq<T>, b: seq<T>, c: seq<T>)
    ensures a + b + c == a + (b + c)
  {
  }

  function Kept<T>(p: T -> bool, x: T): seq<T> {
    if p(x) then [x] else []
  }

  lemma {:induction false} FilterSnoc<T(!new)>(p: T -> bool, s: seq<T>, x: T)
    ensures Filter(p, s + [x]) == Filter(p, s) + Kept(p, x)
  {
    if s == [] {
      assert s + [x] == [x] && [x][1..] == [];
    } else {
      var longer := s + [x];
      assert longer[0] == s[0] && longer[1..] == s[1..] + [x];
      FilterSnoc(p, s[1..], x);
      Associates(Kept(p, s[0]), Filter(p, s[1..]), Kept(p, x));
    }
  }

  lemma {:induction false} FilterSorted<T(!new)>(le: (T, T) -> bool, p: T -> bool, s: seq<T>)
    requires Sorted(le, s)
    ensures Sorted(le, Filter(p, s))
  {
    if s != [] {
      FilterSorted(le, p, s[1..]);
      var tail := Filter(p, s[1..]);
      forall k | 0 <= k < |tail| ensures le(s[0], tail[k]) {
        assert tail[k] in s[1..];
      }
    }
  }

  /** Lexicographic string order, the source language's `<=` on strings. */
  predicate LexLe(a: string, b: string) {
    if a == "" then true
    else if b == "" then false
    else if a[0] != b[0] then a[0] < b[0]
    else LexLe(a[1..], b[1..])
  }

  lemma {:induction false} LexTotal(a: string, b: string)
    ensures LexLe(a, b) || LexLe(b, a)
  {
    if a != "" && b != "" {
      LexTotal(a[1..], b[1..]);
    }
  }

  lemma {:induction false} LexAntisymmetric(a: string, b: string)
    requires LexLe(a, b) && LexLe(b, a)
    ensures a == b
  {
    if a != "" {
      LexAntisymmetric(a[1..], b[1..]);
      assert a == [a[0]] + a[1..] && b == [b[0]] + b[1..];
    }
  }

  lemma {:induction false} LexTransitive(a: string, b: string, c: string)
    requires LexLe(a, b) && LexLe(b, c)
    ensures LexLe(a, c)
  {
    if a != "" && a[0] == b[0] == c[0] {
      LexTransitive(a[1..], b[1..], c[1..]);
    }
  }

  /** One string comes before another exactly when it is a prefix of it, or smaller at the first difference. */
  lemma {:induction false} LexExactly(a: string, b: string)
    ensures LexLe(a, b) <==> a <= b || exists k :: 0 <= k < |a| && k < |b| && a[..k] == b[..k] && a[k] < b[k]
  {
    if a != "" && b != "" {
      if a[0] != b[0] {
        assert a[..0] == b[..0];
        assert forall k :: 0 < k <= |a| && k <= |b| ==> a[..k][0] == a[0] && b[..k][0] == b[0];
      } else {
        LexExactly(a[1..], b[1..]);
        LexShift(a, b);
      }
    }
  }

  lemma LexShift(a: string, b: string)
    requires a != "" && b != "" && a[0] == b[0]
    ensures a <= b <==> a[1..] <= b[1..]
    ensures (exists k :: 0 <= k < |a| && k < |b| && a[..k] == b[..k] && a[k] < b[k])
            <==> exists k :: 0 <= k < |a| - 1 && k < |b| - 1 && a[1..][..k] == b[1..][..k] && a[1..][k] < b[1..][k]
  {
    var x, y := a[1..], b[1..];
    assert a == [a[0]] + x && b == [b[0]] + y;
    forall k | 0 <= k < |x| && k < |y| ensures a[..k + 1] == b[..k + 1] <==> x[..k] == y[..k] {
      assert a[..k + 1] == [a[0]] + x[..k] && b[..k + 1] == [b[0]] + y[..k];
      assert a[..k + 1][1..] == x[..k] && b[..k + 1][1..] == y[..k];
    }
    if k :| 0 <= k < |a| && k < |b| && a[..k] == b[..k] && a[k] < b[k] {
      assert k > 0 && x[k - 1] == a[k] && y[k - 1] == b[k] && a[..(k - 1) + 1] == b[..(k - 1) + 1];
      assert x[..k - 1] == y[..k - 1];
    }
    if k :| 0 <= k < |x| && k < |y| && x[..k] == y[..k] && x[k] < y[k] {
      assert a[..k + 1] == b[..k + 1] && a[k + 1] < b[k + 1];
    }
  }

  lemma LexLaws()
    ensures forall a, b :: LexLe(a, b) || LexLe(b, a)
    ensures forall a, b :: LexLe(a, b) && LexLe(b, a) ==> a == b
    ensures forall a, b, c :: LexLe(a, b) && LexLe(b, c) ==> LexLe(a, c)
  {
    forall a, b ensures LexLe(a, b) || LexLe(b, a) { LexTotal(a, b); }
    forall a, b | LexLe(a, b) && LexLe(b, a) ensures a == b { LexAntisymmetric(a, b); }
    forall a, b, c | LexLe(a, b) && LexLe(b, c) ensures LexLe(a, c) { LexTransitive(a, b, c); }
  }

  ghost predicate Distinct<T>(s: seq<T>) {
    forall i, j :: 0 <= i < j < |s| ==> s[i] != s[j]
  }

  lemma {:induction false} DistinctCardinality<T>(s: seq<T>)
    ensures |(set x | x in s)| <= |s|
    ensures Distinct(s) <==> |(set x | x in s)| == |s|
  {
    if s != [] {
      var tail := s[1..];
      DistinctCardinality(tail);
      assert (set x | x in s) == {s[0]} + (set x | x in tail);
      if s[0] in tail {
        assert (set x | x in s) == (set x | x in tail);
        var k :| 0 <= k < |tail| && tail[k] == s[0];
        assert s[k + 1] == s[0];
      } else if Distinct(s) {
        forall i, j | 0 <= i < j < |tail| ensures tail[i] != tail[j] {
          assert s[i + 1] != s[j + 1];
        }
      } else {
        if Distinct(tail) {
          forall i, j | 0 <= i < j < |s| ensures s[i] != s[j] {
            if i > 0 {
              assert s[i] == tail[i - 1] && s[j] == tail[j - 1];
            } else {
              assert s[j] == tail[j - 1];
            }
          }
        }
      }
    }
  }

  lemma SortedKeys(keys: seq<string>)
    requires Distinct(keys)
    ensures forall x :: x in SortBy(LexLe, keys) <==> x in keys
    ensures forall i, j :: 0 <= i < j < |SortBy(LexLe, keys)| ==>
              LexLe(SortBy(LexLe, keys)[i], SortBy(LexLe, keys)[j]) && SortBy(LexLe, keys)[i] != SortBy(LexLe, keys)[j]
  {
    LexLaws();
    SortSorted(LexLe, keys);
    SameElements(SortBy(LexLe, keys), keys);
    assert (set x | x in SortBy(LexLe, keys)) == (set x | x in keys);
    DistinctCardinality(keys);
    DistinctCardinality(SortBy(LexLe, keys));
  }

  function Map<A, B>(f: A -> B, s: seq<A>): (r: seq<B>)
    ensures |r| == |s| && forall i :: 0 <= i < |s| ==> r[i] == f(s[i])
  {
    seq(|s|, i requires 0 <= i < |s| => f(s[i]))
  }

  /** Filtering the images is filtering by what the images show. */
  lemma {:induction false} FilterOfMap<A(!new), B(!new)>(f: A -> B, p: B -> bool, q: A -> bool, s: seq<A>)
    requires forall x :: x in s ==> (q(x) <==> p(f(x)))
    ensures |Filter(p, Map(f, s))| == |Filter(q, s)|
  {
    if s != [] {
      FilterOfMap(f, p, q, s[1..]);
      assert Map(f, s)[1..] == Map(f, s[1..]);
    }
  }

  lemma MapElements<A, B>(f: A -> B, s: seq<A>)
    ensures forall x :: x in s ==> f(x) in Map(f, s)
  {
    forall x | x in s ensures f(x) in Map(f, s) {
      var i :| 0 <= i < |s| && s[i] == x;
      assert Map(f, s)[i] == f(x);
    }
  }

  /** Two duplicate-free sequences with the same members have the same elements. */
  lemma {:induction false} SameMembersSameElements<T(!new)>(a: seq<T>, b: seq<T>)
    requires Distinct(a) && Distinct(b)
    requires forall x :: x in a <==> x in b
    ensures multiset(a) == multiset(b)
  {
    forall x ensures multiset(a)[x] == multiset(b)[x] {
      DistinctMultiplicity(a, x);
      DistinctMultiplicity(b, x);
    }
  }

  lemma {:induction false} DistinctMultiplicity<T(!new)>(s: seq<T>, x: T)
    requires Distinct(s)
    ensures multiset(s)[x] == if x in s then 1 else 0
  {
    if s != [] {
      assert s == [s[0]] + s[1..];
      forall i, j | 0 <= i < j < |s[1..]| ensures s[1..][i] != s[1..][j] {
        assert s[i + 1] != s[j + 1];
      }
      DistinctMultiplicity(s[1..], x);
    }
  }

  /** Pigeonhole: a duplicate-free selection as long as its duplicate-free source is all of it. */
  lemma DistinctSelectionIsAll<T(!new)>(a: seq<T>, b: seq<T>)
    requires Distinct(a) && Distinct(b) && |a| == |b|
    requires forall x :: x in a ==> x in b
    ensures forall x :: x in b ==> x in a
  {
    var sa, sb := set x | x in a, set x | x in b;
    DistinctCardinality(a);
    DistinctCardinality(b);
    assert sa <= sb;
    forall x | x in b ensures x in a {
      if x !in a {
        assert x in sb && sa <= sb - {x};
        SubsetCardinality(sa, sb - {x});
      }
    }
  }

  lemma {:induction false} SubsetCardinality<T>(a: set<T>, b: set<T>)
    requires a <= b
    ensures |a| <= |b|
  {
    assert b == a + (b - a);
  }

  /** The sum of `f` over a finite set. */
  ghost function Sum<T(!new)>(ids: set<T>, f: T -> real): real {
    if ids == {} then 0.0
    else
      var x :| x in ids;
      f(x) + Sum(ids - {x}, f)
  }

  /** Any element may be summed first. */
  lemma {:induction false} SumRemove<T(!new)>(ids: set<T>, f: T -> real, x: T)
    requires x in ids
    ensures Sum(ids, f) == f(x) + Sum(ids - {x}, f)
  {
    var y :| y in ids && Sum(ids, f) == f(y) + Sum(ids - {y}, f);
    if y != x {
      SumRemove(ids - {y}, f, x);
      SumRemove(ids - {x}, f, y);
      assert ids - {y} - {x} == ids - {x} - {y};
    }
  }

  lemma SumInsert<T(!new)>(ids: set<T>, f: T -> real, x: T)
    requires x !in ids
    ensures Sum(ids + {x}, f) == f(x) + Sum(ids, f)
  {
    SumRemove(ids + {x}, f, x);
    assert ids + {x} - {x} == ids;
  }

  lemma {:induction false} SumCongruent<T(!new)>(ids: set<T>, f: T -> real, g: T -> real)
    requires forall x :: x in ids ==> f(x) == g(x)
    ensures Sum(ids, f) == Sum(ids, g)
  {
    if ids != {} {
      var x :| x in ids;
      SumRemove(ids, f, x);
      SumRemove(ids, g, x);
      SumCongruent(ids - {x}, f, g);
    }
  }
}
