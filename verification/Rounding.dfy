/** Exact rounding on integers (daybreak_risk/rounding.py). Money is counted in quanta of 1e-10; a rate is
    a fraction with a positive denominator, so a product of money and a rate is an exact fraction too. */
module Rounding {

  const CENT := 100_000_000

  datatype Ratio = Ratio(num: int, den: int)

  type Rate = r: Ratio | 0 <= r.num && 0 < r.den witness Ratio(0, 1)

  /** The largest whole number of cents that is at most n/d. */
  function FloorToCent(n: int, d: int): int
    requires d > 0
  {
    assert d * CENT > 0 by { MulPositive(d, CENT); }
    (n / (d * CENT)) * CENT
  }

  function RoundDownToIncrement(value: int, increment: int): int
    requires increment > 0
  {
    (value / increment) * increment
  }

  function RoundUpToIncrement(value: int, increment: int): int
    requires increment > 0
  {
    -((-value) / increment) * increment
  }

  /** n/d rounded to the nearest integer, ties to even. */
  function HalfEven(n: int, d: int): int
    requires d > 0
  {
    var q, r := n / d, n % d;
    if 2 * r < d then q
    else if 2 * r > d then q + 1
    else if q % 2 == 0 then q
    else q + 1
  }

  lemma MulPositive(a: int, b: int)
    requires a > 0 && b > 0
    ensures a * b > 0
  {
  }

  lemma MulMonotone(a: int, b: int, c: int)
    requires a <= b && c >= 0
    ensures a * c <= b * c
  {
  }

  /** Floor division is the greatest quotient: n <= a/b exactly when n*b <= a. */
  lemma FloorDivision(a: int, b: int, n: int)
    requires b > 0
    ensures n <= a / b <==> n * b <= a
  {
    var q := a / b;
    assert a == q * b + a % b;
    if n <= q {
      MulMonotone(n, q, b);
    } else {
      MulMonotone(q + 1, n, b);
      assert (q + 1) * b == q * b + b;
    }
  }

  lemma FloorDivisionMonotone(a: int, a': int, b: int)
    requires b > 0 && a <= a'
    ensures a / b <= a' / b
  {
    FloorDivision(a, b, a / b);
    FloorDivision(a', b, a / b);
  }

  /** The floor to cents is the greatest whole number of cents not above the exact value. */
  lemma FloorToCentIsGreatest(n: int, d: int, cents: int)
    requires d > 0
    ensures FloorToCent(n, d) % CENT == 0
    ensures FloorToCent(n, d) * d <= n
    ensures cents * CENT <= FloorToCent(n, d) <==> cents * CENT * d <= n
  {
    MulPositive(d, CENT);
    var q := n / (d * CENT);
    FloorDivision(n, d * CENT, q);
    FloorDivision(n, d * CENT, cents);
    assert q * CENT * d == q * (d * CENT) && cents * CENT * d == cents * (d * CENT);
    MultipleOfCent(q);
  }

  lemma MultipleOfCent(q: int)
    ensures (q * CENT) % CENT == 0
  {
  }

  lemma FloorToCentMonotone(n: int, n': int, d: int)
    requires d > 0 && n <= n'
    ensures FloorToCent(n, d) <= FloorToCent(n', d)
  {
    MulPositive(d, CENT);
    FloorDivisionMonotone(n, n', d * CENT);
  }

  /** The nearest multiples around a value. */
  lemma IncrementsBracket(value: int, increment: int)
    requires increment > 0
    ensures RoundDownToIncrement(value, increment) <= value < RoundDownToIncrement(value, increment) + increment
    ensures RoundUpToIncrement(value, increment) - increment < value <= RoundUpToIncrement(value, increment)
  {
    assert value == (value / increment) * increment + value % increment;
    assert -value == ((-value) / increment) * increment + (-value) % increment;
    assert -((-value) / increment) * increment == -(((-value) / increment) * increment);
  }

  /** Half-even rounding is within half a unit of the exact value, and even on a tie. */
  lemma HalfEvenIsNearest(n: int, d: int)
    requires d > 0
    ensures -d <= 2 * (HalfEven(n, d) * d - n) <= d
    ensures 2 * (HalfEven(n, d) * d - n) == d || 2 * (HalfEven(n, d) * d - n) == -d ==> HalfEven(n, d) % 2 == 0
  {
    var q, r := n / d, n % d;
    assert n == q * d + r;
    assert (q + 1) * d == q * d + d;
  }

  /** The nearest integer, ties to even. */
  function NearestEven(x: real): int {
    var below := x.Floor;
    var rest := x - below as real;
    if rest < 0.5 then below
    else if rest > 0.5 then below + 1
    else if below % 2 == 0 then below
    else below + 1
  }

  lemma NearestEvenIsNearest(x: real)
    ensures -0.5 <= NearestEven(x) as real - x <= 0.5
    ensures NearestEven(x) as real - x in {-0.5, 0.5} ==> NearestEven(x) % 2 == 0
  {
  }

  /** An integer is the nearest one exactly when it is less than half a unit away, or half a unit and even. */
  lemma NearestEvenExactly(x: real, n: int)
    ensures NearestEven(x) == n <==> RoundsAway(x - n as real, n)
  {
    NearestEvenIsNearest(x);
  }

  /** An error of `off` is rounded away at the integer `n`. */
  predicate RoundsAway(off: real, n: int) {
    -0.5 < off < 0.5 || ((off == 0.5 || off == -0.5) && n % 2 == 0)
  }

  /** Whole values are left alone. */
  lemma NearestEvenOfWhole(n: int)
    ensures NearestEven(n as real) == n
  {
  }
}
