/**
 Exact arithmetic behind the replica calculator: ratios and ceilings over `real`
 (the source uses float64), Go's truncating integer division, and the integer
 facts about floored averages that the theorems rest on.
 */
module Arithmetic {

  function Abs(x: real): real {
    if x < 0.0 then -x else x
  }

  /** `math.Ceil`, as an integer. */
  function Ceil(x: real): (c: int)
    ensures c as real - 1.0 < x <= c as real
  {
    -((-x).Floor)
  }

  /** `math.Ceil(ratio * float64(n))`. */
  function RoundUp(ratio: real, n: int): int {
    Ceil(ratio * n as real)
  }

  function Max(a: int, b: int): int {
    if a < b then b else a
  }

  function Min(a: int, b: int): int {
    if a < b then a else b
  }

  function MaxReal(a: real, b: real): real {
    if a < b then b else a
  }

  /** Go's integer division: rounds toward zero. */
  function TruncDiv(a: int, b: int): (q: int)
    requires 0 < b
    ensures 0 <= a ==> q * b <= a < q * b + b
  {
    if 0 <= a then a / b else -((-a) / b)
  }

  /** `float64(a) / float64(b)`. */
  function Ratio(a: int, b: int): real
    requires 0 < b
  {
    a as real / b as real
  }

  lemma {:induction false} ProductNonNegative(x: real, y: real)
    requires 0.0 <= x && 0.0 <= y
    ensures 0.0 <= x * y
  {
  }

  lemma {:induction false} ProductPositive(x: real, y: real)
    requires 0.0 < x && 0.0 < y
    ensures 0.0 < x * y
  {
  }

  lemma {:induction false} RatioTimes(a: int, b: int)
    requires 0 < b
    ensures Ratio(a, b) * b as real == a as real
  {
  }

  /** A ratio compares with 1 as its numerator compares with its denominator. */
  lemma {:induction false} RatioVersusOne(a: int, b: int)
    requires 0 < b
    ensures Ratio(a, b) < 1.0 <==> a < b
    ensures Ratio(a, b) > 1.0 <==> a > b
    ensures 0 <= a ==> 0.0 <= Ratio(a, b)
  {
    RatioTimes(a, b);
    var r, t := Ratio(a, b), b as real;
    MulOrder(r, 1.0, t);
    MulOrder(1.0, r, t);
    MulOrder(r, 0.0, t);
  }

  lemma {:induction false} RatioMonotone(a: int, a': int, b: int)
    requires 0 < b && a <= a'
    ensures Ratio(a, b) <= Ratio(a', b)
  {
    RatioTimes(a, b);
    RatioTimes(a', b);
    var r, r', t := Ratio(a, b), Ratio(a', b), b as real;
    if r > r' {
      ProductPositive(r - r', t);
    }
  }

  lemma {:induction false} CeilMonotone(x: real, y: real)
    requires x <= y
    ensures Ceil(x) <= Ceil(y)
  {
  }

  /** Rounding up a product keeps it on the same side of an integer as the factor is of 1. */
  lemma {:induction false} CeilScaled(r: real, n: nat)
    requires 0.0 <= r
    ensures 0 <= RoundUp(r, n)
    ensures r <= 1.0 ==> RoundUp(r, n) <= n
    ensures r >= 1.0 ==> RoundUp(r, n) >= n
  {
    var m := n as real;
    ProductNonNegative(r, m);
    if r <= 1.0 {
      ProductNonNegative(1.0 - r, m);
    }
    if r >= 1.0 {
      ProductNonNegative(r - 1.0, m);
    }
  }

  lemma {:induction false} CeilScaledMonotone(r: real, r': real, n: nat)
    requires r <= r'
    ensures RoundUp(r, n) <= RoundUp(r', n)
  {
    ProductNonNegative(r' - r, n as real);
    CeilMonotone(r * n as real, r' * n as real);
  }

  /** Multiplying by a positive factor keeps and reflects the order. */
  lemma {:induction false} MulOrder(x: real, y: real, t: real)
    requires 0.0 < t
    ensures x < y <==> x * t < y * t
    ensures x <= y <==> x * t <= y * t
  {
    if x < y {
      ProductPositive(y - x, t);
    } else if y < x {
      ProductPositive(x - y, t);
    }
  }

  lemma {:induction false} ScaleBounds(r: real, t: real, m: real, lo: real, hi: real)
    requires 0.0 < t
    requires lo < r * m <= hi
    ensures lo * t < (r * t) * m <= hi * t
  {
    var p := r * m;
    assert (r * t) * m == p * t;
    MulOrder(lo, p, t);
    MulOrder(p, hi, t);
  }

  lemma {:induction false} ProductAsReal(a: int, b: int)
    ensures (a * b) as real == a as real * b as real
  {
  }

  lemma {:induction false} RoundUpReal(a: int, b: int, n: int)
    requires 0 < b
    ensures var c := RoundUp(Ratio(a, b), n);
      (c - 1) as real * b as real < a as real * n as real <= c as real * b as real
  {
    var r, c := Ratio(a, b), RoundUp(Ratio(a, b), n);
    RatioTimes(a, b);
    hide Ratio;
    ScaleBounds(r, b as real, n as real, (c - 1) as real, c as real);
  }

  lemma {:induction false} OrderFromReals(x: int, y: int, z: int, x': real, y': real, z': real)
    requires x as real == x' && y as real == y' && z as real == z' && x' < y' <= z'
    ensures x < y <= z
  {
  }

  /** `RoundUp(a/b, n)` is the integer ceiling of `a*n/b`. */
  lemma {:induction false} CeilOfRatio(a: int, b: int, n: int)
    requires 0 < b
    ensures var c := RoundUp(Ratio(a, b), n); (c - 1) * b < a * n <= c * b
  {
    var c := RoundUp(Ratio(a, b), n);
    RoundUpReal(a, b, n);
    hide RoundUp, Ratio;
    ProductAsReal(c - 1, b);
    ProductAsReal(a, n);
    ProductAsReal(c, b);
    OrderFromReals((c - 1) * b, a * n, c * b, (c - 1) as real * b as real, a as real * n as real,
      c as real * b as real);
  }

  /** The quotient is the largest integer whose multiple stays below. */
  lemma {:induction false} DivAtLeast(a: int, b: int, q: int)
    requires 0 < b
    ensures q <= a / b <==> q * b <= a
  {
    QuotientBounds(a / b, a % b, b, q);
  }

  lemma {:induction false} MulNonNegative(x: int, y: int)
    requires 0 <= x && 0 <= y
    ensures 0 <= x * y
  {
  }

  lemma {:induction false} Distribute(x: int, y: int, b: int)
    ensures (x - y) * b == x * b - y * b
  {
  }

  lemma {:induction false} DistributeAdd(t: int, x: int, y: int)
    ensures t * (x + y) == t * x + t * y
  {
  }

  lemma {:induction false} MulLe(x: int, y: int, b: int)
    requires x <= y && 0 <= b
    ensures x * b <= y * b
  {
    MulNonNegative(y - x, b);
    Distribute(y, x, b);
  }

  lemma {:induction false} QuotientBounds(d: int, rest: int, b: int, q: int)
    requires 0 <= rest < b
    ensures q <= d <==> q * b <= d * b + rest
  {
    if q <= d {
      MulLe(q, d, b);
    } else {
      MulLe(d + 1, q, b);
      Distribute(d + 1, d, b);
    }
  }

  lemma {:induction false} DivMonotone(a: int, a': int, b: int)
    requires 0 < b && a <= a'
    ensures a / b <= a' / b
  {
    DivAtLeast(a, b, a / b);
    DivAtLeast(a', b, a / b);
  }

  /** Enlarging the divisor never raises a non-negative quotient. */
  lemma {:induction false} DivLargerDivisor(a: int, b: int, more: int)
    requires 0 <= a && 0 < b && 0 <= more
    ensures a / (b + more) <= a / b
  {
    var q := a / (b + more);
    DivAtLeast(a, b + more, q);
    DivAtLeast(a, b, q);
    DivAtLeast(a, b + more, 0);
    assert q * more >= 0;
    assert q * (b + more) == q * b + q * more;
  }

  /**
   The floored mediant inequality: mixing in a share that sits exactly at `level`
   moves a floored average toward `level` and never past it.
   */
  lemma {:induction false} FlooredMediant(a: int, b: int, level: int, more: int)
    requires 0 < b && 0 <= more
    ensures Min(a / b, level) <= (a + level * more) / (b + more) <= Max(a / b, level)
  {
    var q, lo, hi := (a + level * more) / (b + more), Min(a / b, level), Max(a / b, level);
    DivAtLeast(a, b, lo);
    assert (level - lo) * more >= 0;
    assert lo * (b + more) <= a + level * more by {
      assert lo * (b + more) == lo * b + lo * more;
      assert (level - lo) * more == level * more - lo * more;
    }
    DivAtLeast(a + level * more, b + more, lo);
    DivAtLeast(a, b, hi + 1);
    DivAtLeast(a + level * more, b + more, hi + 1);
    assert (hi - level) * more >= 0;
    assert (hi + 1) * (b + more) == (hi + 1) * b + hi * more + more;
    assert (hi - level) * more == hi * more - level * more;
  }

  /** `f` to the power `k`. */
  function Pow(f: real, k: nat): real {
    if k == 0 then 1.0 else f * Pow(f, k - 1)
  }

  lemma {:induction false} PowAtLeastOne(f: real, k: nat)
    requires 1.0 <= f
    ensures 1.0 <= Pow(f, k)
  {
    if k > 0 {
      PowAtLeastOne(f, k - 1);
      ProductNonNegative(f - 1.0, Pow(f, k - 1));
    }
  }
}
