/** Small wrapper for operations that can trap in the source (an array
    subscript out of range, converting NaN to Int). */
module Wrappers {
  datatype Option<+T> = None | Some(value: T)
}

/** The numeric primitives the carousel uses, on mathematical reals:
    Swift's `Int(_:)` conversion (truncation toward zero), the
    `truncatingRemainder(dividingBy:)` followed by the "add the divisor when
    negative" fix-up that the source repeats four times, and Swift's
    schoolbook `round`. */
module Numerics {

  /** Swift's `Int(x)` for a finite `x`: truncation toward zero. */
  function Trunc(x: real): (n: int)
    ensures x >= 0.0 ==> n == x.Floor
    ensures x < 0.0 ==> x <= n as real < x + 1.0
    ensures n as real - 1.0 < x < n as real + 1.0
    ensures -x == x ==> n == 0
  {
    if x >= 0.0 then x.Floor else -((-x).Floor)
  }

  /** `x.truncatingRemainder(dividingBy: d)`: `x - d * trunc(x / d)`; it has
      the sign of `x`. */
  function TruncRem(x: real, d: real): real
    requires d != 0.0
  {
    x - d * Trunc(x / d) as real
  }

  /** The source's reduction idiom: take the truncating remainder and, when it
      is negative, add the divisor back. */
  function Reduce(x: real, d: real): real
    requires d != 0.0
  {
    var r := TruncRem(x, d);
    if r < 0.0 then r + d else r
  }

  /** True of reals with no fractional part. */
  predicate IsWhole(x: real) {
    x.Floor as real == x
  }

  /** The floor is the one integer `k` with `k <= x < k + 1`. */
  lemma FloorUnique(x: real, k: int)
    requires k as real <= x < k as real + 1.0
    ensures x.Floor == k
  {
  }

  // Sign facts about products, stated once so that the proofs below only
  // need linear reasoning around them.

  lemma MulNonneg(p: real, q: real)
    requires p >= 0.0 && q >= 0.0
    ensures p * q >= 0.0
  {
  }

  lemma Square(p: real)
    ensures p * p >= 0.0
  {
  }

  lemma MulPos(p: real, q: real)
    requires p > 0.0 && q > 0.0
    ensures p * q > 0.0
  {
  }

  lemma MulMono(c: real, a: real, b: real)
    requires c >= 0.0 && a <= b
    ensures c * a <= c * b
  {
    MulNonneg(c, b - a);
    assert c * b - c * a == c * (b - a);
  }

  lemma MulStrict(c: real, a: real, b: real)
    requires c > 0.0 && a < b
    ensures c * a < c * b
  {
    MulPos(c, b - a);
    assert c * b - c * a == c * (b - a);
  }

  lemma DivCancel(x: real, d: real)
    requires d != 0.0
    ensures (x / d) * d == x && d * (x / d) == x
  {
  }

  lemma DivSum(a: real, b: real, c: real)
    requires c != 0.0
    ensures a / c + b / c == (a + b) / c
  {
  }

  lemma DivAsProduct(a: real, c: real)
    requires c != 0.0
    ensures (1.0 / c) * a == a / c
  {
  }

  lemma DivSelf(c: real)
    requires c != 0.0
    ensures c / c == 1.0
  {
  }

  /** The quotient is the one `y` with `y * c == z`. */
  lemma DivUnique(y: real, c: real, z: real)
    requires c != 0.0 && y * c == z
    ensures y == z / c
  {
  }

  /** A quotient of `a` in `[0, c]` by `c > 0` lies in `[0, 1]`. */
  lemma DivUnitInterval(a: real, c: real)
    requires c > 0.0 && 0.0 <= a <= c
    ensures 0.0 <= a / c <= 1.0
    ensures a < c ==> a / c < 1.0
    ensures a > 0.0 ==> a / c > 0.0
  {
    DivCancel(a, c);
    var q := a / c;
    if q < 0.0 {
      MulStrict(c, q, 0.0);
      assert false;
    }
    if q > 1.0 {
      MulStrict(c, 1.0, q);
      assert false;
    }
    if a < c && q >= 1.0 {
      MulMono(c, 1.0, q);
      assert false;
    }
    if a > 0.0 && q <= 0.0 {
      MulMono(c, q, 0.0);
      assert false;
    }
  }

  /** Dividing by a positive number keeps strict order. */
  lemma DivStrict(a: real, b: real, c: real)
    requires c > 0.0 && a < b
    ensures a / c < b / c
  {
    DivCancel(a, c);
    DivCancel(b, c);
  }

  lemma MulByZero(a: real, b: real)
    requires a == 0.0
    ensures a * b == 0.0
  {
  }

  lemma MulByOne(a: real, b: real)
    requires a == 1.0 || a == -1.0
    ensures a * b == if a == 1.0 then b else -b
  {
  }

  /** If `x - d * k` lies in `[0, d)` then `k` is the floor of `x / d`. */
  lemma QuotientUnique(x: real, d: real, k: int)
    requires d > 0.0
    requires 0.0 <= x - d * k as real < d
    ensures (x / d).Floor == k
  {
    var q := x / d;
    var f := q - k as real;
    DivCancel(x, d);
    assert d * f == x - d * k as real;
    if f < 0.0 {
      MulStrict(d, f, 0.0);
      assert false;
    }
    if f >= 1.0 {
      MulMono(d, 1.0, f);
      assert false;
    }
    FloorUnique(q, k);
  }

  /** `d * f` for `f` in `[0, 1)` lies in `[0, d)`. */
  lemma ScaledFraction(d: real, f: real, r: real)
    requires d > 0.0 && 0.0 <= f < 1.0 && r == d * f
    ensures 0.0 <= r < d
  {
    MulMono(d, 0.0, f);
    MulStrict(d, f, 1.0);
  }

  /** `d * f` for `f` in `(-1, 0]` lies in `(-d, 0]`. */
  lemma ScaledNegFraction(d: real, f: real, r: real)
    requires d > 0.0 && -1.0 < f <= 0.0 && r == d * f
    ensures -d < r <= 0.0
  {
    MulStrict(d, -1.0, f);
    MulMono(d, f, 0.0);
  }

  /** A quotient by a positive divisor has the sign of the dividend. */
  lemma QuotientSign(x: real, d: real)
    requires d > 0.0
    ensures x >= 0.0 <==> x / d >= 0.0
  {
    DivCancel(x, d);
    if x / d < 0.0 {
      MulStrict(d, x / d, 0.0);
    } else {
      MulMono(d, 0.0, x / d);
    }
  }

  /** The truncating remainder has the sign of `x` and is smaller than `d`
      in magnitude. */
  lemma TruncRemBounds(x: real, d: real)
    requires d > 0.0
    ensures x >= 0.0 ==> 0.0 <= TruncRem(x, d) < d
    ensures x < 0.0 ==> -d < TruncRem(x, d) <= 0.0
  {
    var q := x / d;
    var t := Trunc(q);
    var f := q - t as real;
    DivCancel(x, d);
    var r := TruncRem(x, d);
    assert r == d * f;
    QuotientSign(x, d);
    if x >= 0.0 {
      ScaledFraction(d, f, r);
    } else {
      ScaledNegFraction(d, f, r);
    }
  }

  /** The reduction is the Euclidean remainder: it lies in `[0, d)` and
      differs from `x` by a whole multiple of `d`. */
  lemma ReduceIsEuclidean(x: real, d: real)
    requires d > 0.0
    ensures 0.0 <= Reduce(x, d) < d
    ensures Reduce(x, d) == x - d * (x / d).Floor as real
  {
    var t := Trunc(x / d);
    TruncRemBounds(x, d);
    var r := TruncRem(x, d);
    assert r == x - d * t as real;
    if r < 0.0 {
      assert x - d * (t - 1) as real == r + d;
      QuotientUnique(x, d, t - 1);
    } else {
      QuotientUnique(x, d, t);
    }
  }

  /** Whenever `x - d * k` is in `[0, d)` for a whole `k`, that is the reduction. */
  lemma ReduceByQuotient(x: real, d: real, k: int)
    requires d > 0.0
    requires 0.0 <= x - d * k as real < d
    ensures Reduce(x, d) == x - d * k as real
  {
    ReduceIsEuclidean(x, d);
    QuotientUnique(x, d, k);
  }

  /** Shifting by whole periods does not change the reduction. */
  lemma ReducePeriodic(x: real, d: real, k: int)
    requires d > 0.0
    ensures Reduce(x + d * k as real, d) == Reduce(x, d)
  {
    var m := (x / d).Floor;
    ReduceIsEuclidean(x, d);
    ShiftedRemainder(x, d, m, k);
    SameRemainder(x, x + d * k as real, d, m, m + k);
  }

  /** Two reals with the same in-range remainder for some quotients have the
      same reduction. */
  lemma SameRemainder(x: real, y: real, d: real, m: int, n: int)
    requires d > 0.0 && 0.0 <= x - d * m as real < d
    requires y - d * n as real == x - d * m as real
    ensures Reduce(y, d) == Reduce(x, d)
  {
    ReduceByQuotient(x, d, m);
    ReduceByQuotient(y, d, n);
  }

  lemma ShiftedRemainder(x: real, d: real, m: int, k: int)
    ensures (x + d * k as real) - d * (m + k) as real == x - d * m as real
  {
    ScaleSum(d, m, k);
  }

  lemma ScaleSum(d: real, m: int, k: int)
    ensures d * (m + k) as real == d * m as real + d * k as real
  {
  }

  /** One period. */
  lemma ReduceShift(x: real, d: real)
    requires d > 0.0
    ensures Reduce(x + d, d) == Reduce(x, d)
  {
    ReducePeriodic(x, d, 1);
    assert d * 1 as real == d;
  }

  /** The fractional part is unchanged by adding a whole number. */
  lemma FractionShift(x: real, k: int)
    ensures Reduce(x + k as real, 1.0) == Reduce(x, 1.0)
  {
    ReducePeriodic(x, 1.0, k);
    assert 1.0 * k as real == k as real;
  }

  /** A multiple of `n` strictly between `-n` and `n` is zero. */
  lemma SmallMultiple(n: int, z: int)
    requires n > 0 && -n < n * z < n
    ensures z == 0
  {
    if z >= 1 {
      assert n * z == n * (z - 1) + n;
      IntMulNonneg(n, z - 1);
    } else if z <= -1 {
      assert n * z == -(n * (-z - 1)) - n;
      IntMulNonneg(n, -z - 1);
    }
  }

  lemma IntMulNonneg(a: int, b: int)
    requires a >= 0 && b >= 0
    ensures a * b >= 0
  {
  }

  /** Euclidean division is determined by any quotient and in-range remainder. */
  lemma DivModUnique(x: int, n: int, q: int, r: int)
    requires n > 0 && 0 <= r < n && x == n * q + r
    ensures x / n == q && x % n == r
  {
    var q', r' := x / n, x % n;
    assert n * q' + r' == n * q + r;
    assert n * (q' - q) == r - r';
    SmallMultiple(n, q' - q);
  }

  lemma CastMul(a: int, b: int)
    ensures (a * b) as real == a as real * b as real
  {
  }

  /** Euclidean division of integers, seen in the reals. */
  lemma DivModReal(k: int, n: int)
    requires n > 0
    ensures k as real == n as real * (k / n) as real + (k % n) as real
  {
    CastMul(n, k / n);
  }

  /** Swift's `round(_:)`: to the nearest whole number, halfway cases away
      from zero. */
  function Round(x: real): (n: int)
    ensures -0.5 <= n as real - x <= 0.5
    ensures n as real - x == 0.5 ==> x > 0.0
    ensures n as real - x == -0.5 ==> x < 0.0
  {
    if x >= 0.0 then (x + 0.5).Floor else -((-x + 0.5).Floor)
  }

  /** `Round` picks a nearest whole number: no integer is closer. */
  lemma RoundNearest(x: real, k: int)
    ensures Abs(x - Round(x) as real) <= Abs(x - k as real)
  {
    var n := Round(x);
    if k < n {
      assert k as real <= n as real - 1.0;
    } else if k > n {
      assert k as real >= n as real + 1.0;
    }
  }

  /** Whole numbers round to themselves. */
  lemma RoundWhole(k: int)
    ensures Round(k as real) == k
  {
    var n := Round(k as real);
    assert -0.5 <= (n - k) as real <= 0.5;
  }

  /** Schoolbook rounding is symmetric about zero. */
  lemma RoundOdd(x: real)
    ensures Round(-x) == -Round(x)
  {
  }

  function Abs(x: real): (a: real)
    ensures a >= 0.0 && (a == x || a == -x)
  {
    if x < 0.0 then -x else x
  }
}
