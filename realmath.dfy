/**
 * The parts of JavaScript's `Math` the engine relies on, over the real numbers.
 *
 * `Math.sqrt`, `Math.cos`, `Math.sin`, `Math.atan2`, `Math.pow` (on reals) and
 * `Math.PI` have no exact definition over `real`, so they are not defined here:
 * a `Prims` value carries them as opaque total functions, and `Lawful` states the
 * few laws the rest of the model needs from them.
 */
module RealMath {

  datatype Prims = Prims(
    pi: real,
    sqrt: real -> real,
    cos: real -> real,
    sin: real -> real,
    atan2: (real, real) -> real,
    rpow: (real, real) -> real)

  /** The laws assumed of the primitives: a positive pi, the principal square root, and a bounded cosine. */
  ghost predicate Lawful(m: Prims) {
    && m.pi > 0.0
    && (forall x: real :: x >= 0.0 ==> Sqrt(m, x) >= 0.0 && Sq(Sqrt(m, x)) == x)
    && (forall x: real :: -1.0 <= Cos(m, x) <= 1.0)
  }

  /** `Math.sqrt` */
  function Sqrt(m: Prims, x: real): real {
    m.sqrt(x)
  }

  /** `Math.cos` */
  function Cos(m: Prims, x: real): real {
    m.cos(x)
  }

  /** `Math.sin` */
  function Sin(m: Prims, x: real): real {
    m.sin(x)
  }

  /** `Math.atan2(y, x)` */
  function Atan2(m: Prims, y: real, x: real): real {
    m.atan2(y, x)
  }

  /** `Math.pow` on two reals */
  function Rpow(m: Prims, b: real, e: real): real {
    m.rpow(b, e)
  }

  /** `v * v`, also `Math.pow(v, 2)`; the sign facts about it are the lemmas below. */
  function Sq(v: real): real
  {
    v * v
  }

  /** `Math.abs` on a real */
  function RealAbs(v: real): (r: real)
    ensures r >= 0.0 && (r == v || r == -v)
  {
    if v < 0.0 then -v else v
  }

  /** `Math.max(lo, Math.min(hi, v))` */
  function Clamp(lo: real, hi: real, v: real): (r: real)
    requires lo <= hi
    ensures lo <= r <= hi
    ensures lo <= v <= hi ==> r == v
    ensures v < lo ==> r == lo
    ensures hi < v ==> r == hi
  {
    if hi < v then hi else if v < lo then lo else v
  }

  /** `Math.max(lo, Math.min(hi, v))` on integers */
  function ClampInt(lo: int, hi: int, v: int): (r: int)
    requires lo <= hi
    ensures lo <= r <= hi
    ensures lo <= v <= hi ==> r == v
    ensures v < lo ==> r == lo
    ensures hi < v ==> r == hi
  {
    if hi < v then hi else if v < lo then lo else v
  }

  /** A product named `a` of a nonzero number with itself is positive. */
  lemma SelfProductPositive(v: real, a: real)
    requires a == v * v && v != 0.0
    ensures a > 0.0
  {
    if v > 0.0 {
      ProductPositive(v, v, a);
    } else {
      NegatedProduct(v, v, a);
      ProductPositive(-v, -v, a);
    }
  }

  lemma NegatedProduct(x: real, y: real, p: real)
    requires p == x * y
    ensures p == (-x) * (-y)
  {
  }

  lemma SqNonNegative(v: real)
    ensures Sq(v) >= 0.0
  {
  }

  lemma SqPositive(v: real)
    requires v != 0.0
    ensures Sq(v) > 0.0
  {
    SelfProductPositive(v, Sq(v));
  }

  lemma SqZero(v: real)
    requires Sq(v) == 0.0
    ensures v == 0.0
  {
    if v != 0.0 {
      SqPositive(v);
    }
  }

  /** A sum of two squares vanishes exactly when both numbers do. */
  lemma SumOfSquaresZero(u: real, v: real)
    ensures Sq(u) + Sq(v) >= 0.0
    ensures Sq(u) + Sq(v) == 0.0 <==> u == 0.0 && v == 0.0
  {
    SqNonNegative(u);
    SqNonNegative(v);
    if u != 0.0 {
      SqPositive(u);
    } else if v != 0.0 {
      SqPositive(v);
    }
  }

  /** `s*s - a*a`, factored, with the factors named by the caller. */
  lemma DifferenceOfSquares(s: real, a: real, d: real, t: real)
    requires d == s - a && t == s + a
    ensures Sq(s) - Sq(a) == d * t
  {
  }

  lemma ProductPositive(x: real, y: real, p: real)
    requires x > 0.0 && y > 0.0 && p == x * y
    ensures p > 0.0
  {
  }

  /** Two non-negative reals with the same square are equal. */
  lemma SquaresDetermineNonNegatives(s: real, a: real)
    requires s >= 0.0 && a >= 0.0 && Sq(s) == Sq(a)
    ensures s == a
  {
    if a < s {
      var d, t := s - a, s + a;
      DifferenceOfSquares(s, a, d, t);
      ProductPositive(d, t, Sq(s) - Sq(a));
    } else if s < a {
      var d, t := a - s, a + s;
      DifferenceOfSquares(a, s, d, t);
      ProductPositive(d, t, Sq(a) - Sq(s));
    }
  }

  lemma SqOfAbs(v: real)
    ensures Sq(RealAbs(v)) == Sq(v)
  {
  }

  /** A square root that obeys the laws is unique: it is the absolute value of any number whose square is its argument. */
  lemma {:induction false} SqrtOfSquare(m: Prims, v: real)
    requires Lawful(m)
    ensures Sqrt(m, Sq(v)) == RealAbs(v)
  {
    SqNonNegative(v);
    var s := Sqrt(m, Sq(v));
    assert s >= 0.0 && Sq(s) == Sq(v);
    SqOfAbs(v);
    SquaresDetermineNonNegatives(s, RealAbs(v));
  }

  /** The root of a non-negative number is zero exactly when the number is. */
  lemma SqrtZero(m: Prims, x: real)
    requires Lawful(m) && x >= 0.0
    ensures Sqrt(m, x) >= 0.0
    ensures Sqrt(m, x) == 0.0 <==> x == 0.0
  {
    var s := Sqrt(m, x);
    assert Sq(s) == x;
    if x == 0.0 {
      SqZero(s);
    }
  }

  lemma ProductNonNegative(x: real, y: real, p: real)
    requires x >= 0.0 && y >= 0.0 && p == x * y
    ensures p >= 0.0
  {
  }

  /** Multiplying by a factor in [-1, 1] keeps a value within a symmetric bound. */
  lemma BoundedProduct(u: real, c: real, p: real, bound: real)
    requires -bound <= u <= bound && -1.0 <= c <= 1.0 && p == u * c
    ensures -bound <= p <= bound
  {
    var bc := bound * c;
    if c >= 0.0 {
      ProductNonNegative(bound - u, c, bc - p);
      ProductNonNegative(bound + u, c, bc + p);
      ProductNonNegative(bound, 1.0 - c, bound - bc);
    } else {
      ProductNonNegative(bound + u, -c, -bc - p);
      ProductNonNegative(bound - u, -c, p - bc);
      ProductNonNegative(bound, 1.0 + c, bound + bc);
    }
  }

  lemma SqOfProduct(a: real, s: real, p: real)
    requires p == a * s
    ensures Sq(p) == Sq(a) * Sq(s)
  {
  }

  lemma ProductCommutes(a: real, b: real, p: real, q: real)
    requires p == a * b && q == b * a
    ensures p == q
  {
  }

  lemma QuotientPositive(p: real, q: real, r: real)
    requires p > 0.0 && q > 0.0 && r == p / q
    ensures r > 0.0
  {
    if r <= 0.0 {
      ProductNonNegative(q, -r, -(q * r));
    }
  }

  /** A share `p / r` of a positive whole `r`, with `0 <= p <= r`, lies in [0, 1]. */
  lemma QuotientInUnit(p: real, r: real, q: real)
    requires r > 0.0 && 0.0 <= p <= r && q == p / r
    ensures 0.0 <= q <= 1.0
  {
    assert q * r == p;
    if q < 0.0 {
      ProductNonNegative(-q, r, -(q * r));
    } else if q > 1.0 {
      ProductPositive(q - 1.0, r, q * r - r);
    }
  }

  /** Dividing by a positive number keeps the order, strictly for strictly ordered numerators. */
  lemma QuotientMonotone(p1: real, p2: real, r: real, q1: real, q2: real)
    requires r > 0.0 && p1 <= p2 && q1 == p1 / r && q2 == p2 / r
    ensures q1 <= q2
    ensures p1 < p2 ==> q1 < q2
  {
    assert q1 * r == p1 && q2 * r == p2;
    if q2 - q1 < 0.0 {
      ProductPositive(q1 - q2, r, p1 - p2);
    }
  }

  lemma QuotientOfSelf(r: real, q: real)
    requires r > 0.0 && q == r / r
    ensures q == 1.0
  {
    assert q * r == r;
    if q < 1.0 {
      ProductPositive(1.0 - q, r, r - q * r);
    } else if q > 1.0 {
      ProductPositive(q - 1.0, r, q * r - r);
    }
  }
}
