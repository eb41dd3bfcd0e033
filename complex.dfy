/**
 * The immutable complex-number value of complex.js. Every operation returns a
 * new value; a datatype cannot be mutated, so no operation can change its
 * receiver or its argument.
 */
module ComplexNumbers {
  import opened RealMath

  datatype Complex = Complex(re: real, im: real)

  /** An argument that JavaScript tests with `typeof other === 'number'`: a plain number or a Complex. */
  datatype Arg = Num(x: real) | Cx(c: Complex)

  /** The two exceptions complex.js throws. */
  datatype Error = DivisionByZero | ComplexExponent

  datatype Result<T> = Ok(value: T) | Err(error: Error)

  /** `new Complex(x)`: the constructor's imaginary part defaults to 0. */
  function Of(x: real): Complex {
    Complex(x, 0.0)
  }

  const Zero: Complex := Complex(0.0, 0.0)
  const One: Complex := Complex(1.0, 0.0)

  /** The value an argument stands for, a number being read as a Complex with zero imaginary part. */
  function Coerce(a: Arg): Complex {
    match a
    case Num(x) => Of(x)
    case Cx(c) => c
  }

  /** `re² + im²`, the squared magnitude: never negative, and zero only at zero. */
  function NormSq(c: Complex): (r: real)
    ensures r >= 0.0
    ensures r == 0.0 <==> c.re == 0.0 && c.im == 0.0
  {
    SumOfSquaresZero(c.re, c.im);
    Sq(c.re) + Sq(c.im)
  }

  /** `a.add(b)`; subtracting `b` again gives back `a`, and a number changes the real part only. */
  function Add(a: Complex, b: Arg): (r: Complex)
    ensures Sub(r, b) == a
    ensures b.Num? ==> r.im == a.im
  {
    match b
    case Num(x) => Complex(a.re + x, a.im)
    case Cx(c) => Complex(a.re + c.re, a.im + c.im)
  }

  /** `a.sub(b)`; a number changes the real part only. */
  function Sub(a: Complex, b: Arg): (r: Complex)
    ensures b.Num? ==> r.im == a.im
  {
    match b
    case Num(x) => Complex(a.re - x, a.im)
    case Cx(c) => Complex(a.re - c.re, a.im - c.im)
  }

  /** `a.mul(b)`: `(a.re·b.re − a.im·b.im, a.re·b.im + a.im·b.re)`; a number scales both parts. */
  function Mul(a: Complex, b: Arg): Complex {
    match b
    case Num(x) => Complex(a.re * x, a.im * x)
    case Cx(c) => Complex(a.re * c.re - a.im * c.im, a.re * c.im + a.im * c.re)
  }

  /** The squared magnitude of a product is the product of the squared magnitudes. */
  lemma MulNorm(a: Complex, c: Complex)
    ensures NormSq(Mul(a, Cx(c))) == NormSq(a) * NormSq(c)
  {
    var r := Mul(a, Cx(c));
    ProductNorm(a.re, a.im, c.re, c.im, r.re, r.im);
  }

  /** Brahmagupta–Fibonacci identity. */
  lemma ProductNorm(p: real, q: real, s: real, t: real, u: real, v: real)
    requires u == p * s - q * t && v == p * t + q * s
    ensures Sq(u) + Sq(v) == (Sq(p) + Sq(q)) * (Sq(s) + Sq(t))
  {
  }

  /**
   * `a.div(b)`: fails with DivisionByZero exactly when the divisor is zero (the
   * number 0, or a Complex whose squared magnitude is 0), and otherwise returns
   * the quotient, which multiplied by the divisor gives back `a`.
   */
  function Div(a: Complex, b: Arg): (r: Result<Complex>)
    ensures match b
      case Num(x) => if x == 0.0 then r == Err(DivisionByZero) else r.Ok? && Mul(r.value, b) == a
      case Cx(c) => if NormSq(c) == 0.0 then r == Err(DivisionByZero) else r.Ok? && Mul(r.value, b) == a
  {
    match b
    case Num(x) => DivByNumber(a, x)
    case Cx(c) => DivByComplex(a, c)
  }

  /** The `typeof other === 'number'` branch of `div`. */
  function DivByNumber(a: Complex, x: real): (r: Result<Complex>)
    ensures if x == 0.0 then r == Err(DivisionByZero) else r.Ok? && r.value.re * x == a.re && r.value.im * x == a.im
  {
    if x == 0.0 then Err(DivisionByZero)
    else
      var q := Complex(a.re / x, a.im / x);
      ScaleBack(a.re, x, q.re);
      ScaleBack(a.im, x, q.im);
      Ok(q)
  }

  /** The Complex branch of `div`: multiply by the conjugate, divide by the squared magnitude. */
  function DivByComplex(a: Complex, c: Complex): (r: Result<Complex>)
    ensures if NormSq(c) == 0.0 then r == Err(DivisionByZero) else r.Ok? && Mul(r.value, Cx(c)) == a
  {
    if NormSq(c) == 0.0 then Err(DivisionByZero) else Ok(ConjugateQuotient(a, c))
  }

  /** `(a.re·c.re + a.im·c.im, a.im·c.re − a.re·c.im) / (c.re² + c.im²)` */
  function ConjugateQuotient(a: Complex, c: Complex): (q: Complex)
    requires NormSq(c) != 0.0
    ensures Mul(q, Cx(c)) == a
  {
    var d := NormSq(c);
    var q := Complex((a.re * c.re + a.im * c.im) / d, (a.im * c.re - a.re * c.im) / d);
    QuotientTimesDivisor(a, c, d, q);
    q
  }

  lemma ScaleBack(v: real, x: real, q: real)
    requires x != 0.0 && q == v / x
    ensures q * x == v
  {
  }

  /** The quotient formula of `div`, multiplied back by the divisor, gives the dividend. */
  lemma QuotientTimesDivisor(a: Complex, c: Complex, d: real, q: Complex)
    requires d == NormSq(c) && d != 0.0
    requires q.re == (a.re * c.re + a.im * c.im) / d
    requires q.im == (a.im * c.re - a.re * c.im) / d
    ensures q.re * c.re - q.im * c.im == a.re
    ensures q.re * c.im + q.im * c.re == a.im
  {
    var u := a.re * c.re + a.im * c.im;
    var w := a.im * c.re - a.re * c.im;
    ScaleBack(u, d, q.re);
    ScaleBack(w, d, q.im);
    Recombine(a.re, a.im, c.re, c.im, d, u, w);
    var x := q.re * c.re - q.im * c.im;
    var y := q.re * c.im + q.im * c.re;
    ScaledSum(q.re, q.im, c.re, c.im, d, u, w, x, -1.0);
    Cancel(x, a.re, d);
    ScaledCross(q.re, q.im, c.re, c.im, d, u, w, y);
    Cancel(y, a.im, d);
  }

  /** `(a·c̄)·c = a·|c|²`, componentwise. */
  lemma Recombine(p: real, q: real, s: real, t: real, d: real, u: real, w: real)
    requires d == Sq(s) + Sq(t) && u == p * s + q * t && w == q * s - p * t
    ensures u * s - w * t == p * d
    ensures u * t + w * s == q * d
  {
  }

  lemma ScaledSum(x: real, y: real, s: real, t: real, d: real, u: real, w: real, r: real, sign: real)
    requires x * d == u && y * d == w && sign == -1.0 && r == x * s + sign * y * t
    ensures r * d == u * s - w * t
  {
  }

  lemma ScaledCross(x: real, y: real, s: real, t: real, d: real, u: real, w: real, r: real)
    requires x * d == u && y * d == w && r == x * t + y * s
    ensures r * d == u * t + w * s
  {
  }

  lemma Cancel(x: real, y: real, d: real)
    requires d != 0.0 && x * d == y * d
    ensures x == y
  {
    ScaleBack(x * d, d, x * d / d);
  }

  /** `c.abs()`: the square root of the squared magnitude, so non-negative with square `re² + im²`. */
  function Abs(m: Prims, c: Complex): (r: real)
    ensures Lawful(m) ==> r >= 0.0 && Sq(r) == NormSq(c)
  {
    Sqrt(m, NormSq(c))
  }

  /** `c.magnitude()`, the alias of `abs()`. */
  function Magnitude(m: Prims, c: Complex): (r: real)
    ensures r == Abs(m, c)
  {
    Abs(m, c)
  }

  /** `Complex.abs(c)`: `Math.abs` of a number, `abs()` of a Complex. */
  function StaticAbs(m: Prims, c: Arg): (r: real)
    ensures c.Num? ==> r >= 0.0 && (r == c.x || r == -c.x)
    ensures c.Cx? ==> r == Abs(m, c.c)
  {
    match c
    case Num(x) => RealAbs(x)
    case Cx(z) => Abs(m, z)
  }

  /** `Complex.I()`, a square root of -1. */
  function I(): (r: Complex)
    ensures Mul(r, Cx(r)) == Of(-1.0)
  {
    Complex(0.0, 1.0)
  }

  // ----- Reference properties of the arithmetic -----

  /** The number fast paths of add, sub, mul and div agree with the Complex path on `new Complex(x)`. */
  lemma NumberFastPaths(a: Complex, x: real)
    ensures Add(a, Num(x)) == Add(a, Cx(Of(x)))
    ensures Sub(a, Num(x)) == Sub(a, Cx(Of(x)))
    ensures Mul(a, Num(x)) == Mul(a, Cx(Of(x)))
    ensures Div(a, Num(x)) == Div(a, Cx(Of(x)))
  {
    if x != 0.0 {
      var q := Div(a, Cx(Of(x))).value;
      assert q.re == (a.re * x) / (x * x) == a.re / x;
      assert q.im == (a.im * x) / (x * x) == a.im / x;
    }
  }

  /** Adding back what was subtracted restores the value. */
  lemma SubThenAdd(a: Complex, b: Arg)
    ensures Add(Sub(a, b), b) == a
  {
  }

  /** Complex multiplication is commutative. */
  lemma MulCommutes(a: Complex, b: Complex)
    ensures Mul(a, Cx(b)) == Mul(b, Cx(a))
  {
  }

  /** Complex multiplication is associative. */
  lemma MulAssociates(a: Complex, b: Complex, c: Complex)
    ensures Mul(Mul(a, Cx(b)), Cx(c)) == Mul(a, Cx(Mul(b, Cx(c))))
  {
  }

  /** `new Complex(1)` is the unit of multiplication. */
  lemma OneIsUnit(a: Complex)
    ensures Mul(One, Cx(a)) == a && Mul(a, Cx(One)) == a
  {
  }

  /** Dividing by a divisor and multiplying back round-trips, for every divisor with a nonzero squared magnitude. */
  lemma DivThenMul(a: Complex, b: Complex)
    requires NormSq(b) != 0.0
    ensures Div(a, Cx(b)).Ok? && Mul(Div(a, Cx(b)).value, Cx(b)) == a
  {
  }

  /** `Complex.abs` of a number agrees with `abs()` of the Complex it stands for. */
  lemma StaticAbsOfNumber(m: Prims, x: real)
    requires Lawful(m)
    ensures StaticAbs(m, Num(x)) == Abs(m, Of(x)) == RealAbs(x)
  {
    assert Of(x).re * Of(x).re + Of(x).im * Of(x).im == x * x;
    SqrtOfSquare(m, x);
  }

  /** `abs()` is zero only at zero. */
  lemma AbsZeroIffZero(m: Prims, c: Complex)
    requires Lawful(m)
    ensures Abs(m, c) == 0.0 <==> c == Zero
  {
    SqrtZero(m, NormSq(c));
  }

  /** A magnitude of at least `eps > 0` means a nonzero squared magnitude, so a division by it cannot fail. */
  lemma AbsBoundedAwayFromZero(m: Prims, c: Complex, eps: real)
    requires Lawful(m) && eps > 0.0 && Abs(m, c) >= eps
    ensures NormSq(c) > 0.0
  {
    SqrtZero(m, NormSq(c));
  }

  // ----- Powers -----

  /** Whether `Number.isInteger(e) && e >= 0`. */
  predicate IsNatural(e: real) {
    e >= 0.0 && e == e.Floor as real
  }

  /** Iterated multiplication: `a⁰ = 1+0i`, `aⁿ⁺¹ = aⁿ·a`. */
  function PowNat(a: Complex, n: nat): (r: Complex)
    ensures n == 0 ==> r == One
  {
    if n == 0 then One else Mul(PowNat(a, n - 1), Cx(a))
  }

  /** The polar-form branch of `Complex.pow`, built on the opaque primitives. */
  function Polar(m: Prims, a: Complex, e: real): Complex {
    var r := Rpow(m, Abs(m, a), e);
    var theta := Atan2(m, a.im, a.re);
    Complex(r * Cos(m, e * theta), r * Sin(m, e * theta))
  }

  /**
   * `Complex.pow(base, exponent)`: a number base is first read as a Complex; a
   * non-negative integer exponent multiplies `1+0i` by the base that many times;
   * another number exponent takes the polar branch; a Complex exponent raises.
   */
  method Pow(m: Prims, base: Arg, exponent: Arg) returns (r: Result<Complex>)
    ensures exponent.Cx? ==> r == Err(ComplexExponent)
    ensures exponent.Num? && IsNatural(exponent.x) ==> r == Ok(PowNat(Coerce(base), exponent.x.Floor))
    ensures exponent.Num? && !IsNatural(exponent.x) ==> r == Ok(Polar(m, Coerce(base), exponent.x))
  {
    var b := Coerce(base);
    match exponent
    case Cx(_) =>
      r := Err(ComplexExponent);
    case Num(e) =>
      if IsNatural(e) {
        var result := One;
        var i := 0;
        while i < e.Floor
          invariant 0 <= i <= e.Floor
          invariant result == PowNat(b, i)
        {
          result := Mul(result, Cx(b));
          i := i + 1;
        }
        r := Ok(result);
      } else {
        r := Ok(Polar(m, b, e));
      }
  }

  /** Exponent 2 is a non-negative integer, so it takes the loop and yields `a·a`. */
  lemma PowTwoIsSquare(a: Complex)
    ensures IsNatural(2.0) && (2.0).Floor == 2
    ensures PowNat(a, 2) == Mul(a, Cx(a))
  {
    OneIsUnit(a);
  }

  /** Powers add: `aⁱ⁺ʲ = aⁱ·aʲ`. */
  lemma {:induction false} PowNatAdds(a: Complex, i: nat, j: nat)
    ensures PowNat(a, i + j) == Mul(PowNat(a, i), Cx(PowNat(a, j)))
  {
    if j == 0 {
      OneIsUnit(PowNat(a, i));
    } else {
      PowNatAdds(a, i, j - 1);
      MulAssociates(PowNat(a, i), PowNat(a, j - 1), a);
    }
  }

  /** The squared magnitude of `aⁿ` is that of `a` raised to `n`. */
  lemma {:induction false} PowNatNorm(a: Complex, n: nat)
    ensures NormSq(PowNat(a, n)) == RealPow(NormSq(a), n)
  {
    if n > 0 {
      PowNatNorm(a, n - 1);
      MulNorm(PowNat(a, n - 1), a);
    }
  }

  function RealPow(v: real, n: nat): real {
    if n == 0 then 1.0 else RealPow(v, n - 1) * v
  }
}
