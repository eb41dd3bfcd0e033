/**
 * The modal basis of the square plate and the point field built on it
 * (script.js: calculateFunc, calculateKmn, calculatePsi).
 *
 * The field at (x, y) for wave number k is the sum over the modes (m, n) of
 *   f(m,n,x,y) · f(m,n,x0,y0) / ((k² − kmn²) + 2iγk),
 * where a mode whose denominator has magnitude below 1e-9 is skipped.
 * The same guarded sum, at the source point and with another mode count,
 * is the heart of the zero-dimensional response (see response.dfy), so the
 * sum is defined once here over a `Drive`: the Complex k² and damping term.
 */
module Modal {
  import opened RealMath
  import opened ComplexNumbers

  /** The globals the engine reads: plate side, grid resolution, damping, the two mode counts and the source point. */
  datatype Params = Params(L: real, gridSize: int, gamma: real, S: nat, S0k: nat, x0: real, y0: real)

  /** A denominator whose magnitude is below this is treated as zero. */
  const Tiny: real := 0.000000001

  datatype Option<T> = None | Some(value: T)

  /** What one modal sum is driven by: the (Complex) square of the wave number and the damping term added to every denominator. */
  datatype Drive = Drive(kSq: Complex, damping: Complex)

  /** The amplitude `2/L` of every mode shape. */
  function Amplitude(L: real): (a: real)
    requires L > 0.0
    ensures a > 0.0
  {
    QuotientPositive(2.0, L, 2.0 / L);
    2.0 / L
  }

  /** The phase `jπu/L` of one cosine factor. */
  function Phase(mp: Prims, L: real, j: int, u: real): real
    requires L > 0.0
  {
    j as real * mp.pi * u / L
  }

  /** `calculateFunc(m, n, x, y)`: `(2/L)·cos(mπx/L)·cos(nπy/L)`. */
  function ModeValue(mp: Prims, L: real, m: int, n: int, x: real, y: real): real
    requires L > 0.0
  {
    Amplitude(L) * Cos(mp, Phase(mp, L, m, x)) * Cos(mp, Phase(mp, L, n, y))
  }

  /** Every mode shape is bounded by its amplitude 2/L. */
  lemma ModeValueBounded(mp: Prims, L: real, m: int, n: int, x: real, y: real)
    requires Lawful(mp) && L > 0.0
    ensures -Amplitude(L) <= ModeValue(mp, L, m, n, x, y) <= Amplitude(L)
  {
    var a := Amplitude(L);
    var c1 := Cos(mp, Phase(mp, L, m, x));
    var c2 := Cos(mp, Phase(mp, L, n, y));
    BoundedProduct(a, c1, a * c1, a);
    BoundedProduct(a * c1, c2, ModeValue(mp, L, m, n, x, y), a);
  }

  /** `calculateKmn(m, n)`: `(π/L)·sqrt(n² + m²)`. */
  function Kmn(mp: Prims, L: real, m: int, n: int): real
    requires L > 0.0
  {
    mp.pi / L * Sqrt(mp, Sq(n as real) + Sq(m as real))
  }

  /** The wave number of mode (m, n) is non-negative and its square is the eigenvalue `(π/L)²(m² + n²)`. */
  lemma KmnSquared(mp: Prims, L: real, m: int, n: int)
    requires Lawful(mp) && L > 0.0
    ensures Kmn(mp, L, m, n) >= 0.0
    ensures Sq(Kmn(mp, L, m, n)) == Sq(mp.pi / L) * (Sq(n as real) + Sq(m as real))
  {
    var a := mp.pi / L;
    var e := Sq(n as real) + Sq(m as real);
    SqNonNegative(n as real);
    SqNonNegative(m as real);
    var s := Sqrt(mp, e);
    assert s >= 0.0 && Sq(s) == e;
    assert a > 0.0;
    ProductNonNegative(a, s, a * s);
    SqOfProduct(a, s, a * s);
  }

  /** The denominator of mode (m, n): `k² − kmn² + damping`. */
  function Denominator(d: Drive, kmnSq: real): Complex {
    Add(Sub(d.kSq, Num(kmnSq)), Cx(d.damping))
  }

  /** One guarded term: skipped (None) when `|den| < 1e-9`, else `numerator / den`. */
  function GuardedTerm(mp: Prims, numerator: real, den: Complex): Option<Complex> {
    if Abs(mp, den) < Tiny then None
    else match Div(Of(numerator), Cx(den))
      case Ok(q) => Some(q)
      case Err(_) => None
  }

  /** A term is skipped exactly when its denominator's magnitude is below 1e-9. */
  lemma GuardedTermSkips(mp: Prims, numerator: real, den: Complex)
    requires Lawful(mp)
    ensures GuardedTerm(mp, numerator, den).None? <==> Abs(mp, den) < Tiny
  {
    if Abs(mp, den) >= Tiny {
      AbsBoundedAwayFromZero(mp, den, Tiny);
    }
  }

  /** The guard makes the division safe: a kept term is a true quotient of the numerator by the denominator. */
  lemma GuardedTermDivides(mp: Prims, numerator: real, den: Complex)
    requires Lawful(mp) && Abs(mp, den) >= Tiny
    ensures GuardedTerm(mp, numerator, den).Some?
    ensures Mul(GuardedTerm(mp, numerator, den).value, Cx(den)) == Of(numerator)
  {
    AbsBoundedAwayFromZero(mp, den, Tiny);
    var r := Div(Of(numerator), Cx(den));
    assert r.Ok? && Mul(r.value, Cx(den)) == Of(numerator);
  }

  /** A point of the unit plate, in the plate's own length unit. */
  datatype Point = Point(x: real, y: real)

  /** The numerator of mode (m, n): the mode shape at the observation point times the mode shape at the source point. */
  function Coupling(mp: Prims, L: real, m: nat, n: nat, obs: Point, src: Point): real
    requires L > 0.0
  {
    ModeValue(mp, L, m, n, obs.x, obs.y) * ModeValue(mp, L, m, n, src.x, src.y)
  }

  lemma CouplingAt(mp: Prims, L: real, m: nat, n: nat, obs: Point, src: Point, f: real, g: real)
    requires L > 0.0
    requires f == ModeValue(mp, L, m, n, obs.x, obs.y) && g == ModeValue(mp, L, m, n, src.x, src.y)
    ensures f * g == Coupling(mp, L, m, n, obs, src)
  {
  }

  /** The guarded term of mode (m, n) for the field at `obs` driven from `src`. */
  function ModeTerm(mp: Prims, L: real, obs: Point, src: Point, d: Drive, m: nat, n: nat): Option<Complex>
    requires L > 0.0
  {
    GuardedTerm(mp, Coupling(mp, L, m, n, obs, src), Denominator(d, Sq(Kmn(mp, L, m, n))))
  }

  /** `acc` plus the kept terms of row n for m = 0 .. count-1, added in that order. */
  function RowSum(mp: Prims, L: real, obs: Point, src: Point, d: Drive, acc: Complex, n: nat, count: nat): Complex
    requires L > 0.0
  {
    if count == 0 then acc
    else
      var s := RowSum(mp, L, obs, src, d, acc, n, count - 1);
      match ModeTerm(mp, L, obs, src, d, count - 1, n)
      case None => s
      case Some(t) => Add(s, Cx(t))
  }

  /** The sum over rows n = 0 .. rows-1, each over m = 0 .. modes-1, starting from 0+0i: the order of the two nested loops. */
  function ModalSum(mp: Prims, L: real, obs: Point, src: Point, d: Drive, rows: nat, modes: nat): Complex
    requires L > 0.0
  {
    if rows == 0 then Zero
    else RowSum(mp, L, obs, src, d, ModalSum(mp, L, obs, src, d, rows - 1, modes), rows - 1, modes)
  }

  /** The drive of calculatePsi at a real wave number: `k²` and `2iγk`. */
  function PsiDrive(gamma: real, k: real): Drive {
    Drive(Of(k * k), Complex(0.0, 2.0 * gamma * k))
  }

  /** The field at (x, y) with S modes in each direction, driven from the source point (x0, y0). */
  function PsiValue(mp: Prims, prm: Params, x: real, y: real, k: real): Complex
    requires prm.L > 0.0
  {
    ModalSum(mp, prm.L, Point(x, y), Point(prm.x0, prm.y0), PsiDrive(prm.gamma, k), prm.S, prm.S)
  }

  /** The denominator calculatePsi builds, `(k² − kmn²) + 2iγk`, is the shared one with a real k² and damping `2iγk`. */
  lemma PsiDenominator(gamma: real, k: real, kmnSq: real)
    ensures Add(Of(k * k - kmnSq), Cx(Complex(0.0, 2.0 * gamma * k))) == Denominator(PsiDrive(gamma, k), kmnSq)
  {
  }

  /**
   * `calculatePsi(x, y, k)`: the nested loops over n and m, skipping a mode
   * whose denominator is below 1e-9 and only then dividing, so the division
   * never raises.
   */
  method CalculatePsi(mp: Prims, prm: Params, x: real, y: real, k: real) returns (psi: Complex)
    requires Lawful(mp) && prm.L > 0.0
    ensures psi == PsiValue(mp, prm, x, y, k)
  {
    psi := Complex(0.0, 0.0);
    var n := 0;
    while n < prm.S
      invariant 0 <= n <= prm.S
      invariant psi == ModalSum(mp, prm.L, Point(x, y), Point(prm.x0, prm.y0), PsiDrive(prm.gamma, k), n, prm.S)
    {
      psi := PsiRow(mp, prm, x, y, k, n, psi);
      n := n + 1;
    }
  }

  /** The inner loop of calculatePsi: row n, m = 0 .. S-1, added to the running sum. */
  method PsiRow(mp: Prims, prm: Params, x: real, y: real, k: real, n: nat, start: Complex) returns (psi: Complex)
    requires Lawful(mp) && prm.L > 0.0
    ensures psi == RowSum(mp, prm.L, Point(x, y), Point(prm.x0, prm.y0), PsiDrive(prm.gamma, k), start, n, prm.S)
  {
    psi := start;
    var m := 0;
    while m < prm.S
      invariant 0 <= m <= prm.S
      invariant psi == RowSum(mp, prm.L, Point(x, y), Point(prm.x0, prm.y0), PsiDrive(prm.gamma, k), start, n, m)
    {
      psi := AddPsiTerm(mp, prm, x, y, k, m, n, psi);
      m := m + 1;
    }
  }

  /**
   * The body of calculatePsi's inner loop: the mode shapes at both points, the
   * denominator `(k² − kmn²) + 2iγk`, and the division only when the
   * denominator's magnitude is at least 1e-9.
   */
  method AddPsiTerm(mp: Prims, prm: Params, x: real, y: real, k: real, m: nat, n: nat, psi: Complex) returns (next: Complex)
    requires Lawful(mp) && prm.L > 0.0
    ensures next == match ModeTerm(mp, prm.L, Point(x, y), Point(prm.x0, prm.y0), PsiDrive(prm.gamma, k), m, n)
                    case None => psi
                    case Some(t) => Add(psi, Cx(t))
  {
    var fxy := ModeValue(mp, prm.L, m, n, x, y);
    var f0 := ModeValue(mp, prm.L, m, n, prm.x0, prm.y0);
    var kmnSq := Sq(Kmn(mp, prm.L, m, n));
    var den := Add(Of(k * k - kmnSq), Cx(Complex(0.0, 2.0 * prm.gamma * k)));
    PsiDenominator(prm.gamma, k, kmnSq);
    ModeTermAt(mp, prm.L, Point(x, y), Point(prm.x0, prm.y0), PsiDrive(prm.gamma, k), m, n, fxy, f0, den);
    next := psi;
    if Abs(mp, den) >= Tiny {
      GuardedTermKept(mp, fxy * f0, den);
      var term := Div(Of(fxy * f0), Cx(den));
      next := Add(psi, Cx(term.value));
    }
  }

  /** The term of mode (m, n) is the guarded quotient of the two mode shapes' product by the mode's denominator. */
  lemma ModeTermAt(mp: Prims, L: real, obs: Point, src: Point, d: Drive, m: nat, n: nat, f: real, g: real, den: Complex)
    requires L > 0.0
    requires f == ModeValue(mp, L, m, n, obs.x, obs.y) && g == ModeValue(mp, L, m, n, src.x, src.y)
    requires den == Denominator(d, Sq(Kmn(mp, L, m, n)))
    ensures ModeTerm(mp, L, obs, src, d, m, n) == GuardedTerm(mp, f * g, den)
  {
    CouplingAt(mp, L, m, n, obs, src, f, g);
  }

  /** A kept term is the quotient itself. */
  lemma GuardedTermKept(mp: Prims, numerator: real, den: Complex)
    requires Lawful(mp) && Abs(mp, den) >= Tiny
    ensures Div(Of(numerator), Cx(den)).Ok?
    ensures GuardedTerm(mp, numerator, den) == Some(Div(Of(numerator), Cx(den)).value)
  {
    AbsBoundedAwayFromZero(mp, den, Tiny);
  }

  /** With no modes the field is 0+0i. */
  lemma PsiWithoutModes(mp: Prims, prm: Params, x: real, y: real, k: real)
    requires prm.L > 0.0 && prm.S == 0
    ensures PsiValue(mp, prm, x, y, k) == Zero
  {
  }

  /** Each numerator is a product of two mode shapes, so it does not change when the two points trade places. */
  lemma CouplingSymmetric(mp: Prims, L: real, m: nat, n: nat, obs: Point, src: Point)
    requires L > 0.0
    ensures Coupling(mp, L, m, n, obs, src) == Coupling(mp, L, m, n, src, obs)
  {
    var f := ModeValue(mp, L, m, n, obs.x, obs.y);
    var g := ModeValue(mp, L, m, n, src.x, src.y);
    ProductCommutes(f, g, Coupling(mp, L, m, n, obs, src), Coupling(mp, L, m, n, src, obs));
  }

  lemma {:induction false} RowSumSymmetric(mp: Prims, L: real, obs: Point, src: Point, d: Drive, acc: Complex, n: nat, count: nat)
    requires L > 0.0
    ensures RowSum(mp, L, obs, src, d, acc, n, count) == RowSum(mp, L, src, obs, d, acc, n, count)
  {
    if count > 0 {
      RowSumSymmetric(mp, L, obs, src, d, acc, n, count - 1);
      CouplingSymmetric(mp, L, count - 1, n, obs, src);
    }
  }

  lemma {:induction false} ModalSumSymmetric(mp: Prims, L: real, obs: Point, src: Point, d: Drive, rows: nat, modes: nat)
    requires L > 0.0
    ensures ModalSum(mp, L, obs, src, d, rows, modes) == ModalSum(mp, L, src, obs, d, rows, modes)
  {
    if rows > 0 {
      ModalSumSymmetric(mp, L, obs, src, d, rows - 1, modes);
      RowSumSymmetric(mp, L, obs, src, d, ModalSum(mp, L, obs, src, d, rows - 1, modes), rows - 1, modes);
    }
  }

  /** Reciprocity: swapping the observation point and the source point leaves the field unchanged. */
  lemma PsiSymmetric(mp: Prims, prm: Params, x: real, y: real, k: real)
    requires prm.L > 0.0
    ensures PsiValue(mp, prm, x, y, k) == PsiValue(mp, prm.(x0 := x, y0 := y), prm.x0, prm.y0, k)
  {
    ModalSumSymmetric(mp, prm.L, Point(x, y), Point(prm.x0, prm.y0), PsiDrive(prm.gamma, k), prm.S, prm.S);
  }
}
