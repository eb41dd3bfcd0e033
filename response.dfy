/**
 * The zero-dimensional response of the plate (script.js: countk).
 *
 * For a Complex wave number k, the guarded modal sum is taken at the source
 * point itself with S0_k modes in each direction, and then fed back through
 * `|sum / (1 + 3.3·sum)|`, which is 0 when the feedback denominator has
 * magnitude below 1e-9.
 */
module Response {
  import opened RealMath
  import opened ComplexNumbers
  import opened Modal

  /** The feedback gain in `1 + 3.3·sum`. */
  const Gain: real := 3.3

  /** The drive of countk: `Complex.pow(k, 2)` and `(2iγ)·k`. */
  function CountKDrive(gamma: real, k: Complex): Drive {
    Drive(PowNat(k, 2), Mul(Complex(0.0, 2.0 * gamma), Cx(k)))
  }

  /** The source point (x0, y0). */
  function Source(prm: Params): Point {
    Point(prm.x0, prm.y0)
  }

  /** countk's modal sum: the guarded sum at the source point, driven from the source point, with S0_k modes. */
  function SourceSum(mp: Prims, prm: Params, k: Complex): Complex
    requires prm.L > 0.0
  {
    ModalSum(mp, prm.L, Source(prm), Source(prm), CountKDrive(prm.gamma, k), prm.S0k, prm.S0k)
  }

  /** `1 + 3.3·sum` */
  function FeedbackDenominator(sum: Complex): Complex {
    Add(Of(1.0), Cx(Mul(sum, Num(Gain))))
  }

  /** `|sum / (1 + 3.3·sum)|`, or 0 when the denominator's magnitude is below 1e-9. */
  function ResponseOf(mp: Prims, sum: Complex): real {
    var den := FeedbackDenominator(sum);
    if Abs(mp, den) < Tiny then 0.0
    else match Div(sum, Cx(den))
      case Ok(q) => Magnitude(mp, q)
      case Err(_) => 0.0
  }

  /** The value countk returns for the wave number k. */
  function ResponseValue(mp: Prims, prm: Params, k: Complex): real
    requires prm.L > 0.0
  {
    ResponseOf(mp, SourceSum(mp, prm, k))
  }

  /** `countk(k)`: the modal sum at the source point, then the guarded feedback quotient's magnitude. */
  method CountK(mp: Prims, prm: Params, k: Complex) returns (r: real)
    requires Lawful(mp) && prm.L > 0.0
    ensures r == ResponseValue(mp, prm, k)
  {
    PowTwoIsSquare(k);
    var kSq := Pow(mp, Cx(k), Num(2.0));
    var term3 := Mul(Complex(0.0, 2.0 * prm.gamma), Cx(k));
    var sum := CountKSum(mp, prm, kSq.value, term3);
    var den := Add(Of(1.0), Cx(Mul(sum, Num(Gain))));
    if Abs(mp, den) < Tiny {
      return 0.0;
    }
    FeedbackKept(mp, sum);
    var q := Div(sum, Cx(den));
    r := Magnitude(mp, q.value);
  }

  /** The two loops of countk over n and m below S0_k, for the drive `k_sq` and `term3_base`. */
  method CountKSum(mp: Prims, prm: Params, kSq: Complex, term3: Complex) returns (sum: Complex)
    requires Lawful(mp) && prm.L > 0.0
    ensures sum == ModalSum(mp, prm.L, Source(prm), Source(prm), Drive(kSq, term3), prm.S0k, prm.S0k)
  {
    sum := Complex(0.0, 0.0);
    var n := 0;
    while n < prm.S0k
      invariant 0 <= n <= prm.S0k
      invariant sum == ModalSum(mp, prm.L, Source(prm), Source(prm), Drive(kSq, term3), n, prm.S0k)
    {
      sum := CountKRow(mp, prm, kSq, term3, n, sum);
      n := n + 1;
    }
  }

  /** The inner loop of countk: row n, m = 0 .. S0_k-1, added to the running sum. */
  method CountKRow(mp: Prims, prm: Params, kSq: Complex, term3: Complex, n: nat, start: Complex) returns (sum: Complex)
    requires Lawful(mp) && prm.L > 0.0
    ensures sum == RowSum(mp, prm.L, Source(prm), Source(prm), Drive(kSq, term3), start, n, prm.S0k)
  {
    sum := start;
    var m := 0;
    while m < prm.S0k
      invariant 0 <= m <= prm.S0k
      invariant sum == RowSum(mp, prm.L, Source(prm), Source(prm), Drive(kSq, term3), start, n, m)
    {
      sum := AddCountKTerm(mp, prm, kSq, term3, m, n, sum);
      m := m + 1;
    }
  }

  /**
   * The body of countk's inner loop: the squared mode shape at the source
   * point over `(k² − kmn²) + 2iγk`, skipped when that denominator's magnitude
   * is below 1e-9.
   */
  method AddCountKTerm(mp: Prims, prm: Params, kSq: Complex, term3: Complex, m: nat, n: nat, sum: Complex) returns (next: Complex)
    requires Lawful(mp) && prm.L > 0.0
    ensures next == match ModeTerm(mp, prm.L, Source(prm), Source(prm), Drive(kSq, term3), m, n)
                    case None => sum
                    case Some(t) => Add(sum, Cx(t))
  {
    var f := ModeValue(mp, prm.L, m, n, prm.x0, prm.y0);
    var funcSq := Sq(f);
    var kmnSq := Sq(Kmn(mp, prm.L, m, n));
    var den := Add(Sub(kSq, Num(kmnSq)), Cx(term3));
    ModeTermAt(mp, prm.L, Source(prm), Source(prm), Drive(kSq, term3), m, n, f, f, den);
    next := sum;
    if Abs(mp, den) < Tiny {
      return;
    }
    GuardedTermKept(mp, funcSq, den);
    var term := Div(Of(funcSq), Cx(den));
    next := Add(sum, Cx(term.value));
  }

  /** Past the guard, the feedback division succeeds and the response is the quotient's magnitude. */
  lemma FeedbackKept(mp: Prims, sum: Complex)
    requires Lawful(mp) && Abs(mp, FeedbackDenominator(sum)) >= Tiny
    ensures Div(sum, Cx(FeedbackDenominator(sum))).Ok?
    ensures ResponseOf(mp, sum) == Magnitude(mp, Div(sum, Cx(FeedbackDenominator(sum))).value)
  {
    AbsBoundedAwayFromZero(mp, FeedbackDenominator(sum), Tiny);
  }

  /**
   * What countk returns: 0 past a singular feedback denominator, and otherwise
   * the non-negative number that, times `|1 + 3.3·sum|`, gives `|sum|`.
   */
  lemma ResponseQuotient(mp: Prims, sum: Complex)
    requires Lawful(mp)
    ensures if Abs(mp, FeedbackDenominator(sum)) < Tiny then ResponseOf(mp, sum) == 0.0
            else ResponseOf(mp, sum) >= 0.0 && ResponseOf(mp, sum) * Abs(mp, FeedbackDenominator(sum)) == Abs(mp, sum)
  {
    var den := FeedbackDenominator(sum);
    if Abs(mp, den) >= Tiny {
      FeedbackKept(mp, sum);
      AbsBoundedAwayFromZero(mp, den, Tiny);
      var q := Div(sum, Cx(den)).value;
      assert Mul(q, Cx(den)) == sum;
      MulNorm(q, den);
      var r, a := Abs(mp, q), Abs(mp, den);
      SqOfProduct(r, a, r * a);
      ProductNonNegative(r, a, r * a);
      SquaresDetermineNonNegatives(r * a, Abs(mp, sum));
    }
  }

  /** countk never returns a negative value. */
  lemma ResponseNonNegative(mp: Prims, prm: Params, k: Complex)
    requires Lawful(mp) && prm.L > 0.0
    ensures ResponseValue(mp, prm, k) >= 0.0
  {
    ResponseQuotient(mp, SourceSum(mp, prm, k));
  }

  /** At a real wave number, countk's drive is calculatePsi's: `k² = k·k` and `(2iγ)·k = 2iγk`. */
  lemma RealDrive(gamma: real, k: real)
    ensures CountKDrive(gamma, Of(k)) == PsiDrive(gamma, k)
  {
    PowTwoIsSquare(Of(k));
  }

  /**
   * At a real wave number, countk's modal sum is the field calculatePsi would
   * give at the source point with S0_k modes: the same guarded sum, truncated
   * at S0_k instead of S.
   */
  lemma SourceSumIsPsiAtSource(mp: Prims, prm: Params, k: real)
    requires prm.L > 0.0
    ensures SourceSum(mp, prm, Of(k)) == ModalSum(mp, prm.L, Source(prm), Source(prm), PsiDrive(prm.gamma, k), prm.S0k, prm.S0k)
    ensures prm.S == prm.S0k ==> SourceSum(mp, prm, Of(k)) == PsiValue(mp, prm, prm.x0, prm.y0, k)
  {
    RealDrive(prm.gamma, k);
  }
}
