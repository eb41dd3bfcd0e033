/**
 * What calculateIntensityGrid computes, as values (script.js: calculateIntensityGrid).
 *
 * The first pass stores `|psi|²` at every cell (x, y) = (L·i/gridSize, L·j/gridSize)
 * and keeps a running maximum, starting at 0, and a running minimum, starting
 * at Infinity, in row-major order. The second pass min-max normalises every
 * cell, or fills the grid with 0.5 (when the maximum is above 1e-9) or 0 when
 * the range is at most 1e-9. The session class in plate.dfy runs these passes
 * on an array; this module states what they compute and proves its properties.
 */
module IntensityGrid {
  import opened RealMath
  import opened ComplexNumbers
  import opened Modal

  /** A running minimum that starts at Infinity. */
  datatype Bound = PosInf | Finite(v: real)

  /** The running maximum and minimum of the first pass. */
  datatype Extent = Extent(max: real, min: Bound)

  /** `maxIntensity = 0, minIntensity = Infinity` */
  const Start: Extent := Extent(0.0, PosInf)

  /** The value fill uses when the range is degenerate but the field is not zero. */
  const Flat: real := 0.5

  predicate Below(x: real, b: Bound) {
    b.PosInf? || x < b.v
  }

  /** `if (v > max) max = v; if (v < min) min = v;` */
  function Update(e: Extent, x: real): Extent {
    Extent(if x > e.max then x else e.max, if Below(x, e.min) then Finite(x) else e.min)
  }

  /** The extent after cells 0 .. j-1 of one row. */
  function FoldRow(e: Extent, row: seq<real>, j: nat): Extent
    requires j <= |row|
  {
    if j == 0 then e else Update(FoldRow(e, row, j - 1), row[j - 1])
  }

  /** The extent after rows 0 .. i-1. */
  function FoldRows(v: seq<seq<real>>, i: nat): Extent
    requires i <= |v|
  {
    if i == 0 then Start else FoldRow(FoldRows(v, i - 1), v[i - 1], |v[i - 1]|)
  }

  /** x lies within the extent. */
  predicate Covers(e: Extent, x: real) {
    x <= e.max && e.min.Finite? && e.min.v <= x
  }

  /** r is at least as wide as e. */
  predicate Widens(e: Extent, r: Extent) {
    e.max <= r.max && (e.min.Finite? ==> r.min.Finite? && r.min.v <= e.min.v)
  }

  lemma CoversWidened(e: Extent, r: Extent, x: real)
    requires Covers(e, x) && Widens(e, r)
    ensures Covers(r, x)
  {
  }

  /** A row pass only widens the extent, and the result covers every cell it saw. */
  lemma {:induction false} FoldRowCovers(e: Extent, row: seq<real>, j: nat)
    requires j <= |row|
    ensures Widens(e, FoldRow(e, row, j))
    ensures forall b :: 0 <= b < j ==> Covers(FoldRow(e, row, j), row[b])
  {
    if j > 0 {
      FoldRowCovers(e, row, j - 1);
      var p := FoldRow(e, row, j - 1);
      var r := Update(p, row[j - 1]);
      forall b | 0 <= b < j - 1
        ensures Covers(r, row[b])
      {
        CoversWidened(p, r, row[b]);
      }
    }
  }

  /** A row pass leaves each bound as it was or sets it to a cell it saw. */
  lemma {:induction false} FoldRowAttains(e: Extent, row: seq<real>, j: nat)
    requires j <= |row|
    ensures FoldRow(e, row, j).max == e.max || exists b :: 0 <= b < j && row[b] == FoldRow(e, row, j).max
    ensures FoldRow(e, row, j).min == e.min || exists b :: 0 <= b < j && FoldRow(e, row, j).min == Finite(row[b])
  {
    if j > 0 {
      FoldRowAttains(e, row, j - 1);
    }
  }

  /** After rows 0 .. i-1 the extent covers every cell of those rows. */
  lemma {:induction false} FoldRowsCovers(v: seq<seq<real>>, i: nat)
    requires i <= |v|
    ensures forall a, b :: 0 <= a < i && 0 <= b < |v[a]| ==> Covers(FoldRows(v, i), v[a][b])
  {
    if i > 0 {
      FoldRowsCovers(v, i - 1);
      var p := FoldRows(v, i - 1);
      FoldRowCovers(p, v[i - 1], |v[i - 1]|);
      forall a, b | 0 <= a < i - 1 && 0 <= b < |v[a]|
        ensures Covers(FoldRows(v, i), v[a][b])
      {
        CoversWidened(p, FoldRows(v, i), v[a][b]);
      }
    }
  }

  /** After rows 0 .. i-1 the maximum is the initial 0 or a cell, and the minimum is Infinity or a cell. */
  lemma {:induction false} FoldRowsAttains(v: seq<seq<real>>, i: nat)
    requires i <= |v|
    ensures FoldRows(v, i).max == 0.0 || exists a, b :: 0 <= a < i && 0 <= b < |v[a]| && v[a][b] == FoldRows(v, i).max
    ensures FoldRows(v, i).min.PosInf? || exists a, b :: 0 <= a < i && 0 <= b < |v[a]| && FoldRows(v, i).min == Finite(v[a][b])
  {
    if i > 0 {
      FoldRowsAttains(v, i - 1);
      FoldRowAttains(FoldRows(v, i - 1), v[i - 1], |v[i - 1]|);
    }
  }

  /** A g×g grid. */
  predicate Square(v: seq<seq<real>>, g: nat) {
    |v| == g && forall a :: 0 <= a < g ==> |v[a]| == g
  }

  predicate NonNegative(v: seq<seq<real>>) {
    forall a, b :: 0 <= a < |v| && 0 <= b < |v[a]| ==> v[a][b] >= 0.0
  }

  /**
   * Over a non-empty grid of non-negative values the first pass finds the true
   * extremes: a finite minimum, both bounds attained at some cell, and every
   * cell between them.
   */
  lemma ExtentOfGrid(v: seq<seq<real>>, g: nat)
    requires Square(v, g) && g >= 1 && NonNegative(v)
    ensures FoldRows(v, g).min.Finite?
    ensures forall a, b :: 0 <= a < g && 0 <= b < g ==> FoldRows(v, g).min.v <= v[a][b] <= FoldRows(v, g).max
    ensures exists a, b :: 0 <= a < g && 0 <= b < g && v[a][b] == FoldRows(v, g).max
    ensures exists a, b :: 0 <= a < g && 0 <= b < g && v[a][b] == FoldRows(v, g).min.v
  {
    FoldRowsCovers(v, g);
    FoldRowsAttains(v, g);
    assert Covers(FoldRows(v, g), v[0][0]);
    if FoldRows(v, g).max == 0.0 {
      assert v[0][0] == FoldRows(v, g).max;
    }
  }

  /** The second pass on one cell: `(v − min) / range`, or the constant fill. */
  function Normalise(x: real, lo: real, hi: real): real {
    if hi - lo > Tiny then (x - lo) / (hi - lo)
    else if hi > Tiny then Flat
    else 0.0
  }

  /** Every value within the extremes is normalised into [0, 1]. */
  lemma NormaliseInUnit(x: real, lo: real, hi: real)
    requires lo <= x <= hi
    ensures 0.0 <= Normalise(x, lo, hi) <= 1.0
  {
    if hi - lo > Tiny {
      QuotientInUnit(x - lo, hi - lo, Normalise(x, lo, hi));
    }
  }

  /** With a real range the minimum goes to 0 and the maximum to 1. */
  lemma NormaliseEnds(lo: real, hi: real)
    requires hi - lo > Tiny
    ensures Normalise(lo, lo, hi) == 0.0 && Normalise(hi, lo, hi) == 1.0
  {
    QuotientOfSelf(hi - lo, Normalise(hi, lo, hi));
  }

  /** Normalising keeps the order of the cells, and with a real range keeps it strict. */
  lemma NormaliseMonotone(x: real, y: real, lo: real, hi: real)
    requires x <= y
    ensures Normalise(x, lo, hi) <= Normalise(y, lo, hi)
    ensures hi - lo > Tiny && x < y ==> Normalise(x, lo, hi) < Normalise(y, lo, hi)
  {
    if hi - lo > Tiny {
      QuotientMonotone(x - lo, y - lo, hi - lo, Normalise(x, lo, hi), Normalise(y, lo, hi));
    }
  }

  /** Without a real range every cell gets the same value: 0.5 for a live field, 0 for a dead one. */
  lemma NormaliseFlat(x: real, lo: real, hi: real)
    requires hi - lo <= Tiny
    ensures Normalise(x, lo, hi) == if hi > Tiny then Flat else 0.0
  {
  }

  /** The plate coordinate `L·i / gridSize` of grid index i. */
  function GridCoord(prm: Params, i: nat): real
    requires prm.gridSize >= 1
  {
    prm.L * i as real / prm.gridSize as real
  }

  /** `Math.pow(psi.magnitude(), 2)` at cell (a, b): never negative. */
  function RawIntensity(mp: Prims, prm: Params, k: real, a: nat, b: nat): (r: real)
    requires prm.L > 0.0 && prm.gridSize >= 1
    ensures r >= 0.0
  {
    var m := Magnitude(mp, PsiValue(mp, prm, GridCoord(prm, a), GridCoord(prm, b), k));
    SqNonNegative(m);
    Sq(m)
  }

  /** The grid of the first pass, row a holding the cells (a, 0 .. gridSize-1). */
  function RawGrid(mp: Prims, prm: Params, k: real): (v: seq<seq<real>>)
    requires prm.L > 0.0 && prm.gridSize >= 1
    ensures Square(v, prm.gridSize) && NonNegative(v)
  {
    seq(prm.gridSize, a requires 0 <= a < prm.gridSize =>
      seq(prm.gridSize, b requires 0 <= b < prm.gridSize => RawIntensity(mp, prm, k, a, b)))
  }
}
