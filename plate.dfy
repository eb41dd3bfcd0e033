/**
 * The simulation session: the intensity grid and the sand on the plate
 * (script.js: calculateIntensityGrid, getIntensityAt, moveSandParticles,
 * generateSand, addSmallSandBatch, clearSand).
 *
 * The globals `intensityGrid` (null until the first computation) and
 * `sandParticles` become the fields of a `Simulation`; the parameters the
 * engine reads are its `prm`. `Math.random()` is an input: a `Draw` is one
 * pair of draws in [0, 1).
 */
module Plate {
  import opened RealMath
  import opened ComplexNumbers
  import opened Modal
  import opened IntensityGrid

  /** One pair of `Math.random()` results. */
  datatype Draw = Draw(rx: real, ry: real)

  predicate ValidDraw(d: Draw) {
    0.0 <= d.rx < 1.0 && 0.0 <= d.ry < 1.0
  }

  /** A position on the normalised plate [0, 1]². */
  predicate InUnit(p: Point) {
    0.0 <= p.x <= 1.0 && 0.0 <= p.y <= 1.0
  }

  /** `CONTINUOUS_SAND_BATCH_SIZE` */
  const BatchSize: nat := 20

  /** `speedFactor` */
  const Speed: real := 0.005

  /** The width of the jitter `(Math.random() − 0.5)·0.001`. */
  const Jitter: real := 0.001

  /** The grid cell of a normalised coordinate: `floor(u·gridSize)` clamped into [0, gridSize−1]. */
  function CellIndex(g: int, u: real): (i: int)
    requires g >= 1
    ensures 0 <= i < g
  {
    ClampInt(0, g - 1, (u * g as real).Floor)
  }

  /** For u in [0, 1) the cell index is the cell that contains u: `i <= u·gridSize < i + 1`. */
  lemma CellIndexContains(g: int, u: real)
    requires g >= 1 && 0.0 <= u * g as real < g as real
    ensures CellIndex(g, u) as real <= u * g as real < CellIndex(g, u) as real + 1.0
  {
  }

  /** A g×g array. */
  predicate Sized(grid: array2<real>, g: int) {
    grid.Length0 == g && grid.Length1 == g
  }

  /** The cell of the grid under the point (u, w). */
  function Lookup(grid: array2<real>, g: int, u: real, w: real): real
    reads grid
    requires g >= 1 && Sized(grid, g)
  {
    grid[CellIndex(g, u), CellIndex(g, w)]
  }

  /** `1.5 / gridSize`, the distance to the neighbours examined. */
  function StepOf(g: int): (s: real)
    requires g >= 1
    ensures s > 0.0
  {
    QuotientPositive(1.5, g as real, 1.5 / g as real);
    1.5 / g as real
  }

  /** The loop variable `dx` (or `dy`) on its a-th value, a = -1, 0, 1, and 2 on exit: `-step`, then `+= step`. */
  function Off(a: int, step: real): real {
    if a <= -1 then -step else if a == 0 then -step + step else if a == 1 then -step + step + step else -step + step + step + step
  }

  /** The outer loop's counter (dx) at the t-th neighbour in scan order, t = 0 .. 8. */
  function OuterOf(t: nat): int {
    if t < 3 then -1 else if t < 6 then 0 else 1
  }

  /** The inner loop's counter (dy) at the t-th neighbour. */
  function InnerOf(t: nat): int {
    t - 3 * (OuterOf(t) + 1) - 1
  }

  /** The t-th neighbour in scan order: dx outer, dy inner, each −step, 0, +step. */
  function DxOf(step: real, t: nat): real {
    Off(OuterOf(t), step)
  }

  function DyOf(step: real, t: nat): real {
    Off(InnerOf(t), step)
  }

  function NeighbourAt(p: Point, step: real, t: nat): Point {
    Point(p.x + DxOf(step, t), p.y + DyOf(step, t))
  }

  /** The t-th neighbour is examined: it is not the particle itself, and it lies on the plate. */
  predicate Examined(p: Point, step: real, t: nat) {
    !(DxOf(step, t) == 0.0 && DyOf(step, t) == 0.0) && InUnit(NeighbourAt(p, step, t))
  }

  /** What the scan sees of one neighbour: whether it is examined, and the intensity under it. */
  datatype Candidate = Candidate(examined: bool, level: real)

  /** The eight (and the skipped ninth) neighbours of p, in scan order. */
  function Candidates(grid: array2<real>, g: int, p: Point): (cs: seq<Candidate>)
    reads grid
    requires g >= 1 && Sized(grid, g)
    ensures |cs| == 9
  {
    seq(9, t requires 0 <= t < 9 reads grid =>
      var q := NeighbourAt(p, StepOf(g), t);
      Candidate(Examined(p, StepOf(g), t), Lookup(grid, g, q.x, q.y)))
  }

  /** `minIntensity` while the scan holds candidate `best` (-1: none yet, the particle's own cell). */
  function Level(here: real, cs: seq<Candidate>, best: int): real
    requires -1 <= best < |cs|
  {
    if best < 0 then here else cs[best].level
  }

  /** The candidate the scan holds after the first t: a strictly lower examined one replaces it. */
  function Best(here: real, cs: seq<Candidate>, t: nat): (b: int)
    requires t <= |cs|
    ensures -1 <= b < t
  {
    if t == 0 then -1
    else
      var b := Best(here, cs, t - 1);
      if cs[t - 1].examined && cs[t - 1].level < Level(here, cs, b) then t - 1 else b
  }

  /**
   * The scan holds nothing exactly when no examined candidate is strictly below
   * the particle's own cell; otherwise it holds an examined one strictly below
   * it, lowest among the examined ones, and strictly lower than every examined
   * one before it: the first of the lowest.
   */
  lemma {:induction false} BestIsFirstLowest(here: real, cs: seq<Candidate>, t: nat)
    requires t <= |cs|
    ensures Best(here, cs, t) == -1 ==> forall s :: 0 <= s < t && cs[s].examined ==> cs[s].level >= here
    ensures Best(here, cs, t) >= 0 ==>
      var b := Best(here, cs, t);
      && cs[b].examined && cs[b].level < here
      && (forall s :: 0 <= s < t && cs[s].examined ==> cs[s].level >= cs[b].level)
      && (forall s :: 0 <= s < b && cs[s].examined ==> cs[s].level > cs[b].level)
  {
    if t > 0 {
      BestIsFirstLowest(here, cs, t - 1);
    }
  }

  /** The running state of the neighbour scan: `minIntensity`, `moveX`, `moveY`. */
  datatype Choice = Choice(minI: real, dx: real, dy: real)

  /** The scan state that holds candidate `best`. */
  function ChoiceOf(here: real, cs: seq<Candidate>, step: real, best: int): Choice
    requires -1 <= best < |cs|
  {
    if best < 0 then Choice(here, 0.0, 0.0) else Choice(cs[best].level, DxOf(step, best), DyOf(step, best))
  }

  /** The neighbour scan of `moveSandParticles` around p. */
  function Scan(grid: array2<real>, g: int, p: Point): Choice
    reads grid
    requires g >= 1 && Sized(grid, g)
  {
    var here := Lookup(grid, g, p.x, p.y);
    var cs := Candidates(grid, g, p);
    ChoiceOf(here, cs, StepOf(g), Best(here, cs, 9))
  }

  /** `moveSandParticles` on one particle, with the draws it would take if it moves. */
  function MoveOne(grid: array2<real>, g: int, p: Point, d: Draw): Point
    reads grid
    requires g >= 1 && Sized(grid, g)
  {
    var c := Scan(grid, g, p);
    if c.dx != 0.0 || c.dy != 0.0 then
      Point(Clamp(0.0, 1.0, p.x + c.dx * Speed + (d.rx - 0.5) * Jitter),
            Clamp(0.0, 1.0, p.y + c.dy * Speed + (d.ry - 0.5) * Jitter))
    else p
  }

  /** Every particle moved on its own, in place, in order. */
  function MoveAll(grid: array2<real>, g: int, ps: seq<Point>, ds: seq<Draw>): (r: seq<Point>)
    reads grid
    requires g >= 1 && Sized(grid, g) && |ds| == |ps|
  {
    seq(|ps|, i requires 0 <= i < |ps| reads grid => MoveOne(grid, g, ps[i], ds[i]))
  }

  /**
   * A particle moves exactly when some examined neighbour is strictly lower
   * than its own cell; otherwise it keeps its exact position and takes no jitter.
   */
  lemma MovesIffLowerNeighbour(grid: array2<real>, g: int, p: Point, d: Draw)
    requires g >= 1 && Sized(grid, g)
    ensures var here, cs := Lookup(grid, g, p.x, p.y), Candidates(grid, g, p);
      (Scan(grid, g, p).dx != 0.0 || Scan(grid, g, p).dy != 0.0) <==>
      exists s :: 0 <= s < 9 && cs[s].examined && cs[s].level < here
    ensures var here, cs := Lookup(grid, g, p.x, p.y), Candidates(grid, g, p);
      (forall s :: 0 <= s < 9 && cs[s].examined ==> cs[s].level >= here) ==> MoveOne(grid, g, p, d) == p
  {
    var here, cs := Lookup(grid, g, p.x, p.y), Candidates(grid, g, p);
    BestIsFirstLowest(here, cs, 9);
    var b := Best(here, cs, 9);
    if b >= 0 {
      assert cs[b].examined;
      assert Examined(p, StepOf(g), b);
    }
  }

  /**
   * A particle that moves heads for the first of the lowest examined
   * neighbours: the direction it takes is that of an examined candidate t
   * strictly below its own cell, no examined candidate is lower, and every
   * examined one before t in scan order is strictly higher.
   */
  lemma MoveHeadsForFirstLowest(grid: array2<real>, g: int, p: Point)
    requires g >= 1 && Sized(grid, g)
    ensures var here, cs, c := Lookup(grid, g, p.x, p.y), Candidates(grid, g, p), Scan(grid, g, p);
      (c.dx != 0.0 || c.dy != 0.0) ==>
        exists t :: 0 <= t < 9 && c == Choice(cs[t].level, DxOf(StepOf(g), t), DyOf(StepOf(g), t))
          && cs[t].examined && cs[t].level < here
          && (forall s :: 0 <= s < 9 && cs[s].examined ==> cs[s].level >= cs[t].level)
          && (forall s :: 0 <= s < t && cs[s].examined ==> cs[s].level > cs[t].level)
  {
    var here, cs := Lookup(grid, g, p.x, p.y), Candidates(grid, g, p);
    BestIsFirstLowest(here, cs, 9);
    var b := Best(here, cs, 9);
    if b >= 0 {
      assert Scan(grid, g, p) == Choice(cs[b].level, DxOf(StepOf(g), b), DyOf(StepOf(g), b));
    }
  }

  /** A moved particle is clamped back onto the plate. */
  lemma MoveStaysOnPlate(grid: array2<real>, g: int, p: Point, d: Draw)
    requires g >= 1 && Sized(grid, g) && InUnit(p)
    ensures InUnit(MoveOne(grid, g, p, d))
  {
  }

  /** The particles made from fresh draws, `{ x: Math.random(), y: Math.random() }` each. */
  function Scatter(ds: seq<Draw>): seq<Point> {
    seq(|ds|, i requires 0 <= i < |ds| => Point(ds[i].rx, ds[i].ry))
  }

  /** The first pass of `calculateIntensityGrid`: `|psi|²` at every cell, and the running extremes in row-major order. */
  method FirstPass(mp: Prims, prm: Params, k: real, ghost v: seq<seq<real>>) returns (cells: array2<real>, maxI: real, minI: Bound)
    requires Lawful(mp) && prm.L > 0.0 && prm.gridSize >= 1 && Square(v, prm.gridSize)
    requires forall a, b {:trigger RawIntensity(mp, prm, k, a, b)} :: 0 <= a < prm.gridSize && 0 <= b < prm.gridSize ==>
      v[a][b] == RawIntensity(mp, prm, k, a, b)
    ensures fresh(cells) && Sized(cells, prm.gridSize)
    ensures forall a, b :: 0 <= a < prm.gridSize && 0 <= b < prm.gridSize ==> cells[a, b] == v[a][b]
    ensures Extent(maxI, minI) == FoldRows(v, prm.gridSize)
  {
    var g := prm.gridSize;
    cells := new real[g, g];
    maxI, minI := 0.0, PosInf;
    var i := 0;
    while i < g
      invariant 0 <= i <= g
      invariant forall a, b :: 0 <= a < i && 0 <= b < g ==> cells[a, b] == v[a][b]
      invariant Extent(maxI, minI) == FoldRows(v, i)
    {
      maxI, minI := FirstPassRow(mp, prm, k, cells, i, v[i], maxI, minI);
      i := i + 1;
    }
  }

  /** Row i of the first pass: its cells stored, the running extremes carried on through them. */
  method FirstPassRow(mp: Prims, prm: Params, k: real, cells: array2<real>, i: nat, ghost row: seq<real>, max0: real, min0: Bound)
    returns (maxI: real, minI: Bound)
    requires Lawful(mp) && prm.L > 0.0 && prm.gridSize >= 1 && i < prm.gridSize && Sized(cells, prm.gridSize)
    requires |row| == prm.gridSize
    requires forall b {:trigger RawIntensity(mp, prm, k, i, b)} :: 0 <= b < prm.gridSize ==> row[b] == RawIntensity(mp, prm, k, i, b)
    modifies cells
    ensures forall b :: 0 <= b < prm.gridSize ==> cells[i, b] == row[b]
    ensures forall a, b :: 0 <= a < prm.gridSize && a != i && 0 <= b < prm.gridSize ==> cells[a, b] == old(cells[a, b])
    ensures Extent(maxI, minI) == FoldRow(Extent(max0, min0), row, prm.gridSize)
  {
    var g := prm.gridSize;
    maxI, minI := max0, min0;
    var j := 0;
    while j < g
      invariant 0 <= j <= g
      invariant forall b :: 0 <= b < j ==> cells[i, b] == row[b]
      invariant forall a, b :: 0 <= a < g && a != i && 0 <= b < g ==> cells[a, b] == old(cells[a, b])
      invariant Extent(maxI, minI) == FoldRow(Extent(max0, min0), row, j)
    {
      var intensitySq := CellIntensity(mp, prm, k, i, j);
      assert FoldRow(Extent(max0, min0), row, j + 1) == Update(Extent(maxI, minI), intensitySq);
      cells[i, j] := intensitySq;
      if intensitySq > maxI { maxI := intensitySq; }
      if Below(intensitySq, minI) { minI := Finite(intensitySq); }
      j := j + 1;
    }
  }

  /** `Math.pow(calculatePsi(L·i/gridSize, L·j/gridSize, k).magnitude(), 2)`: cell (i, j) of the first pass. */
  method CellIntensity(mp: Prims, prm: Params, k: real, i: nat, j: nat) returns (intensitySq: real)
    requires Lawful(mp) && prm.L > 0.0 && prm.gridSize >= 1 && i < prm.gridSize && j < prm.gridSize
    ensures intensitySq == RawIntensity(mp, prm, k, i, j)
  {
    var x := GridCoord(prm, i);
    var y := GridCoord(prm, j);
    var psi := CalculatePsi(mp, prm, x, y, k);
    intensitySq := Sq(Magnitude(mp, psi));
  }

  /** The second pass of `calculateIntensityGrid`: every cell `(v − lo) / (hi − lo)`, or the constant fill. */
  method SecondPass(cells: array2<real>, g: int, lo: real, hi: real)
    requires g >= 1 && Sized(cells, g)
    modifies cells
    ensures forall a, b :: 0 <= a < g && 0 <= b < g ==> cells[a, b] == Normalise(old(cells[a, b]), lo, hi)
  {
    var range := hi - lo;
    if range > Tiny {
      var i := 0;
      while i < g
        invariant 0 <= i <= g
        invariant forall a, b :: 0 <= a < i && 0 <= b < g ==> cells[a, b] == Normalise(old(cells[a, b]), lo, hi)
        invariant forall a, b :: i <= a < g && 0 <= b < g ==> cells[a, b] == old(cells[a, b])
      {
        var j := 0;
        while j < g
          invariant 0 <= j <= g
          invariant forall a, b :: 0 <= a < i && 0 <= b < g ==> cells[a, b] == Normalise(old(cells[a, b]), lo, hi)
          invariant forall b :: 0 <= b < j ==> cells[i, b] == Normalise(old(cells[i, b]), lo, hi)
          invariant forall a, b :: i <= a < g && 0 <= b < g && (a > i || b >= j) ==> cells[a, b] == old(cells[a, b])
        {
          cells[i, j] := (cells[i, j] - lo) / range;
          j := j + 1;
        }
        i := i + 1;
      }
    } else {
      var constantValue := if hi > Tiny then Flat else 0.0;
      var i := 0;
      while i < g
        invariant 0 <= i <= g
        invariant forall a, b :: 0 <= a < i && 0 <= b < g ==> cells[a, b] == constantValue
      {
        forall b | 0 <= b < g {
          cells[i, b] := constantValue;
        }
        i := i + 1;
      }
    }
  }

  /** What the scan sees of the neighbour at offset (dx, dy): examined unless it is p itself or off the plate. */
  function Sighted(grid: array2<real>, g: int, p: Point, dx: real, dy: real): Candidate
    reads grid
    requires g >= 1 && Sized(grid, g)
  {
    Candidate(!(dx == 0.0 && dy == 0.0) && !(p.x + dx < 0.0 || p.x + dx > 1.0 || p.y + dy < 0.0 || p.y + dy > 1.0),
              Lookup(grid, g, p.x + dx, p.y + dy))
  }

  /** The neighbour the loops reach at counters (a, b) is candidate 3·(a+1) + (b+1). */
  lemma NeighbourVisit(grid: array2<real>, g: int, p: Point, a: int, b: int)
    requires g >= 1 && Sized(grid, g) && -1 <= a <= 1 && -1 <= b <= 1
    ensures 0 <= 3 * (a + 1) + (b + 1) < 9
    ensures Candidates(grid, g, p)[3 * (a + 1) + (b + 1)] == Sighted(grid, g, p, Off(a, StepOf(g)), Off(b, StepOf(g)))
  {
    var t := 3 * (a + 1) + (b + 1);
    ScanOrder(a, b);
    var q := NeighbourAt(p, StepOf(g), t);
    assert Candidates(grid, g, p)[t] == Candidate(Examined(p, StepOf(g), t), Lookup(grid, g, q.x, q.y));
  }

  /** The column at outer counter a, as the inner loop sees it. */
  lemma ColumnSighted(grid: array2<real>, g: int, p: Point, a: int)
    requires g >= 1 && Sized(grid, g) && -1 <= a <= 1
    ensures forall b :: -1 <= b <= 1 ==>
      Candidates(grid, g, p)[3 * (a + 1) + (b + 1)] == Sighted(grid, g, p, Off(a, StepOf(g)), Off(b, StepOf(g)))
  {
    forall b | -1 <= b <= 1
      ensures Candidates(grid, g, p)[3 * (a + 1) + (b + 1)] == Sighted(grid, g, p, Off(a, StepOf(g)), Off(b, StepOf(g)))
    {
      NeighbourVisit(grid, g, p, a, b);
    }
  }

  /** One visit of the scan: the held candidate after neighbour t, in terms of the state c the scan had before it. */
  lemma ScanAdvance(here: real, cs: seq<Candidate>, step: real, a: int, b: int, c: Choice)
    requires |cs| == 9 && -1 <= a <= 1 && -1 <= b <= 1
    requires 0 <= 3 * (a + 1) + (b + 1) < 9
    requires c == ChoiceOf(here, cs, step, Best(here, cs, 3 * (a + 1) + (b + 1)))
    ensures var t := 3 * (a + 1) + (b + 1);
      ChoiceOf(here, cs, step, Best(here, cs, t + 1)) ==
        if cs[t].examined && cs[t].level < c.minI then Choice(cs[t].level, Off(a, step), Off(b, step)) else c
  {
    ScanOrder(a, b);
  }

  /** The loop counters (a, b) visit the neighbours in the order t = 3·(a+1) + (b+1). */
  lemma ScanOrder(a: int, b: int)
    requires -1 <= a <= 1 && -1 <= b <= 1
    ensures 0 <= 3 * (a + 1) + (b + 1) < 9
    ensures OuterOf(3 * (a + 1) + (b + 1)) == a && InnerOf(3 * (a + 1) + (b + 1)) == b
  {
  }

  class Simulation {
    var prm: Params
    /** `intensityGrid`: null before the first computation. */
    var grid: array2?<real>
    /** `sandParticles` */
    var particles: seq<Point>

    /** The session's invariant: a usable grid size, a normalised square grid, and all sand on the plate. */
    ghost predicate Valid()
      reads this, grid
    {
      && prm.L > 0.0 && prm.gridSize >= 1
      && (grid != null ==>
            Sized(grid, prm.gridSize)
            && forall a, b :: 0 <= a < prm.gridSize && 0 <= b < prm.gridSize ==> 0.0 <= grid[a, b] <= 1.0)
      && forall i :: 0 <= i < |particles| ==> InUnit(particles[i])
    }

    constructor (prm: Params)
      requires prm.L > 0.0 && prm.gridSize >= 1
      ensures Valid() && this.prm == prm && grid == null && particles == []
    {
      this.prm := prm;
      grid := null;
      particles := [];
    }

    /** `getIntensityAt(x, y)`: 0.5 without a grid, otherwise the clamped cell under the point, in [0, 1]. */
    function IntensityAt(x: real, y: real): (r: real)
      reads this, grid
      requires Valid()
      ensures 0.0 <= r <= 1.0
      ensures grid == null ==> r == Flat
    {
      if grid == null then Flat else Lookup(grid, prm.gridSize, x, y)
    }

    /**
     * `calculateIntensityGrid(k)`: a fresh gridSize×gridSize grid of `|psi|²`,
     * min-max normalised with the extremes found by the first pass.
     */
    method CalculateIntensityGrid(mp: Prims, k: real)
      requires Valid() && Lawful(mp)
      modifies this
      ensures Valid() && prm == old(prm) && particles == old(particles)
      ensures grid != null && fresh(grid)
      ensures var v := RawGrid(mp, prm, k);
        var e := FoldRows(v, prm.gridSize);
        && e.min.Finite?
        && forall a, b :: 0 <= a < prm.gridSize && 0 <= b < prm.gridSize ==> grid[a, b] == Normalise(v[a][b], e.min.v, e.max)
    {
      var g := prm.gridSize;
      ghost var v := RawGrid(mp, prm, k);
      var cells, maxI, minI := FirstPass(mp, prm, k, v);
      ExtentOfGrid(v, g);
      SecondPass(cells, g, minI.v, maxI);
      forall a, b | 0 <= a < g && 0 <= b < g
        ensures 0.0 <= cells[a, b] <= 1.0
      {
        NormaliseInUnit(v[a][b], minI.v, maxI);
      }
      grid := cells;
    }

    /** The neighbour scan of one particle: the lowest examined neighbour strictly below its own cell, first found. */
    method ScanNeighbours(p: Point) returns (minIntensity: real, moveX: real, moveY: real)
      requires Valid() && grid != null
      ensures Choice(minIntensity, moveX, moveY) == Scan(grid, prm.gridSize, p)
    {
      var step := StepOf(prm.gridSize);
      var currentIntensity := IntensityAt(p.x, p.y);
      ghost var cs := Candidates(grid, prm.gridSize, p);
      var c := Choice(currentIntensity, 0.0, 0.0);
      var dx := -step;
      ghost var a := -1;
      while dx <= step
        invariant -1 <= a <= 2 && dx == Off(a, step)
        invariant c == ChoiceOf(currentIntensity, cs, step, Best(currentIntensity, cs, 3 * (a + 1)))
        decreases 2 - a
      {
        ColumnSighted(grid, prm.gridSize, p, a);
        c := ScanColumn(p, currentIntensity, cs, a, dx, c);
        dx := dx + step;
        a := a + 1;
      }
      minIntensity, moveX, moveY := c.minI, c.dx, c.dy;
    }

    /** The inner loop of the scan: the column at `dx`, the a-th of the outer loop's values, from candidate 3·(a+1) on. */
    method ScanColumn(p: Point, currentIntensity: real, ghost cs: seq<Candidate>, ghost a: int, dx: real, c: Choice)
      returns (next: Choice)
      requires Valid() && grid != null && |cs| == 9
      requires -1 <= a <= 1 && dx == Off(a, StepOf(prm.gridSize))
      requires forall b :: -1 <= b <= 1 ==> cs[3 * (a + 1) + (b + 1)] == Sighted(grid, prm.gridSize, p, dx, Off(b, StepOf(prm.gridSize)))
      requires c == ChoiceOf(currentIntensity, cs, StepOf(prm.gridSize), Best(currentIntensity, cs, 3 * (a + 1)))
      ensures next == ChoiceOf(currentIntensity, cs, StepOf(prm.gridSize), Best(currentIntensity, cs, 3 * (a + 2)))
    {
      var step := StepOf(prm.gridSize);
      next := c;
      var dy := -step;
      ghost var b := -1;
      while dy <= step
        invariant -1 <= b <= 2 && dy == Off(b, step)
        invariant next == ChoiceOf(currentIntensity, cs, step, Best(currentIntensity, cs, 3 * (a + 1) + (b + 1)))
        decreases 2 - b
      {
        next := VisitNeighbour(p, currentIntensity, cs, a, b, dx, dy, next);
        dy := dy + step;
        b := b + 1;
      }
    }

    /**
     * The body of the inner loop at counters (a, b): skip the particle itself
     * and points off the plate, keep a strictly lower neighbour. It advances
     * the scan state by exactly candidate 3·(a+1) + (b+1).
     */
    method VisitNeighbour(p: Point, currentIntensity: real, ghost cs: seq<Candidate>, ghost a: int, ghost b: int,
                          dx: real, dy: real, c: Choice) returns (next: Choice)
      requires Valid() && grid != null && |cs| == 9
      requires -1 <= a <= 1 && -1 <= b <= 1 && dx == Off(a, StepOf(prm.gridSize)) && dy == Off(b, StepOf(prm.gridSize))
      requires cs[3 * (a + 1) + (b + 1)] == Sighted(grid, prm.gridSize, p, dx, dy)
      requires c == ChoiceOf(currentIntensity, cs, StepOf(prm.gridSize), Best(currentIntensity, cs, 3 * (a + 1) + (b + 1)))
      ensures next == ChoiceOf(currentIntensity, cs, StepOf(prm.gridSize), Best(currentIntensity, cs, 3 * (a + 1) + (b + 1) + 1))
    {
      ScanAdvance(currentIntensity, cs, StepOf(prm.gridSize), a, b, c);
      next := c;
      if dx == 0.0 && dy == 0.0 {
        return;
      }
      var nextX, nextY := p.x + dx, p.y + dy;
      if nextX < 0.0 || nextX > 1.0 || nextY < 0.0 || nextY > 1.0 {
        return;
      }
      var neighborIntensity := IntensityAt(nextX, nextY);
      if neighborIntensity < c.minI {
        next := Choice(neighborIntensity, dx, dy);
      }
    }

    /** One particle of `moveSandParticles`: its scan, then, if it moves, the step, the jitter and the clamp. */
    method MoveParticle(p: Point, d: Draw) returns (q: Point)
      requires Valid() && grid != null
      ensures q == MoveOne(grid, prm.gridSize, p, d)
    {
      var minIntensity, moveX, moveY := ScanNeighbours(p);
      q := p;
      if moveX != 0.0 || moveY != 0.0 {
        var x := p.x + moveX * Speed + (d.rx - 0.5) * Jitter;
        var y := p.y + moveY * Speed + (d.ry - 0.5) * Jitter;
        x := Clamp(0.0, 1.0, x);
        y := Clamp(0.0, 1.0, y);
        q := Point(x, y);
      }
    }

    /**
     * `moveSandParticles()`: nothing without a grid; otherwise every particle,
     * in order and in place, takes its own move with its own draws.
     */
    method MoveSandParticles(draws: seq<Draw>)
      requires Valid() && |draws| == |particles|
      modifies this
      ensures Valid() && prm == old(prm) && grid == old(grid)
      ensures grid == null ==> particles == old(particles)
      ensures grid != null ==> particles == MoveAll(grid, prm.gridSize, old(particles), draws)
    {
      if grid == null || |particles| == 0 {
        return;
      }
      ghost var before := particles;
      var idx := 0;
      while idx < |particles|
        invariant 0 <= idx <= |particles| == |before|
        invariant Valid() && prm == old(prm) && grid == old(grid)
        invariant forall i :: 0 <= i < idx ==> particles[i] == MoveOne(grid, prm.gridSize, before[i], draws[i])
        invariant forall i :: idx <= i < |particles| ==> particles[i] == before[i]
      {
        var q := MoveParticle(particles[idx], draws[idx]);
        MoveStaysOnPlate(grid, prm.gridSize, particles[idx], draws[idx]);
        particles := particles[idx := q];
        idx := idx + 1;
      }
    }

    /** `generateSand()`: `amount` new particles from fresh draws, appended; a non-positive amount adds none. */
    method GenerateSand(amount: int, draws: seq<Draw>)
      requires Valid() && |draws| == (if amount > 0 then amount else 0)
      requires forall i :: 0 <= i < |draws| ==> ValidDraw(draws[i])
      modifies this
      ensures Valid() && prm == old(prm) && grid == old(grid)
      ensures particles == old(particles) + Scatter(draws)
    {
      var newSand := [];
      var i := 0;
      while i < amount
        invariant 0 <= i <= |draws| && (i < |draws| ==> i < amount)
        invariant newSand == Scatter(draws[..i])
      {
        newSand := newSand + [Point(draws[i].rx, draws[i].ry)];
        i := i + 1;
      }
      assert draws[..i] == draws;
      particles := particles + newSand;
    }

    /** `addSmallSandBatch()`: twenty new particles from fresh draws, appended. */
    method AddSmallSandBatch(draws: seq<Draw>)
      requires Valid() && |draws| == BatchSize
      requires forall i :: 0 <= i < |draws| ==> ValidDraw(draws[i])
      modifies this
      ensures Valid() && prm == old(prm) && grid == old(grid)
      ensures particles == old(particles) + Scatter(draws)
    {
      var newSand := [];
      var i := 0;
      while i < BatchSize
        invariant 0 <= i <= BatchSize
        invariant newSand == Scatter(draws[..i])
      {
        newSand := newSand + [Point(draws[i].rx, draws[i].ry)];
        i := i + 1;
      }
      assert draws[..i] == draws;
      particles := particles + newSand;
    }

    /** `clearSand()`: no particles remain; the grid stays. */
    method ClearSand()
      requires Valid()
      modifies this
      ensures Valid() && prm == old(prm) && grid == old(grid) && particles == []
    {
      particles := [];
    }
  }
}
