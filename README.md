# Chladni plate field engine, in Dafny

This project models the numerical core of a browser simulator of Chladni
figures: the sand patterns on a square plate of side `L` driven at wave number
`k` from a source point `(x0, y0)`. The model covers these parts:

- **Complex numbers** (`complex.dfy`, module `ComplexNumbers`). The immutable
  `Complex` value with `add`, `sub`, `mul`, `div`, `abs`/`magnitude`, `pow`
  and the static `abs` and `I`.
  - The number-or-Complex argument of each operation is a datatype `Arg`.
  - The two exceptions are a `Result` datatype.
- **Modal basis and point field** (`modal.dfy`, module `Modal`).
  - The mode shapes `(2/L)·cos(mπx/L)·cos(nπy/L)`.
  - The mode wave numbers `(π/L)·sqrt(m² + n²)`.
  - `calculatePsi`: a double loop summing `f(x,y)·f(x0,y0) / ((k² − kmn²) + 2iγk)`. A mode whose denominator's magnitude is below 1e-9 is skipped.
- **Intensity grid** (`grid.dfy`, module `IntensityGrid`, and `plate.dfy`). A
  `gridSize × gridSize` array of `|psi|²`, then min-max normalised in place. When
  the range is at most 1e-9 the grid is filled with a constant instead.
- **The sand** (`plate.dfy`, module `Plate`). Sand grains walk downhill on the
  normalised grid: each looks at its 8 neighbours at distance `1.5/gridSize` and
  moves towards the lowest one strictly below its own cell. Grains are appended
  in batches and cleared.
- **The zero-dimensional response** (`response.dfy`, module `Response`). `countk`
  is the same guarded modal sum at the source point, fed back through
  `|sum / (1 + 3.3·sum)|`.
- **The wave-number sweep** (`sweep.dfy`, module `Sweep`). The sweep runs k from
  1.0 to 30.0 in steps of 0.1, and a 3-point scan picks out peaks and troughs.

The program's mutable globals are modelled as follows:
- `L`, `gridSize`, `gamma`, `S`, `S0_k`, `x0`, `y0` become a `Params` value.
- `intensityGrid` and `sandParticles` become the fields of a `Simulation` object, whose methods update them in place.

`Math.pow(v, 2)` (script.js:243, 262 and 454) is modelled as the exact square
`v·v` (`RealMath.Sq`). `Math.sqrt`, `Math.cos`, `Math.sin`, `Math.atan2`, the
polar branch's `Math.pow(base.abs(), exponent)` (complex.js:66) and `Math.PI`
have no exact meaning over `real`. They are carried by a `Prims` value as
opaque functions. `Lawful` states the only laws the proofs use, and none is
assumed of `sin`, `atan2` or that `Math.pow`:
- `pi > 0`;
- `sqrt` is the non-negative square root on non-negative arguments;
- `cos` lies in [-1, 1].

`Math.random()` is an input: each `Draw` is one pair of draws.

A moving grain takes the lowest examined neighbour strictly below its own
cell, and the first one found on a tie (`Plate.BestIsFirstLowest`,
`Plate.MoveHeadsForFirstLowest`): the scan keeps a running minimum, so it does
not simply take the first strictly lower neighbour.

## Model

| member | source | states |
|---|---|---|
| ComplexNumbers.NormSq | complex.js:37 | `re² + im²` is never negative and is zero exactly when both parts are zero |
| ComplexNumbers.Add | complex.js:9-14 | subtracting the same argument again gives back the receiver; a number argument leaves the imaginary part unchanged |
| ComplexNumbers.Sub | complex.js:16-21 | a number argument leaves the imaginary part unchanged |
| ComplexNumbers.SubThenAdd | complex.js:9-21 | adding back what was subtracted gives back the receiver, for number and Complex arguments |
| ComplexNumbers.NumberFastPaths | complex.js:9-41 | the number fast paths of add, sub, mul and div agree with the Complex paths applied to `new Complex(x)` |
| ComplexNumbers.MulNorm | complex.js:23-30 | the squared magnitude of a product is the product of the squared magnitudes |
| ComplexNumbers.MulCommutes | complex.js:27-29 | Complex multiplication is commutative |
| ComplexNumbers.MulAssociates | complex.js:27-29 | Complex multiplication is associative |
| ComplexNumbers.OneIsUnit | complex.js:23-30 | `new Complex(1)` is a two-sided unit of multiplication |
| ComplexNumbers.Div | complex.js:32-42 | fails with DivisionByZero exactly when the divisor is the number 0 or a Complex with squared magnitude 0; otherwise succeeds, and the quotient times the divisor is the dividend |
| ComplexNumbers.DivByNumber | complex.js:33-36 | fails exactly at 0; otherwise each part of the quotient times the divisor is the dividend's part |
| ComplexNumbers.DivByComplex | complex.js:37-41 | fails exactly when `re² + im²` of the divisor is 0; otherwise the quotient times the divisor is the dividend |
| ComplexNumbers.ConjugateQuotient | complex.js:39-41 | the conjugate formula over `re² + im²` is a true quotient: multiplied by the divisor it gives the dividend |
| ComplexNumbers.DivThenMul | complex.js:37-41 | `a.div(b).mul(b) == a` for every `b` with nonzero squared magnitude |
| ComplexNumbers.Abs | complex.js:44-46 | `abs()` is non-negative and its square is `re² + im²` |
| ComplexNumbers.Magnitude | complex.js:48-50 | `magnitude()` equals `abs()` |
| ComplexNumbers.AbsZeroIffZero | complex.js:44-46 | `abs()` is zero exactly at 0+0i |
| ComplexNumbers.AbsBoundedAwayFromZero | complex.js:44-46 | a magnitude of at least a positive bound means a nonzero squared magnitude, so dividing by that value cannot raise |
| ComplexNumbers.StaticAbs | complex.js:75-78 | of a number: a non-negative value equal to it or to its negation; of a Complex: its `abs()` |
| ComplexNumbers.StaticAbsOfNumber | complex.js:75-78 | `Complex.abs(x)` of a number is `abs()` of `new Complex(x)` and is the absolute value of x |
| RealMath.RealAbs | complex.js:76 | `Math.abs` is non-negative and equals its argument or its negation |
| ComplexNumbers.I | complex.js:81-83 | `I·I == -1 + 0i` |
| ComplexNumbers.PowNat | complex.js:56-61 | the zeroth power is `1 + 0i` (the loop's start) |
| ComplexNumbers.Pow | complex.js:52-73 | a Complex exponent raises; a non-negative integer exponent n gives `1` multiplied n times by the base, a number base being read as `new Complex(base)`; any other number exponent gives the polar form |
| ComplexNumbers.PowTwoIsSquare | complex.js:56-65 | exponent 2 is taken by the integer loop and gives `a·a`, so the `exponent === 2` branch is never reached |
| ComplexNumbers.PowNatAdds | complex.js:56-61 | powers add: `a^(i+j) == a^i · a^j` |
| ComplexNumbers.PowNatNorm | complex.js:56-61 | the squared magnitude of `a^n` is that of `a` to the n-th power |
| Modal.Amplitude | script.js:230 | the mode amplitude `2/L` is positive |
| Modal.ModeValueBounded | script.js:229-231 | every mode shape lies within ±2/L |
| Modal.KmnSquared | script.js:232-234 | `kmn` is non-negative and `kmn² == (π/L)²·(n² + m²)` |
| Modal.GuardedTermSkips | script.js:244-246 | a mode's term is skipped exactly when its denominator's magnitude is below 1e-9 |
| Modal.GuardedTermDivides | script.js:245-246 | past the guard the division succeeds, and the kept term times the denominator is the numerator |
| Modal.GuardedTermKept | script.js:245-246 | past the guard the kept term is exactly the quotient `div` returns |
| Modal.ModeTermAt | script.js:241-246 | the term of mode (m, n) is the guarded quotient of the two mode shapes' product by `(k² − kmn²) + damping` |
| Modal.PsiDenominator | script.js:237-244 | calculatePsi's denominator `new Complex(k² − kmn²).add(2iγk)` is the shared denominator for the drive `(k², 2iγk)` |
| Modal.CalculatePsi | script.js:235-251 | the loops return the guarded modal sum over n, m < S in loop order, and no division in them can raise |
| Modal.PsiRow | script.js:240-248 | the inner loop adds row n's kept terms, m = 0 .. S-1, to the running sum |
| Modal.AddPsiTerm | script.js:241-247 | one pass of the inner loop leaves the sum unchanged for a skipped mode and adds the mode's term otherwise |
| Modal.PsiWithoutModes | script.js:236-250 | with S = 0 the field is 0 + 0i |
| Modal.CouplingSymmetric | script.js:241-242 | a term's numerator is unchanged when the observation and source points trade places |
| Modal.RowSumSymmetric | script.js:240-248 | a row's sum is unchanged when the two points trade places |
| Modal.ModalSumSymmetric | script.js:239-249 | the whole guarded sum is unchanged when the two points trade places |
| Modal.PsiSymmetric | script.js:235-251 | reciprocity: the field at (x, y) from source (x0, y0) equals the field at (x0, y0) from source (x, y) |
| IntensityGrid.RawIntensity | script.js:258-262 | each first-pass cell is the squared magnitude of psi at `(L·i/gridSize, L·j/gridSize)`, and is never negative |
| IntensityGrid.RawGrid | script.js:255-267 | the first-pass values form a gridSize × gridSize grid of non-negative numbers |
| IntensityGrid.FoldRowCovers | script.js:261-265 | a row of max/min updates only widens the running extremes, and they then enclose every cell of that row |
| IntensityGrid.FoldRowAttains | script.js:264-265 | after a row, each running extreme is its previous value or one of the row's cells |
| IntensityGrid.FoldRowsCovers | script.js:255-267 | after i rows the running extremes enclose every cell seen |
| IntensityGrid.FoldRowsAttains | script.js:255-267 | after i rows the maximum is its initial 0 or is some cell seen; the minimum is its initial Infinity or is some cell seen |
| IntensityGrid.ExtentOfGrid | script.js:255-267 | on a non-empty grid of intensities, the pass finds a finite minimum, puts every cell between minimum and maximum, and attains both at some cell |
| IntensityGrid.NormaliseInUnit | script.js:268-280 | every cell between the extremes is normalised into [0, 1], by either the range division or the constant fill |
| IntensityGrid.NormaliseEnds | script.js:269-273 | with a range above 1e-9 the minimum cell becomes 0 and the maximum cell becomes 1 |
| IntensityGrid.NormaliseMonotone | script.js:268-280 | normalising keeps the order of cells, and keeps it strict when the range is above 1e-9 |
| IntensityGrid.NormaliseFlat | script.js:275-279 | with a range of at most 1e-9 every cell becomes 0.5 when the maximum is above 1e-9 and 0 otherwise |
| Plate.FirstPass | script.js:254-267 | the first pass returns a fresh gridSize × gridSize array holding the squared magnitude of psi at every cell, and the running max and min of those cells in row-major order |
| Plate.FirstPassRow | script.js:257-266 | row i gets the squared magnitudes of psi, no other row changes, and the running extremes are carried through that row |
| Plate.CellIntensity | script.js:258-262 | cell (i, j)'s value is `Math.pow(calculatePsi(L·i/gridSize, L·j/gridSize, k).magnitude(), 2)` |
| Plate.SecondPass | script.js:268-280 | each cell is replaced by `(v − min)/range` when the range is above 1e-9, and otherwise by the constant 0.5 or 0 |
| Plate.Simulation.CalculateIntensityGrid | script.js:252-283 | replaces the grid with a fresh gridSize × gridSize array of normalised squared magnitudes of psi, using the extremes the first pass found; the session invariant (all cells in [0, 1]) is kept; the parameters and particles are unchanged |
| Plate.Simulation.constructor | script.js:53-54 | a session starts with no grid and no sand |
| RealMath.ClampInt | script.js:374-375 | `Math.max(lo, Math.min(hi, v))` on integers lies in [lo, hi], is v inside it, and is the nearer end outside |
| Plate.CellIndex | script.js:374-375 | the clamped cell index always lies in [0, gridSize − 1], so a lookup never indexes out of bounds |
| Plate.CellIndexContains | script.js:374-375 | for a point inside the plate the index is the cell containing it: `i ≤ u·gridSize < i + 1` |
| Plate.Simulation.IntensityAt | script.js:372-377 | `getIntensityAt` is 0.5 without a grid, and always lies in [0, 1] |
| Plate.StepOf | script.js:382 | the probe step `1.5/gridSize` is positive |
| Plate.ScanOrder | script.js:388-389 | the loop counters (dx, dy) visit the neighbours in the order dx outer, dy inner, each from −step to +step |
| Plate.NeighbourVisit | script.js:388-393 | the neighbour the loops reach at counters (a, b) is candidate 3·(a+1) + (b+1), seen as examined unless it is the grain itself or off the plate |
| Plate.ColumnSighted | script.js:389-393 | every neighbour of one column, as the inner loop sees it |
| Plate.ScanAdvance | script.js:389-398 | one visit replaces the held choice by the neighbour exactly when that neighbour is examined and strictly below the current minimum |
| Plate.BestIsFirstLowest | script.js:385-400 | the scan holds nothing exactly when no examined neighbour is strictly below the grain's cell; otherwise it holds an examined neighbour strictly below it, no examined neighbour is lower, and every examined one before it is strictly higher |
| Plate.Simulation.ScanNeighbours | script.js:385-400 | the two loops end with the minimum and direction of the scan's specification |
| Plate.Simulation.ScanColumn | script.js:389-399 | the inner loop advances the scan through one whole column |
| Plate.Simulation.VisitNeighbour | script.js:390-398 | one inner-loop pass advances the scan by exactly one candidate, skipping the centre and points off the plate |
| RealMath.Clamp | script.js:405-406 | `Math.max(0, Math.min(1, v))` lies in [0, 1], is v inside it, and is the nearer end outside |
| Plate.MovesIffLowerNeighbour | script.js:380-406 | a grain moves exactly when some examined neighbour is strictly below its own cell; a grain with none keeps its exact position and takes no jitter |
| Plate.MoveHeadsForFirstLowest | script.js:385-406 | a grain that moves takes the direction of an examined neighbour strictly below its cell, lowest among the examined, and first in scan order among the lowest |
| Plate.MoveStaysOnPlate | script.js:402-406 | a grain on the plate stays on the plate after its move |
| Plate.Simulation.MoveParticle | script.js:384-406 | one grain's new position is its scan's direction times 0.005 plus the jitter, clamped to [0, 1]; or its old position if the scan found nothing |
| Plate.Simulation.MoveSandParticles | script.js:379-409 | nothing changes without a grid; otherwise the number and order of grains are kept and each grain is moved in place on its own; the grid, the parameters and "all sand on the plate" are kept |
| Plate.Simulation.GenerateSand | script.js:309-315 | `amount` new grains from fresh draws are appended after the existing ones, none for a non-positive amount |
| Plate.Simulation.AddSmallSandBatch | script.js:324-329 | twenty new grains from fresh draws are appended after the existing ones |
| Plate.Simulation.ClearSand | script.js:360-361 | no grain remains; the grid and the parameters are unchanged |
| Response.CountK | script.js:448-467 | countk returns the guarded feedback quotient's magnitude of the guarded modal sum at the source point with S0_k modes |
| Response.CountKSum | script.js:452-461 | the two loops return the guarded modal sum for the drive `(k², 2iγ·k)` |
| Response.CountKRow | script.js:453-460 | the inner loop adds row n's kept terms to the running sum |
| Response.AddCountKTerm | script.js:454-459 | one pass of the inner loop leaves the sum unchanged for a skipped mode and adds the mode's term otherwise |
| Response.FeedbackKept | script.js:463-466 | past the 1e-9 guard the division by `1 + 3.3·sum` cannot raise, and the result is the quotient's magnitude |
| Response.ResponseQuotient | script.js:463-466 | countk is exactly 0 when the magnitude of `1 + 3.3·sum` is below 1e-9; otherwise it is the non-negative number that, multiplied by the magnitude of `1 + 3.3·sum`, gives the magnitude of `sum` |
| Response.ResponseNonNegative | script.js:448-467 | countk never returns a negative value |
| Response.RealDrive | script.js:450-451 | at a real wave number, countk's `Complex.pow(k, 2)` and `(2iγ)·k` equal calculatePsi's `k²` and `2iγk` |
| Response.SourceSumIsPsiAtSource | script.js:448-461 | at a real wave number, countk's sum is calculatePsi's guarded sum at the source point with S0_k modes; when S = S0_k it is calculatePsi(x0, y0, k) itself |
| Sweep.SampleRange | script.js:470-472 | over the reals, sample `1.0 + i·0.1` is at most 30.0 exactly for i < 291 |
| Sweep.SamplesAscend | script.js:470-472 | the sampled wave numbers strictly ascend |
| Sweep.SweepK | script.js:470-475 | the sweep returns 291 wave numbers `1.0 + i·0.1` and, at each, countk of `new Complex(k)` |
| Sweep.ScanEnd | script.js:477 | the scan examines the indices from 1 up to, not including, a bound that is 1 or below the length |
| Sweep.PeakIndices | script.js:477-478 | the recorded peak indices lie strictly between 0 and the scan's end |
| Sweep.TroughIndices | script.js:477-479 | the recorded trough indices lie strictly between 0 and the scan's end |
| Sweep.Records | script.js:478-479 | one `{k, val}` record is pushed per recorded index |
| Sweep.FindExtrema | script.js:476-480 | the loop pushes exactly the records of the peak indices and of the trough indices, in index order |
| Sweep.ScanStep | script.js:477-479 | one pass of the scan pushes index i's record onto the list its test selects and onto no other |
| Sweep.PeakNotTrough | script.js:478-479 | no sample is both a peak and a trough |
| Sweep.PeakIndicesExact | script.js:477-478 | an index is recorded as a peak exactly when it is examined and strictly above both neighbours |
| Sweep.TroughIndicesExact | script.js:477-479 | an index is recorded as a trough exactly when it is examined, strictly below both neighbours and above 1e-6 |
| Sweep.ScanReportsExactly | script.js:476-480 | the scan reports exactly the interior peaks and the interior troughs: never index 0 or the last index, and no index as both |
| Sweep.ExtremaAscending | script.js:477-479 | both index lists strictly ascend |
| Sweep.RecordsAt | script.js:478-479 | the j-th record is the wave number and value of the j-th recorded index |
| Sweep.RecordsAscendingK | script.js:476-480 | over ascending wave numbers, the records of ascending indices come in ascending k |

## Left out

- Drawing, the log10 plot mapping and the peak list's page wiring are not part of this model. They are canvas and DOM code.
- Web Audio, the frequency mapping inside the sound calls, `requestAnimationFrame` pacing, and the pause, continue and continuous-generation timers are not part of this model. They are browser scheduling and foreign APIs.
- The settings storage, the screenshot export, the OpenAI chat, vision, speech and embedding calls, and generate_embeddings.py are not part of this model. They are I/O and network code.
- Floating-point behaviour is not modelled: rounding, NaN and Infinity of float64. All arithmetic is over exact reals, `Math.pow(v, 2)` is the exact square `v·v`, and `Math.cos`, `Math.sin`, `Math.sqrt`, `Math.atan2`, the polar branch's `Math.pow` and `Math.PI` are opaque, with laws assumed only of `Math.PI`, `Math.sqrt` and `Math.cos`.
- ComplexNumbers.Polar: the real-exponent polar branch of `pow` is built on the opaque primitives, and nothing is proved about it beyond its being taken.
- ComplexNumbers.Pow: the `exponent === 2` shortcut inside the non-integer branch is not modelled, because no exponent can reach it (2 is taken by the integer loop, see `PowTwoIsSquare`).
- Modal.ModeValue: `calculateFunc` (script.js:229-231) has no contract of its own; its bound is stated by `Modal.ModeValueBounded` and its use in each term by `Modal.ModeTermAt`.
- Modal.Kmn: `calculateKmn` (script.js:232-234) has no contract of its own; its sign and its square are stated by `Modal.KmnSquared`.
- ComplexNumbers.Mul: no contract of its own; its number path and its Complex formula are covered by `NumberFastPaths`, `MulNorm`, `MulCommutes`, `MulAssociates` and `OneIsUnit`.
- Sweep.SweepK: the float accumulation `k += 0.1` is not modelled. Over the reals the sweep has exactly 291 samples `1.0 + i·0.1`; in float64 the last sample can differ.
- Plate.Simulation.ScanNeighbours: the loops `dx += step` and `dy += step` are over exact reals, where they take exactly three values each. Floating-point drift in the counters is not modelled.
- Plate.Simulation.MoveSandParticles: the draws are indexed by grain. The code calls `Math.random()` twice for each moved grain only. Each grain here is given its own pair of draws, which an unmoved grain ignores. The positions are the same; the numbering of the random stream is not.
- Plate.Simulation.MoveSandParticles: grains are values in a sequence, so the identity and aliasing of the JavaScript particle objects is not modelled.
- Plate.Simulation.GenerateSand: `amount` is an integer; a `parseInt` that yields NaN is not modelled. It adds no grains in the code, as a non-positive amount does here.
- Plate.Simulation.GenerateSand, Plate.Simulation.AddSmallSandBatch and Plate.Simulation.ClearSand: starting or stopping the animation and the continuous generation, and redrawing, are not modelled. They are the UI side effects of these functions.
- Plate.Simulation.CalculateIntensityGrid: the Promise wrapper is not modelled. The global grid is only built while the function runs synchronously, so the model builds a fresh array and installs it at the end.
- Plate.Simulation.CalculateIntensityGrid: `gridSize` is a field of the session's `prm` that no method changes, as the program sets it once (script.js:69) and never reassigns it; the grid is always read with the size it was computed with.
- `Math.random()` is an input. A `Draw` is one pair of values in [0, 1), and the jitter `(r − 0.5)·0.001` is computed from it.
