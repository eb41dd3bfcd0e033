/**
 * The wave-number sweep of the response graph and its peak/trough scan
 * (script.js: plotKGraph, without the drawing).
 *
 * k runs from 1.0 while k <= 30.0 in steps of 0.1, over the reals; every
 * sample is countk at that k. A sample strictly above both neighbours is a
 * peak; failing that, a sample strictly below both neighbours and above 1e-6
 * is a trough. The two end samples have only one neighbour and are never
 * examined.
 */
module Sweep {
  import opened RealMath
  import opened ComplexNumbers
  import opened Modal
  import opened Response

  const KMin: real := 1.0
  const KMax: real := 30.0
  const KStep: real := 0.1

  /** A trough must lie above this level. */
  const TroughFloor: real := 0.000001

  /** The number of samples `1.0 + i·0.1 <= 30.0` over the reals: i = 0 .. 290. */
  const SampleCount: nat := 291

  /** The i-th sampled wave number. */
  function SampleK(i: nat): real {
    KMin + i as real * KStep
  }

  /** Exactly the first 291 sample points lie within the sweep's range. */
  lemma SampleRange(i: nat)
    ensures SampleK(i) <= KMax <==> i < SampleCount
  {
  }

  /** The sweep: the wave numbers sampled, and countk at each of them, in order. */
  method SweepK(mp: Prims, prm: Params) returns (ks: seq<real>, fs: seq<real>)
    requires Lawful(mp) && prm.L > 0.0
    ensures |ks| == SampleCount && |fs| == SampleCount
    ensures forall i :: 0 <= i < |ks| ==> ks[i] == SampleK(i)
    ensures forall i :: 0 <= i < |fs| ==> fs[i] == ResponseValue(mp, prm, Of(SampleK(i)))
  {
    ks, fs := [], [];
    var k := KMin;
    while k <= KMax
      invariant |fs| == |ks| <= SampleCount
      invariant k == SampleK(|ks|)
      invariant forall i :: 0 <= i < |ks| ==> ks[i] == SampleK(i)
      invariant forall i :: 0 <= i < |fs| ==> fs[i] == ResponseValue(mp, prm, Of(SampleK(i)))
      decreases SampleCount - |ks|
    {
      SampleRange(|ks|);
      ks := ks + [k];
      var f := CountK(mp, prm, Of(k));
      fs := fs + [f];
      k := k + KStep;
    }
    SampleRange(|ks|);
  }

  /** An interior sample strictly greater than both neighbours. */
  predicate IsPeak(fs: seq<real>, i: nat)
    requires 0 < i < |fs| - 1
  {
    fs[i] > fs[i - 1] && fs[i] > fs[i + 1]
  }

  /** An interior sample strictly less than both neighbours and above the trough floor. */
  predicate IsTrough(fs: seq<real>, i: nat)
    requires 0 < i < |fs| - 1
  {
    fs[i] < fs[i - 1] && fs[i] < fs[i + 1] && fs[i] > TroughFloor
  }

  /** Where the scan `for (i = 1; i < fs.length - 1; i++)` stops: it examines the indices 1 .. ScanEnd(fs) - 1. */
  function ScanEnd(fs: seq<real>): (e: nat)
    ensures e >= 1 && (e == 1 || e < |fs|)
  {
    if |fs| >= 2 then |fs| - 1 else 1
  }

  /** The indices 1 .. hi-1 that are peaks, in ascending order. */
  function PeakIndices(fs: seq<real>, hi: nat): (r: seq<nat>)
    requires hi >= 1 && (hi == 1 || hi < |fs|)
    ensures forall j :: 0 <= j < |r| ==> 1 <= r[j] < hi
  {
    if hi == 1 then []
    else PeakIndices(fs, hi - 1) + (if IsPeak(fs, hi - 1) then [hi - 1] else [])
  }

  /** The indices 1 .. hi-1 that are not peaks but troughs, in ascending order: the `else if` of the scan. */
  function TroughIndices(fs: seq<real>, hi: nat): (r: seq<nat>)
    requires hi >= 1 && (hi == 1 || hi < |fs|)
    ensures forall j :: 0 <= j < |r| ==> 1 <= r[j] < hi
  {
    if hi == 1 then []
    else TroughIndices(fs, hi - 1) + (if !IsPeak(fs, hi - 1) && IsTrough(fs, hi - 1) then [hi - 1] else [])
  }

  /** A reported extremum: its wave number and its response value. */
  datatype Extremum = Extremum(k: real, val: real)

  /** The records the scan pushes for the given indices. */
  function Records(ks: seq<real>, fs: seq<real>, idx: seq<nat>): (r: seq<Extremum>)
    requires |ks| == |fs|
    requires forall j :: 0 <= j < |idx| ==> idx[j] < |fs|
    ensures |r| == |idx|
  {
    if idx == [] then [] else Records(ks, fs, idx[..|idx| - 1]) + [Extremum(ks[idx[|idx| - 1]], fs[idx[|idx| - 1]])]
  }

  /** The peak/trough loop over the samples. */
  method FindExtrema(ks: seq<real>, fs: seq<real>) returns (peaks: seq<Extremum>, troughs: seq<Extremum>)
    requires |ks| == |fs|
    ensures peaks == Records(ks, fs, PeakIndices(fs, ScanEnd(fs)))
    ensures troughs == Records(ks, fs, TroughIndices(fs, ScanEnd(fs)))
  {
    peaks, troughs := [], [];
    var i := 1;
    while i < |fs| - 1
      invariant 1 <= i <= ScanEnd(fs)
      invariant peaks == Records(ks, fs, PeakIndices(fs, i))
      invariant troughs == Records(ks, fs, TroughIndices(fs, i))
    {
      ScanStep(ks, fs, i);
      if fs[i] > fs[i - 1] && fs[i] > fs[i + 1] {
        assert IsPeak(fs, i);
        peaks := peaks + [Extremum(ks[i], fs[i])];
      } else if fs[i] < fs[i - 1] && fs[i] < fs[i + 1] && fs[i] > TroughFloor {
        assert !IsPeak(fs, i) && IsTrough(fs, i);
        troughs := troughs + [Extremum(ks[i], fs[i])];
      } else {
        assert !IsPeak(fs, i) && !IsTrough(fs, i);
      }
      i := i + 1;
    }
    assert i == ScanEnd(fs);
  }

  /** One pass of the scan appends index i's record to the list its test selects, and to no other. */
  lemma ScanStep(ks: seq<real>, fs: seq<real>, i: nat)
    requires |ks| == |fs| && 1 <= i < |fs| - 1
    ensures Records(ks, fs, PeakIndices(fs, i + 1)) ==
      Records(ks, fs, PeakIndices(fs, i)) + (if IsPeak(fs, i) then [Extremum(ks[i], fs[i])] else [])
    ensures Records(ks, fs, TroughIndices(fs, i + 1)) ==
      Records(ks, fs, TroughIndices(fs, i)) + (if !IsPeak(fs, i) && IsTrough(fs, i) then [Extremum(ks[i], fs[i])] else [])
  {
    var pi, ti := PeakIndices(fs, i), TroughIndices(fs, i);
    if IsPeak(fs, i) {
      RecordsSnoc(ks, fs, pi, i);
    } else {
      assert PeakIndices(fs, i + 1) == pi;
    }
    if !IsPeak(fs, i) && IsTrough(fs, i) {
      RecordsSnoc(ks, fs, ti, i);
    } else {
      assert TroughIndices(fs, i + 1) == ti;
    }
  }

  /** Pushing one record is recording one more index. */
  lemma RecordsSnoc(ks: seq<real>, fs: seq<real>, idx: seq<nat>, i: nat)
    requires |ks| == |fs| && i < |fs|
    requires forall j :: 0 <= j < |idx| ==> idx[j] < |fs|
    ensures Records(ks, fs, idx + [i]) == Records(ks, fs, idx) + [Extremum(ks[i], fs[i])]
  {
    assert (idx + [i])[..|idx|] == idx;
  }

  /** A sample cannot be both above and below its neighbours. */
  lemma PeakNotTrough(fs: seq<real>, i: nat)
    requires 0 < i < |fs| - 1
    ensures !(IsPeak(fs, i) && IsTrough(fs, i))
  {
  }

  lemma {:induction false} PeakIndicesExact(fs: seq<real>, hi: nat, i: nat)
    requires hi >= 1 && (hi == 1 || hi < |fs|)
    ensures i in PeakIndices(fs, hi) <==> 1 <= i < hi && IsPeak(fs, i)
  {
    if hi > 1 {
      PeakIndicesExact(fs, hi - 1, i);
    }
  }

  lemma {:induction false} TroughIndicesExact(fs: seq<real>, hi: nat, i: nat)
    requires hi >= 1 && (hi == 1 || hi < |fs|)
    ensures i in TroughIndices(fs, hi) <==> 1 <= i < hi && IsTrough(fs, i)
  {
    if hi > 1 {
      TroughIndicesExact(fs, hi - 1, i);
      PeakNotTrough(fs, hi - 1);
    }
  }

  /**
   * The scan reports exactly the interior peaks and the interior troughs: never
   * the first or the last sample, and no sample as both.
   */
  lemma ScanReportsExactly(fs: seq<real>, i: nat)
    ensures i in PeakIndices(fs, ScanEnd(fs)) <==> 0 < i < |fs| - 1 && IsPeak(fs, i)
    ensures i in TroughIndices(fs, ScanEnd(fs)) <==> 0 < i < |fs| - 1 && IsTrough(fs, i)
    ensures !(i in PeakIndices(fs, ScanEnd(fs)) && i in TroughIndices(fs, ScanEnd(fs)))
  {
    PeakIndicesExact(fs, ScanEnd(fs), i);
    TroughIndicesExact(fs, ScanEnd(fs), i);
    if 0 < i < |fs| - 1 {
      PeakNotTrough(fs, i);
    }
  }

  predicate StrictlyAscending(idx: seq<nat>) {
    forall a, b :: 0 <= a < b < |idx| ==> idx[a] < idx[b]
  }

  /** Both lists come out in ascending sample order, so in ascending k. */
  lemma {:induction false} ExtremaAscending(fs: seq<real>, hi: nat)
    requires hi >= 1 && (hi == 1 || hi < |fs|)
    ensures StrictlyAscending(PeakIndices(fs, hi)) && StrictlyAscending(TroughIndices(fs, hi))
  {
    if hi > 1 {
      ExtremaAscending(fs, hi - 1);
    }
  }

  /** The j-th record is the wave number and value of the j-th index. */
  lemma {:induction false} RecordsAt(ks: seq<real>, fs: seq<real>, idx: seq<nat>, j: nat)
    requires |ks| == |fs|
    requires forall t :: 0 <= t < |idx| ==> idx[t] < |fs|
    requires j < |idx|
    ensures Records(ks, fs, idx)[j] == Extremum(ks[idx[j]], fs[idx[j]])
  {
    if j < |idx| - 1 {
      RecordsAt(ks, fs, idx[..|idx| - 1], j);
    }
  }

  /** Over ascending wave numbers, the records of ascending indices have ascending k. */
  lemma RecordsAscendingK(ks: seq<real>, fs: seq<real>, idx: seq<nat>, a: nat, b: nat)
    requires |ks| == |fs|
    requires forall t :: 0 <= t < |idx| ==> idx[t] < |fs|
    requires StrictlyAscending(idx)
    requires forall p, q :: 0 <= p < q < |ks| ==> ks[p] < ks[q]
    requires a < b < |idx|
    ensures Records(ks, fs, idx)[a].k < Records(ks, fs, idx)[b].k
  {
    RecordsAt(ks, fs, idx, a);
    RecordsAt(ks, fs, idx, b);
  }

  /** The sampled wave numbers ascend. */
  lemma SamplesAscend(p: nat, q: nat)
    requires p < q
    ensures SampleK(p) < SampleK(q)
  {
  }
}
