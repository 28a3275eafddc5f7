/** conf/eval_scripts/NDVI.js: the per-pixel median NDVI, quantised to INT16. */
module NdviScript {
  import opened Results
  import opened ScriptLib

  /** `nodataValue` declared in the script's `setup()`. */
  const DeclaredNodata := -999

  /** `2**16/2-1`, the INT16 scale the median is multiplied by. */
  const Int16Scale := 32767

  /** `ndvi_arr` after the loop: `index(B08, B04)` of every contributing sample, in order. */
  function NdviValues(samples: seq<Sample>, idx: IndexFn): seq<real> {
    Collect(samples, SampleIndex(idx))
  }

  /** The script's output as a function of all samples; `None` is the NaN of an empty median. */
  function Ndvi(samples: seq<Sample>, idx: IndexFn): (r: Option<int>)
    ensures r.None? <==> forall i :: 0 <= i < |samples| ==> !Contributes(samples[i])
  {
    CollectEmpty(samples, SampleIndex(idx));
    Quantise(Median(NdviValues(samples, idx)))
  }

  /** `Math.round(ndvi * (2**16/2-1))`; NaN stays NaN. */
  function Quantise(median: Option<real>): (r: Option<int>)
    ensures r.None? <==> median.None?
    // the median is scaled by 32767 and rounded to the nearest integer
    ensures median.Some? ==>
              r.Some? && median.value * Int16Scale as real - 0.5 < r.value as real <= median.value * Int16Scale as real + 0.5
  {
    if median.None? then None else Some(Round(median.value * Int16Scale as real))
  }

  /**
    `evaluatePixel`: collect the NDVI of contributing samples, take the median and scale
    it by 32767. NaN exactly when no sample contributes; within the INT16 range whenever
    the provider's index stays within [-1, 1].
  */
  method EvaluatePixel(samples: seq<Sample>, idx: IndexFn) returns (ndvi: Option<int>)
    ensures ndvi == Ndvi(samples, idx)
    ensures ndvi.None? <==> forall i :: 0 <= i < |samples| ==> !Contributes(samples[i])
    ensures (forall i :: 0 <= i < |samples| ==> -1.0 <= idx(samples[i].b08, samples[i].b04) <= 1.0) ==>
              ndvi.Some? ==> -Int16Scale <= ndvi.value <= Int16Scale
  {
    var ndviArr: seq<real> := [];
    var i := 0;
    while i < |samples|
      invariant 0 <= i <= |samples|
      invariant ndviArr == NdviValues(samples[..i], idx)
    {
      var sample := samples[i];
      assert samples[..i + 1][..i] == samples[..i];
      if Validate(sample) && sample.dataMask == 1 {
        var ndviValue := idx(sample.b08, sample.b04);
        ndviArr := ndviArr + [ndviValue];
      }
      i := i + 1;
    }
    assert samples[..i] == samples;
    var median := Median(ndviArr);
    ndvi := if median.None? then None else Some(Round(median.value * Int16Scale as real));
    assert ndvi == Quantise(median);
    CollectEmpty(samples, SampleIndex(idx));
    if forall i :: 0 <= i < |samples| ==> -1.0 <= idx(samples[i].b08, samples[i].b04) <= 1.0 {
      NdviInt16Range(samples, idx);
    }
  }

  /** When the provider's index stays within [-1, 1], the quantised median fits the INT16 range. */
  lemma NdviInt16Range(samples: seq<Sample>, idx: IndexFn)
    requires forall i :: 0 <= i < |samples| ==> -1.0 <= idx(samples[i].b08, samples[i].b04) <= 1.0
    ensures Ndvi(samples, idx).Some? ==> -Int16Scale <= Ndvi(samples, idx).value <= Int16Scale
  {
    var values := NdviValues(samples, idx);
    if |values| > 0 {
      CollectElements(samples, SampleIndex(idx));
      forall k | 0 <= k < |values|
        ensures -1.0 <= values[k] <= 1.0
      {
        assert FromContributing(samples, SampleIndex(idx), values[k]);
        var i :| 0 <= i < |samples| && Contributes(samples[i]) && values[k] == SampleIndex(idx)(samples[i]);
      }
      MedianBounds(values, -1.0, 1.0);
    }
  }

  /** The output does not depend on the order of the samples. */
  lemma NdviOrderIndependent(s: seq<Sample>, t: seq<Sample>, idx: IndexFn)
    requires multiset(s) == multiset(t)
    ensures Ndvi(s, idx) == Ndvi(t, idx)
  {
    NdviValuesPermutation(s, t, idx);
    NdviFromValues(s, t, idx);
  }

  lemma NdviFromValues(s: seq<Sample>, t: seq<Sample>, idx: IndexFn)
    requires multiset(NdviValues(s, idx)) == multiset(NdviValues(t, idx))
    ensures Ndvi(s, idx) == Ndvi(t, idx)
  {
    var vs, vt := NdviValues(s, idx), NdviValues(t, idx);
    MedianOrderIndependent(vs, vt);
    assert Quantise(Median(vs)) == Quantise(Median(vt));
  }

  lemma NdviValuesPermutation(s: seq<Sample>, t: seq<Sample>, idx: IndexFn)
    requires multiset(s) == multiset(t)
    ensures multiset(NdviValues(s, idx)) == multiset(NdviValues(t, idx))
  {
    CollectPermutation(s, t, SampleIndex(idx));
  }

  /** A sample that is invalid or has no data never changes the output, wherever it sits. */
  lemma NdviSkipsNonContributing(a: seq<Sample>, x: Sample, b: seq<Sample>, idx: IndexFn)
    requires !Contributes(x)
    ensures Ndvi(a + [x] + b, idx) == Ndvi(a + b, idx)
  {
    CollectSkips(a, x, b, SampleIndex(idx));
  }
}
