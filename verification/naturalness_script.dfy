/** conf/eval_scripts/NATURALNESS.js: water-majority vote, else median NDVI, quantised to UINT16. */
module NaturalnessScript {
  import opened Results
  import opened ScriptLib

  /** `nodataValue` declared in the script's `setup()`. */
  const DeclaredNodata := -999

  /** `2**16-1`, the UINT16 scale the clamped value is multiplied by. */
  const Uint16Scale := 65535

  /** The entry pushed onto `ndvi_arr`: water counts as NDVI 1.0, anything else as `index(B08, B04)`. */
  function NdviEntry(idx: IndexFn): Sample -> real {
    (s: Sample) => if s.scl == WaterClass then 1.0 else idx(s.b08, s.b04)
  }

  /** `ndvi_arr` after the loop over all samples. */
  function NdviEntries(samples: seq<Sample>, idx: IndexFn): seq<real> {
    Collect(samples, NdviEntry(idx))
  }

  /** `naturalness < 0.0 ? 0.0 : naturalness` followed by `Math.round(naturalness * (2**16-1))`. */
  function Quantise(value: Option<real>): (r: Option<int>)
    ensures r.None? <==> value.None?
    ensures r.Some? ==> r.value >= 0
    ensures value.Some? && value.value <= 0.0 ==> r == Some(0)
    ensures value.Some? && value.value <= 1.0 ==> r.Some? && r.value <= Uint16Scale
    // a non-negative value is scaled by 65535 and rounded to the nearest integer
    ensures value.Some? && value.value >= 0.0 ==>
              r.Some? && value.value * Uint16Scale as real - 0.5 < r.value as real <= value.value * Uint16Scale as real + 0.5
  {
    if value.None? then None
    else Some(Round((if value.value < 0.0 then 0.0 else value.value) * Uint16Scale as real))
  }

  /** The script's output as a function of all samples; `None` is the NaN of an empty median. */
  function Naturalness(samples: seq<Sample>, idx: IndexFn): (r: Option<int>)
    ensures r.None? <==> forall i :: 0 <= i < |samples| ==> !Contributes(samples[i])
    ensures r.Some? ==> r.value >= 0
    ensures WaterMajority(samples) ==> r == Some(Uint16Scale)
  {
    WaterAverageMajority(samples);
    CollectEmpty(samples, NdviEntry(idx));
    CollectEmpty(samples, WaterFlag);
    Quantise(if Average(WaterFlags(samples)) >= 0.5 then Some(1.0) else Median(NdviEntries(samples, idx)))
  }

  /**
    `evaluatePixel`: one loop pushes a water flag and an NDVI entry for every contributing
    sample. A water majority yields the full scale 65535; otherwise the median NDVI, clamped
    at 0, is scaled. The output is never negative, and NaN exactly when nothing contributes.
  */
  method EvaluatePixel(samples: seq<Sample>, idx: IndexFn) returns (naturalness: Option<int>)
    ensures naturalness == Naturalness(samples, idx)
    ensures naturalness.None? <==> forall i :: 0 <= i < |samples| ==> !Contributes(samples[i])
    ensures naturalness.Some? ==> naturalness.value >= 0
    ensures WaterMajority(samples) ==> naturalness == Some(Uint16Scale)
  {
    var ndviArr: seq<real> := [];
    var isWaterArr: seq<real> := [];
    var i := 0;
    while i < |samples|
      invariant 0 <= i <= |samples|
      invariant ndviArr == NdviEntries(samples[..i], idx)
      invariant isWaterArr == WaterFlags(samples[..i])
    {
      var sample := samples[i];
      assert samples[..i + 1][..i] == samples[..i];
      if Validate(sample) && sample.dataMask == 1 {
        var isWater := if sample.scl == WaterClass then 1.0 else 0.0;
        isWaterArr := isWaterArr + [isWater];
        var ndviValue := if sample.scl == WaterClass then 1.0 else idx(sample.b08, sample.b04);
        ndviArr := ndviArr + [ndviValue];
      }
      i := i + 1;
    }
    assert samples[..i] == samples;
    var value := if Average(isWaterArr) >= 0.5 then Some(1.0) else Median(ndviArr);
    naturalness := Quantise(value);
  }

  /** When the provider's index never exceeds 1, the output fits UINT16: it lies in [0, 65535]. */
  lemma NaturalnessUint16Range(samples: seq<Sample>, idx: IndexFn)
    requires forall i :: 0 <= i < |samples| ==> idx(samples[i].b08, samples[i].b04) <= 1.0
    ensures Naturalness(samples, idx).Some? ==> 0 <= Naturalness(samples, idx).value <= Uint16Scale
  {
    var entries := NdviEntries(samples, idx);
    if |entries| > 0 {
      CollectElements(samples, NdviEntry(idx));
      var lo := Min(entries);
      forall k | 0 <= k < |entries|
        ensures lo <= entries[k] <= 1.0
      {
        assert FromContributing(samples, NdviEntry(idx), entries[k]);
        var i :| 0 <= i < |samples| && Contributes(samples[i]) && entries[k] == NdviEntry(idx)(samples[i]);
      }
      MedianBounds(entries, lo, 1.0);
    }
  }

  /** A lower bound of a non-empty array. */
  function Min(s: seq<real>): (m: real)
    requires |s| > 0
    ensures forall k :: 0 <= k < |s| ==> m <= s[k]
    decreases |s|
  {
    if |s| == 1 then s[0]
    else
      var rest := Min(s[1..]);
      assert forall k :: 1 <= k < |s| ==> s[k] == s[1..][k - 1];
      if s[0] <= rest then s[0] else rest
  }

  /** The output does not depend on the order of the samples. */
  lemma NaturalnessOrderIndependent(s: seq<Sample>, t: seq<Sample>, idx: IndexFn)
    requires multiset(s) == multiset(t)
    ensures Naturalness(s, idx) == Naturalness(t, idx)
  {
    CollectPermutation(s, t, NdviEntry(idx));
    CollectPermutation(s, t, WaterFlag);
    NaturalnessFromArrays(s, t, idx);
  }

  lemma NaturalnessFromArrays(s: seq<Sample>, t: seq<Sample>, idx: IndexFn)
    requires multiset(NdviEntries(s, idx)) == multiset(NdviEntries(t, idx))
    requires multiset(WaterFlags(s)) == multiset(WaterFlags(t))
    ensures Naturalness(s, idx) == Naturalness(t, idx)
  {
    var ws, wt := WaterFlags(s), WaterFlags(t);
    WaterFlagsCount(s);
    WaterFlagsCount(t);
    assert |ws| == |multiset(ws)| == |wt|;
    AverageOfFlags(ws);
    AverageOfFlags(wt);
    assert (Average(ws) >= 0.5) == (Average(wt) >= 0.5);
    MedianOrderIndependent(NdviEntries(s, idx), NdviEntries(t, idx));
  }
}
