/**
  conf/ndvi_evalscript.js: the oldest NDVI script. The value it returns is whatever the
  last sample with both bands positive left behind; its running maximum is never returned.
*/
module LegacyNdviScript {
  import opened ScriptLib

  /** The JavaScript values `ndvi_value` can hold. */
  datatype JsValue = Undefined | NaN | Num(value: real)

  /** `validate`: an if/else-if chain rejecting scene classes 3, 9, 8, 7, 10 and 2, in that order. */
  predicate Validate(s: Sample)
    ensures s.scl in {0, 1, 4, 5, 6, 11} ==> Validate(s)
    ensures s.scl in {2, 3, 7, 8, 9, 10} ==> !Validate(s)
  {
    var scl := s.scl;
    if scl == 3 then false
    else if scl == 9 then false
    else if scl == 8 then false
    else if scl == 7 then false
    else if scl == 10 then false
    else if scl == 2 then false
    else true
  }

  /** Scene classes this script rejects, as a set. */
  const InvalidClasses: set<int> := {2, 3, 7, 8, 9, 10}

  /** The if/else-if chain rejects exactly the six listed classes; 0 and 1 pass, unlike the current mask. */
  lemma ValidateMatchesSet(s: Sample)
    ensures Validate(s) <==> s.scl !in InvalidClasses
    ensures s.scl in {0, 1} ==> Validate(s) && !ScriptLib.Validate(s)
  {
  }

  /** `sample.B04 > 0 && sample.B08 > 0`: only such samples touch `ndvi_value`. */
  predicate BandsPositive(s: Sample) {
    s.b04 > 0.0 && s.b08 > 0.0
  }

  /** What a sample with both bands positive writes into `ndvi_value`. */
  function Written(s: Sample, idx: IndexFn): JsValue {
    if Validate(s) then Num(idx(s.b08, s.b04)) else NaN
  }

  /** Index of the last sample with both bands positive, or -1 when there is none. */
  function LastPositive(samples: seq<Sample>): (k: int)
    ensures -1 <= k < |samples|
    ensures k >= 0 ==> BandsPositive(samples[k])
    ensures forall j :: k < j < |samples| ==> !BandsPositive(samples[j])
    decreases |samples|
  {
    if |samples| == 0 then -1
    else if BandsPositive(samples[|samples| - 1]) then |samples| - 1
    else
      var init := samples[..|samples| - 1];
      assert forall j :: 0 <= j < |init| ==> init[j] == samples[j];
      LastPositive(init)
  }

  /**
    `ndvi_value` after walking the samples: decided by the last sample with both bands
    positive (its NDVI if valid, NaN if not), and the uninitialised value when there is none.
  */
  function NdviValue(samples: seq<Sample>, idx: IndexFn): (v: JsValue)
    ensures var k := LastPositive(samples);
            v == if k < 0 then Undefined else Written(samples[k], idx)
    decreases |samples|
  {
    if |samples| == 0 then Undefined
    else
      var init := samples[..|samples| - 1];
      var last := samples[|samples| - 1];
      assert forall i :: 0 <= i < |init| ==> init[i] == samples[i];
      if BandsPositive(last) then Written(last, idx) else NdviValue(init, idx)
  }

  /**
    `evaluatePixel`, loop for loop: `ndvi_value` and the unused running `max` are both
    updated, and only `ndvi_value` is returned.
  */
  method EvaluatePixel(samples: seq<Sample>, idx: IndexFn) returns (indice: JsValue)
    ensures indice == NdviValue(samples, idx)
    ensures indice.Num? ==> exists i :: 0 <= i < |samples| && BandsPositive(samples[i]) && Validate(samples[i])
  {
    var ndviValue := Undefined;
    var max := 0.0;
    var i := 0;
    while i < |samples|
      invariant 0 <= i <= |samples|
      invariant ndviValue == NdviValue(samples[..i], idx)
      invariant ndviValue.Num? ==> exists k :: 0 <= k < i && BandsPositive(samples[k]) && Validate(samples[k])
    {
      var sample := samples[i];
      assert samples[..i + 1][..i] == samples[..i];
      if sample.b04 > 0.0 && sample.b08 > 0.0 {
        var isValid := Validate(sample);
        if isValid {
          ndviValue := Num(idx(sample.b08, sample.b04));
          max := if ndviValue.value > max then ndviValue.value else max;
        } else {
          ndviValue := NaN;
        }
      }
      i := i + 1;
    }
    assert samples[..i] == samples;
    indice := ndviValue;
  }

  /** Appending samples without two positive bands leaves the output unchanged. */
  lemma {:induction false} TrailingSkipped(a: seq<Sample>, b: seq<Sample>, idx: IndexFn)
    requires forall j :: 0 <= j < |b| ==> !BandsPositive(b[j])
    ensures NdviValue(a + b, idx) == NdviValue(a, idx)
    decreases |b|
  {
    if |b| == 0 {
      assert a + b == a;
    } else {
      var b' := b[..|b| - 1];
      assert (a + b)[..|a + b| - 1] == a + b';
      assert (a + b)[|a + b| - 1] == b[|b| - 1];
      TrailingSkipped(a, b', idx);
    }
  }
}
