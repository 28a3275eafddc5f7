/** conf/NDVI_evalscript.js: the legacy maximum-NDVI script, with its own scene-class mask. */
module MaxNdviScript {
  import opened ScriptLib

  /** Scene classes rejected by this script's `validate`: besides clouds, also shadows, water and unclassified. */
  const InvalidClasses: set<int> := {0, 1, 2, 3, 6, 7, 8, 9, 10}

  predicate Validate(s: Sample)
    // only vegetation, bare soil and snow pass
    ensures s.scl in {4, 5, 11} ==> Validate(s)
    ensures s.scl in {0, 1, 2, 3, 6, 7, 8, 9, 10} ==> !Validate(s)
  {
    s.scl !in InvalidClasses
  }

  /** Every sample this script accepts is also accepted by the mask of the current scripts. */
  lemma MaskStricterThanCurrent(s: Sample)
    ensures Validate(s) ==> ScriptLib.Validate(s)
    ensures s.scl == WaterClass ==> !Validate(s) && ScriptLib.Validate(s)
  {
  }

  /** The running maximum after a prefix of the samples, starting from 0. */
  function MaxNdvi(samples: seq<Sample>, idx: IndexFn): (m: real)
    ensures m >= 0.0
    decreases |samples|
  {
    if |samples| == 0 then 0.0
    else
      var prev := MaxNdvi(samples[..|samples| - 1], idx);
      var last := samples[|samples| - 1];
      if Validate(last) && idx(last.b08, last.b04) > prev then idx(last.b08, last.b04) else prev
  }

  /** The result bounds the NDVI of every valid sample, and is 0 or one of those values. */
  lemma {:induction false} MaxNdviSpec(samples: seq<Sample>, idx: IndexFn)
    ensures forall i :: 0 <= i < |samples| && Validate(samples[i]) ==> idx(samples[i].b08, samples[i].b04) <= MaxNdvi(samples, idx)
    ensures var m := MaxNdvi(samples, idx);
            m == 0.0 || exists i :: 0 <= i < |samples| && Validate(samples[i]) && m == idx(samples[i].b08, samples[i].b04)
    decreases |samples|
  {
    if |samples| > 0 {
      var init := samples[..|samples| - 1];
      MaxNdviSpec(init, idx);
      assert forall i :: 0 <= i < |init| ==> init[i] == samples[i];
    }
  }

  /**
    `evaluatePixel`: start from 0 and keep the larger of the running value and the NDVI
    of each valid sample; the result is max(0, the largest NDVI over valid samples).
  */
  method EvaluatePixel(samples: seq<Sample>, idx: IndexFn) returns (maxNdvi: real)
    ensures maxNdvi == MaxNdvi(samples, idx)
    ensures maxNdvi >= 0.0
    ensures |samples| == 0 ==> maxNdvi == 0.0
  {
    maxNdvi := 0.0;
    var i := 0;
    while i < |samples|
      invariant 0 <= i <= |samples|
      invariant maxNdvi == MaxNdvi(samples[..i], idx)
    {
      var sample := samples[i];
      assert samples[..i + 1][..i] == samples[..i];
      if Validate(sample) {
        var ndviValue := idx(sample.b08, sample.b04);
        maxNdvi := if ndviValue > maxNdvi then ndviValue else maxNdvi;
      }
      i := i + 1;
    }
    assert samples[..i] == samples;
  }

  /** A value that bounds every valid NDVI and 0, and is 0 or one of them, is unique. */
  lemma MaxUnique(s: seq<Sample>, t: seq<Sample>, idx: IndexFn)
    requires forall x :: x in s ==> x in t
    requires forall x :: x in t ==> x in s
    ensures MaxNdvi(s, idx) == MaxNdvi(t, idx)
  {
    var ms, mt := MaxNdvi(s, idx), MaxNdvi(t, idx);
    MaxNdviSpec(s, idx);
    MaxNdviSpec(t, idx);
    if ms != 0.0 {
      var i :| 0 <= i < |s| && Validate(s[i]) && ms == idx(s[i].b08, s[i].b04);
      assert s[i] in t;
      var j :| 0 <= j < |t| && t[j] == s[i];
    }
    if mt != 0.0 {
      var j :| 0 <= j < |t| && Validate(t[j]) && mt == idx(t[j].b08, t[j].b04);
      assert t[j] in s;
      var i :| 0 <= i < |s| && s[i] == t[j];
    }
  }

  /** The result does not depend on the order of the samples. */
  lemma MaxNdviOrderIndependent(s: seq<Sample>, t: seq<Sample>, idx: IndexFn)
    requires multiset(s) == multiset(t)
    ensures MaxNdvi(s, idx) == MaxNdvi(t, idx)
  {
    forall x | x in s ensures x in t {
      assert x in multiset(s);
    }
    forall x | x in t ensures x in s {
      assert x in multiset(t);
    }
    MaxUnique(s, t, idx);
  }

  /** An invalid sample never changes the result, wherever it sits. */
  lemma MaxNdviSkipsInvalid(a: seq<Sample>, x: Sample, b: seq<Sample>, idx: IndexFn)
    requires !Validate(x)
    ensures MaxNdvi(a + [x] + b, idx) == MaxNdvi(a + b, idx)
  {
    var s, t := a + [x] + b, a + b;
    var ms, mt := MaxNdvi(s, idx), MaxNdvi(t, idx);
    MaxNdviSpec(s, idx);
    MaxNdviSpec(t, idx);
    if ms != 0.0 {
      var i :| 0 <= i < |s| && Validate(s[i]) && ms == idx(s[i].b08, s[i].b04);
      var j := if i < |a| then i else i - 1;
      assert t[j] == s[i];
    }
    if mt != 0.0 {
      var j :| 0 <= j < |t| && Validate(t[j]) && mt == idx(t[j].b08, t[j].b04);
      var i := if j < |a| then j else j + 1;
      assert s[i] == t[j];
    }
  }
}
