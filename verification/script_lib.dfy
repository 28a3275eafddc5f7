/**
  Helpers shared by the per-pixel evaluation scripts: the sample record handed to
  `evaluatePixel`, the scene-classification mask of the current scripts, JavaScript's
  `Math.round`, the push-if-valid loop, and `findMedian` / `findAverage`.
*/
module ScriptLib {
  import opened Results

  /** One acquisition of a pixel: scene class, data mask, red (B04) and near-infrared (B08) bands. */
  datatype Sample = Sample(scl: int, dataMask: int, b04: real, b08: real)

  /** The provider builtin `index(a, b)`; it runs provider-side, so scripts take it as a parameter. */
  type IndexFn = (real, real) -> real

  /** `index(sample.B08, sample.B04)` as a function of the sample. */
  function SampleIndex(idx: IndexFn): Sample -> real {
    (s: Sample) => idx(s.b08, s.b04)
  }

  /** Scene class 6 is water in the Sentinel-2 scene classification. */
  const WaterClass := 6

  /** Scene classes rejected by `validate` in the NATURALNESS, NDVI and WATER scripts. */
  const InvalidClasses: set<int> := {0, 1, 8, 9, 10}

  predicate Validate(s: Sample)
    // no data, saturated or defective, cloud of medium or high probability, thin cirrus
    ensures s.scl in {0, 1, 8, 9, 10} ==> !Validate(s)
    // every other scene class passes, water and cloud shadow included
    ensures s.scl in {2, 3, 4, 5, 6, 7, 11} ==> Validate(s)
  {
    s.scl !in InvalidClasses
  }

  /** A sample is pushed onto the script's arrays only when it is valid and carries data. */
  predicate Contributes(s: Sample) {
    Validate(s) && s.dataMask == 1
  }

  /** JavaScript `Math.round`: the nearest integer, halves rounded towards +infinity. */
  function Round(x: real): (r: int)
    ensures x - 0.5 < r as real <= x + 0.5
  {
    (x + 0.5).Floor
  }

  /**
    The array a script builds by walking the samples in order and pushing `f(sample)`
    for every contributing sample.
  */
  function Collect(samples: seq<Sample>, f: Sample -> real): (r: seq<real>)
    ensures |r| <= |samples|
    decreases |samples|
  {
    if |samples| == 0 then []
    else
      var init := samples[..|samples| - 1];
      var last := samples[|samples| - 1];
      if Contributes(last) then Collect(init, f) + [f(last)] else Collect(init, f)
  }

  /** `v` is `f` of some contributing sample. */
  ghost predicate FromContributing(samples: seq<Sample>, f: Sample -> real, v: real) {
    exists i :: 0 <= i < |samples| && Contributes(samples[i]) && v == f(samples[i])
  }

  /** Every entry of the array is `f` of some contributing sample. */
  lemma {:induction false} CollectElements(samples: seq<Sample>, f: Sample -> real)
    ensures forall k :: 0 <= k < |Collect(samples, f)| ==> FromContributing(samples, f, Collect(samples, f)[k])
    decreases |samples|
  {
    if |samples| > 0 {
      var init := samples[..|samples| - 1];
      CollectElements(init, f);
      var r, r' := Collect(samples, f), Collect(init, f);
      forall k | 0 <= k < |r|
        ensures FromContributing(samples, f, r[k])
      {
        if k < |r'| {
          assert FromContributing(init, f, r'[k]);
          var i :| 0 <= i < |init| && Contributes(init[i]) && r'[k] == f(init[i]);
          assert init[i] == samples[i];
        } else {
          assert r[k] == f(samples[|samples| - 1]);
        }
      }
    }
  }

  /** The array is empty exactly when no sample contributes. */
  lemma {:induction false} CollectEmpty(samples: seq<Sample>, f: Sample -> real)
    ensures |Collect(samples, f)| == 0 <==> forall i :: 0 <= i < |samples| ==> !Contributes(samples[i])
    decreases |samples|
  {
    if |samples| > 0 {
      var init := samples[..|samples| - 1];
      CollectEmpty(init, f);
      assert forall i :: 0 <= i < |init| ==> init[i] == samples[i];
    }
  }

  lemma {:induction false} CollectAppend(a: seq<Sample>, b: seq<Sample>, f: Sample -> real)
    ensures Collect(a + b, f) == Collect(a, f) + Collect(b, f)
    decreases |b|
  {
    if |b| == 0 {
      assert a + b == a;
    } else {
      var b' := b[..|b| - 1];
      assert (a + b)[..|a + b| - 1] == a + b';
      CollectAppend(a, b', f);
    }
  }

  /** Inserting a sample that does not contribute, anywhere, leaves the array unchanged. */
  lemma CollectSkips(a: seq<Sample>, x: Sample, b: seq<Sample>, f: Sample -> real)
    requires !Contributes(x)
    ensures Collect(a + [x] + b, f) == Collect(a + b, f)
  {
    CollectAppend(a + [x], b, f);
    CollectAppend(a, [x], f);
    CollectAppend(a, b, f);
    assert [x][..0] == [];
  }

  /** Reordering the samples only reorders the array. */
  lemma {:induction false} CollectPermutation(s: seq<Sample>, t: seq<Sample>, f: Sample -> real)
    requires multiset(s) == multiset(t)
    ensures multiset(Collect(s, f)) == multiset(Collect(t, f))
    decreases |s|
  {
    if |s| == 0 {
      assert |multiset(t)| == 0;
      assert t == [];
    } else {
      var x := s[|s| - 1];
      var s' := s[..|s| - 1];
      var t1, t2 := RemoveOne(s, t);
      CollectPermutation(s', t1 + t2, f);
      PermutationStep(s', x, t1, t2, f);
      assert s' + [x] == s;
    }
  }

  lemma PermutationStep(s': seq<Sample>, x: Sample, t1: seq<Sample>, t2: seq<Sample>, f: Sample -> real)
    requires multiset(Collect(s', f)) == multiset(Collect(t1 + t2, f))
    ensures multiset(Collect(s' + [x], f)) == multiset(Collect(t1 + [x] + t2, f))
  {
    CollectSplit(t1, x, t2, f);
    CollectAppend(t1, t2, f);
    CollectAppend(s', [x], f);
    MultisetShuffle(Collect(s', f), Collect(t1, f), Collect([x], f), Collect(t2, f));
  }

  lemma MultisetShuffle(s: seq<real>, a: seq<real>, x: seq<real>, b: seq<real>)
    requires multiset(s) == multiset(a + b)
    ensures multiset(s + x) == multiset(a + x + b)
  {
  }

  /** Splits `t` around one occurrence of the last element of its permutation `s`. */
  lemma RemoveOne(s: seq<Sample>, t: seq<Sample>) returns (t1: seq<Sample>, t2: seq<Sample>)
    requires |s| > 0 && multiset(s) == multiset(t)
    ensures t == t1 + [s[|s| - 1]] + t2
    ensures multiset(s[..|s| - 1]) == multiset(t1 + t2)
  {
    var x := s[|s| - 1];
    assert s == s[..|s| - 1] + [x];
    assert x in multiset(t);
    var j :| 0 <= j < |t| && t[j] == x;
    t1, t2 := t[..j], t[j + 1..];
    assert t == t1 + [x] + t2;
    calc {
      multiset(s[..|s| - 1]) + multiset{x};
      multiset(s);
      multiset(t);
      multiset(t1) + multiset{x} + multiset(t2);
    }
    assert multiset(t1 + t2) == multiset(t1) + multiset(t2);
    assert multiset(s[..|s| - 1]) == multiset(s[..|s| - 1]) + multiset{x} - multiset{x};
    assert multiset(t1) + multiset(t2) == multiset(t1) + multiset{x} + multiset(t2) - multiset{x};
  }

  lemma CollectSplit(a: seq<Sample>, x: Sample, b: seq<Sample>, f: Sample -> real)
    ensures Collect(a + [x] + b, f) == Collect(a, f) + Collect([x], f) + Collect(b, f)
  {
    CollectAppend(a + [x], b, f);
    CollectAppend(a, [x], f);
  }

  // ---------------------------------------------------------------------------
  // findMedian: sort ascending, then take the middle element or the mean of the two middles

  predicate Sorted(s: seq<real>) {
    forall i, j :: 0 <= i < j < |s| ==> s[i] <= s[j]
  }

  /** Inserts `x` before the first element not below it. */
  function Insert(x: real, s: seq<real>): (r: seq<real>)
    ensures |r| == |s| + 1
    decreases |s|
  {
    if |s| == 0 then [x]
    else if x <= s[0] then [x] + s
    else [s[0]] + Insert(x, s[1..])
  }

  /** Inserting into an ascending sequence keeps it ascending and adds exactly `x`. */
  lemma {:induction false} InsertSpec(x: real, s: seq<real>)
    requires Sorted(s)
    ensures Sorted(Insert(x, s))
    ensures multiset(Insert(x, s)) == multiset(s) + multiset{x}
    decreases |s|
  {
    if |s| > 0 && x > s[0] {
      var rest := Insert(x, s[1..]);
      assert s == [s[0]] + s[1..];
      SortedTail(s);
      InsertSpec(x, s[1..]);
      HeadBelowInsert(s[0], x, s[1..], rest);
    } else if |s| > 0 {
      forall k | 0 <= k < |s|
        ensures x <= s[k]
      {
        assert s[0] <= s[k] || k == 0;
      }
      SortedCons(x, s);
    }
  }

  /** Consing a head no larger than every element of the inserted tail keeps the order. */
  lemma HeadBelowInsert(h: real, x: real, t: seq<real>, rest: seq<real>)
    requires Sorted([h] + t) && h < x
    requires Sorted(rest) && multiset(rest) == multiset(t) + multiset{x}
    ensures Sorted([h] + rest)
  {
    forall k | 0 <= k < |rest|
      ensures h <= rest[k]
    {
      assert rest[k] in multiset(rest);
      if rest[k] != x {
        assert rest[k] in multiset(t);
        var j :| 0 <= j < |t| && t[j] == rest[k];
        assert ([h] + t)[0] == h && ([h] + t)[j + 1] == t[j];
      }
    }
    SortedCons(h, rest);
  }

  /** A head no larger than any element of an ascending tail keeps the sequence ascending. */
  lemma SortedCons(h: real, t: seq<real>)
    requires Sorted(t)
    requires forall k :: 0 <= k < |t| ==> h <= t[k]
    ensures Sorted([h] + t)
  {
    var r := [h] + t;
    forall i, j | 0 <= i < j < |r|
      ensures r[i] <= r[j]
    {
      if i > 0 {
        assert r[i] == t[i - 1] && r[j] == t[j - 1];
      } else {
        assert r[j] == t[j - 1];
      }
    }
  }

  /** `arr.sort((a, b) => a - b)`, as an insertion sort. */
  function Sort(s: seq<real>): (r: seq<real>)
    ensures |r| == |s|
    decreases |s|
  {
    if |s| == 0 then [] else Insert(s[0], Sort(s[1..]))
  }

  /** The sort yields an ascending permutation of its input. */
  lemma {:induction false} SortSpec(s: seq<real>)
    ensures Sorted(Sort(s))
    ensures multiset(Sort(s)) == multiset(s)
    decreases |s|
  {
    if |s| > 0 {
      SortSpec(s[1..]);
      InsertSpec(s[0], Sort(s[1..]));
      assert s == [s[0]] + s[1..];
    }
  }

  /** Two ascending sequences with the same elements are equal. */
  lemma {:induction false} SortedUnique(a: seq<real>, b: seq<real>)
    requires Sorted(a) && Sorted(b)
    requires multiset(a) == multiset(b)
    ensures a == b
    decreases |a|
  {
    assert |a| == |multiset(a)| == |b|;
    if |a| > 0 {
      assert b[0] in multiset(b) && a[0] in multiset(a);
      SortedHeadIsLeast(a, b[0]);
      SortedHeadIsLeast(b, a[0]);
      assert a[0] == b[0];
      TailMultiset(a);
      TailMultiset(b);
      SortedTail(a);
      SortedTail(b);
      SortedUnique(a[1..], b[1..]);
      ConsTail(a, b);
    }
  }

  /** The head of a sorted sequence is at most any of its elements. */
  lemma SortedHeadIsLeast(a: seq<real>, v: real)
    requires Sorted(a) && v in multiset(a)
    ensures a[0] <= v
  {
    var i :| 0 <= i < |a| && a[i] == v;
  }

  lemma SortedTail(a: seq<real>)
    requires Sorted(a) && |a| > 0
    ensures Sorted(a[1..])
  {
    forall i, j | 0 <= i < j < |a| - 1 ensures a[1..][i] <= a[1..][j] {
      assert a[1..][i] == a[i + 1] && a[1..][j] == a[j + 1];
    }
  }

  lemma ConsTail(a: seq<real>, b: seq<real>)
    requires |a| > 0 && |b| > 0 && a[0] == b[0] && a[1..] == b[1..]
    ensures a == b
  {
    assert a == [a[0]] + a[1..] && b == [b[0]] + b[1..];
  }

  lemma TailMultiset(a: seq<real>)
    requires |a| > 0
    ensures multiset(a[1..]) == multiset(a) - multiset{a[0]}
  {
    assert a == [a[0]] + a[1..];
  }

  /** `findMedian`; on an empty array the script reads `arr[-1]` and yields NaN, modelled as `None`. */
  function Median(arr: seq<real>): (m: Option<real>)
    ensures m.None? <==> |arr| == 0
  {
    if |arr| == 0 then None else Some(Middle(Sort(arr)))
  }

  /** The middle element, or the mean of the two middle elements, at `Math.floor(arr.length / 2)`. */
  function Middle(sorted: seq<real>): (m: real)
    requires |sorted| > 0
    ensures |sorted| % 2 == 1 ==> m == sorted[|sorted| / 2]
    // the mean of the two middle elements; for odd length both are the same element
    ensures 2.0 * m == sorted[(|sorted| - 1) / 2] + sorted[|sorted| / 2]
    ensures Sorted(sorted) ==> sorted[(|sorted| - 1) / 2] <= m <= sorted[|sorted| / 2]
  {
    var mid := |sorted| / 2;
    if |sorted| % 2 == 0 then (sorted[mid - 1] + sorted[mid]) / 2.0 else sorted[mid]
  }

  /** The median can be read off any sorted rearrangement of the array. */
  lemma MedianOfRearrangement(arr: seq<real>, sorted: seq<real>)
    requires |arr| > 0 && Sorted(sorted) && multiset(sorted) == multiset(arr)
    ensures |sorted| == |arr|
    ensures Median(arr) == Some(Middle(sorted))
  {
    SortSpec(arr);
    SortedUnique(Sort(arr), sorted);
  }

  /** An odd-length array yields its middle value. */
  lemma MedianOddExample(arr: seq<real>)
    requires arr == [0.3, -0.1, 0.7]
    ensures Median(arr) == Some(0.3)
  {
    var sorted := [-0.1, 0.3, 0.7];
    assert multiset(sorted) == multiset(arr) by {
      assert arr == [0.3] + [-0.1] + [0.7];
      assert sorted == [-0.1] + [0.3] + [0.7];
    }
    MedianOfRearrangement(arr, sorted);
  }

  /** An even-length array yields the mean of its two middle values. */
  lemma MedianEvenExample(arr: seq<real>)
    requires arr == [0.6, 0.2]
    ensures Median(arr) == Some(0.4)
  {
    var sorted := [0.2, 0.6];
    assert multiset(sorted) == multiset(arr) by {
      assert arr == [0.6] + [0.2];
      assert sorted == [0.2] + [0.6];
    }
    MedianOfRearrangement(arr, sorted);
  }

  /** The median of a non-empty array lies within any interval holding all its elements. */
  lemma MedianBounds(arr: seq<real>, lo: real, hi: real)
    requires |arr| > 0
    requires forall i :: 0 <= i < |arr| ==> lo <= arr[i] <= hi
    ensures Median(arr).Some? && lo <= Median(arr).value <= hi
  {
    var sorted := Sort(arr);
    SortSpec(arr);
    forall k | 0 <= k < |sorted|
      ensures lo <= sorted[k] <= hi
    {
      assert sorted[k] in multiset(arr);
    }
  }

  /** The median lies between the array's smallest and largest element. */
  lemma MedianBetweenElements(arr: seq<real>)
    requires |arr| > 0
    ensures Median(arr).Some?
    ensures exists i :: 0 <= i < |arr| && arr[i] <= Median(arr).value
    ensures exists j :: 0 <= j < |arr| && Median(arr).value <= arr[j]
  {
    var sorted := Sort(arr);
    SortSpec(arr);
    var n := |sorted|;
    assert sorted[0] in multiset(arr);
    assert sorted[n - 1] in multiset(arr);
    var i :| 0 <= i < |arr| && arr[i] == sorted[0];
    var j :| 0 <= j < |arr| && arr[j] == sorted[n - 1];
    assert sorted[0] <= sorted[n / 2] <= sorted[n - 1];
    if n % 2 == 0 {
      assert sorted[0] <= sorted[n / 2 - 1] <= sorted[n - 1];
    }
  }

  /** `findMedian` does not depend on the order of its input. */
  lemma MedianOrderIndependent(a: seq<real>, b: seq<real>)
    requires multiset(a) == multiset(b)
    ensures Median(a) == Median(b)
  {
    assert |a| == |multiset(a)| == |b|;
    if |a| > 0 {
      SortSpec(a);
      SortSpec(b);
      SortedUnique(Sort(a), Sort(b));
    }
  }

  // ---------------------------------------------------------------------------
  // findAverage: `arr.reduce((a, b) => a + b, 0) / arr.length || 0`

  /** The left fold `reduce((a, b) => a + b, 0)`. */
  function Sum(s: seq<real>): real
    decreases |s|
  {
    if |s| == 0 then 0.0 else Sum(s[..|s| - 1]) + s[|s| - 1]
  }

  /** `findAverage`: on an empty array `0 / 0` is NaN and `NaN || 0` is 0. */
  function Average(arr: seq<real>): (r: real)
    ensures |arr| == 0 ==> r == 0.0
    ensures |arr| > 0 ==> r * |arr| as real == Sum(arr)
  {
    if |arr| == 0 then 0.0 else Sum(arr) / |arr| as real
  }

  predicate IsFlag(x: real) {
    x == 0.0 || x == 1.0
  }

  /** The sum of a 0/1 array counts its ones. */
  lemma {:induction false} SumOfFlags(s: seq<real>)
    requires forall i :: 0 <= i < |s| ==> IsFlag(s[i])
    ensures Sum(s) == multiset(s)[1.0] as real
    decreases |s|
  {
    if |s| > 0 {
      var init := s[..|s| - 1];
      assert s == init + [s[|s| - 1]];
      SumOfFlags(init);
    }
  }

  /** For a ratio of counts, at least one half is the same as twice the count reaching the total. */
  lemma RatioAtLeastHalf(w: int, n: int)
    requires 0 <= w <= n && 0 < n
    ensures 0.0 <= w as real / n as real <= 1.0
    ensures w as real / n as real >= 0.5 <==> 2 * w >= n
  {
    var a, nr := w as real / n as real, n as real;
    assert a * nr == w as real;
    assert (a - 1.0) * nr == w as real - nr;
    assert (a - 0.5) * nr == w as real - 0.5 * nr;
    SignOfScaled(a, nr);
    SignOfScaled(a - 1.0, nr);
    SignOfScaled(a - 0.5, nr);
  }

  /** Scaling by a positive factor keeps the sign. */
  lemma SignOfScaled(p: real, q: real)
    requires q > 0.0
    ensures p * q >= 0.0 <==> p >= 0.0
    ensures p * q <= 0.0 <==> p <= 0.0
  {
    if p > 0.0 {
      MulPositive(p, q);
    } else if p < 0.0 {
      MulPositive(-p, q);
    }
  }

  lemma MulPositive(x: real, y: real)
    requires x > 0.0 && y > 0.0
    ensures x * y > 0.0
  {
  }

  /**
    The average of a 0/1 array is the fraction of ones (0 when empty), and it is at least
    one half exactly when at least half of the entries are ones.
  */
  lemma AverageOfFlags(s: seq<real>)
    requires forall i :: 0 <= i < |s| ==> IsFlag(s[i])
    ensures |s| == 0 ==> Average(s) == 0.0
    ensures 0.0 <= Average(s) <= 1.0
    ensures Average(s) >= 0.5 <==> |s| > 0 && 2 * multiset(s)[1.0] >= |s|
  {
    SumOfFlags(s);
    if |s| > 0 {
      assert multiset(s)[1.0] <= |multiset(s)| == |s|;
      RatioAtLeastHalf(multiset(s)[1.0], |s|);
    }
  }

  // ---------------------------------------------------------------------------
  // The water flag pushed by the NATURALNESS and WATER scripts: `sample.SCL === 6 ? 1 : 0`

  function WaterFlag(s: Sample): (w: real)
    ensures IsFlag(w)
    ensures w == 1.0 <==> s.scl == WaterClass
  {
    if s.scl == WaterClass then 1.0 else 0.0
  }

  /** `is_water_arr` after the loop over all samples. */
  function WaterFlags(samples: seq<Sample>): seq<real> {
    Collect(samples, WaterFlag)
  }

  /** Number of contributing samples, counted directly. */
  function ContributingCount(samples: seq<Sample>): nat
    decreases |samples|
  {
    if |samples| == 0 then 0
    else ContributingCount(samples[..|samples| - 1]) + (if Contributes(samples[|samples| - 1]) then 1 else 0)
  }

  /** Number of contributing samples classified as water, counted directly. */
  function WaterCount(samples: seq<Sample>): nat
    decreases |samples|
  {
    if |samples| == 0 then 0
    else
      var last := samples[|samples| - 1];
      WaterCount(samples[..|samples| - 1]) + (if Contributes(last) && last.scl == WaterClass then 1 else 0)
  }

  /** At least half of the contributing samples (and at least one) are water. */
  predicate WaterMajority(samples: seq<Sample>) {
    ContributingCount(samples) > 0 && 2 * WaterCount(samples) >= ContributingCount(samples)
  }

  /** `is_water_arr` holds one 0/1 flag per contributing sample, and its ones are the water samples. */
  lemma {:induction false} WaterFlagsCount(samples: seq<Sample>)
    ensures |WaterFlags(samples)| == ContributingCount(samples)
    ensures multiset(WaterFlags(samples))[1.0] == WaterCount(samples)
    ensures forall k :: 0 <= k < |WaterFlags(samples)| ==> IsFlag(WaterFlags(samples)[k])
    decreases |samples|
  {
    if |samples| > 0 {
      WaterFlagsCount(samples[..|samples| - 1]);
    }
  }

  /** `findAverage(is_water_arr) >= 0.5` holds exactly when water is the majority. */
  lemma WaterAverageMajority(samples: seq<Sample>)
    ensures 0.0 <= Average(WaterFlags(samples)) <= 1.0
    ensures Average(WaterFlags(samples)) >= 0.5 <==> WaterMajority(samples)
  {
    WaterFlagsCount(samples);
    AverageOfFlags(WaterFlags(samples));
  }
}
