/**
  naturalness/imagery_store_operator.py, `SentinelHubOperator.estimate_pus`,
  `_get_actual_pus` and the guard and ordering of `imagery`. The cache lookup, the pixel
  size computed from the bounding box, the `x-processingunits-spent` header and the
  download outcome are inputs.
*/
module Operator {
  import opened Results
  import opened Calendar
  import opened ProcessingUnits

  /**
    The two operator exceptions of naturalness/exception.py, which names them
    `OperatorValidationError` and `OperatorInteractionError`. The operator module imports
    `OperatorInteractionException` and `OperatorValidationException` instead, names that
    file does not define, so as written that import fails; the model uses the classes
    exception.py defines.
  */
  datatype OperatorError =
    | OperatorValidation(message: string)   // recoverable, caller-fixable
    | OperatorInteraction(message: string)  // the provider could not be reached

  const AreaLimitMessage := "Area exceeds processing limit: 2500 px x 2500 px"
  const InteractionMessage := "SentinelHub operator interaction not possible."

  /** Largest width or height, in pixels, `imagery` accepts. */
  const MaxSidePx := 2500

  /** `ServiceUrl.MAIN`, the provider's own deployment; every other URL is a remote collection. */
  const MainServiceUrl := "https://services.sentinel-hub.com"

  /** `MAX_REVISIT_RATE = 1 / 5`: at most one acquisition every five days. */
  const RevisitDays := 5

  /** The default `eval_duration_range` of `estimate_pus`, in milliseconds. */
  const DefaultLowerDuration := 1100
  const DefaultUpperDuration := 1300

  datatype PuRange = PuRange(minPus: real, maxPus: real)

  /** The `assert` on the order of the eval-duration range. */
  datatype EstimateError = EvalDurationRangeOrder

  /** The estimator's band table. */
  function BandNumber(index: Index): (b: int)
    ensures b == 1 <==> index == WATER
    ensures b == 2 <==> index == NDVI
    ensures b == 3 <==> index == NATURALNESS
  {
    match index
    case NDVI => 2
    case WATER => 1
    case NATURALNESS => 3
  }

  /** `local_collections` are the URLs equal to MAIN and `remote_collections` the rest. */
  function SplitServiceUrls(urls: set<string>): (split: (set<string>, set<string>))
    ensures split.0 + split.1 == urls
    ensures split.0 !! split.1
    ensures split.0 <= {MainServiceUrl}
    ensures MainServiceUrl !in split.1
  {
    var local := set u | u in urls && u == MainServiceUrl;
    (local, urls - local)
  }

  /** The fusion factor counts every URL twice except MAIN, which counts once. */
  lemma FusionFactorOfUrls(urls: set<string>)
    ensures var (local, remote) := SplitServiceUrls(urls);
            DataFusionFactor(local, remote) == (2 * |urls| - (if MainServiceUrl in urls then 1 else 0)) as real
  {
    var (local, remote) := SplitServiceUrls(urls);
    assert |urls| == |local| + |remote|;
    if MainServiceUrl in urls {
      assert local == {MainServiceUrl};
    } else {
      assert local == {};
    }
  }

  /** `math.ceil(days * MAX_REVISIT_RATE)`. */
  function SampleCount(startDate: Date, endDate: Date): (n: int)
    ensures RevisitDays * (n - 1) < endDate - startDate <= RevisitDays * n
  {
    CeilDiv(endDate - startDate, RevisitDays)
  }

  /** The two bounds of an uncached estimate; they differ only in the eval duration. */
  function UncachedEstimate(index: Index, width: int, height: int, urls: set<string>,
                            startDate: Date, endDate: Date, lower: int, upper: int): (r: PuRange)
    // a same-day window has no sample and an empty URL set no collection
    ensures startDate == endDate || urls == {} ==> r == PuRange(0.0, 0.0)
    ensures lower == upper ==> r.minPus == r.maxPus
  {
    var (local, remote) := SplitServiceUrls(urls);
    var nSamples := SampleCount(startDate, endDate);
    PuRange(CalculatePus(width, height, BandNumber(index), Bit8, nSamples, local, remote, lower),
            CalculatePus(width, height, BandNumber(index), Bit8, nSamples, local, remote, upper))
  }

  /**
    `estimate_pus`: a wrongly ordered duration range fails the assertion; a cached response
    costs nothing, without any factor computed; otherwise the bounds come from the factor model.
  */
  function EstimatePus(index: Index, width: int, height: int, urls: set<string>,
                       startDate: Date, endDate: Date, lower: int, upper: int, cached: bool)
    : (r: Result<PuRange, EstimateError>)
    ensures r.Failure? <==> lower > upper
    ensures lower <= upper && cached ==> r == Success(PuRange(0.0, 0.0))
    ensures lower <= upper && !cached ==>
              r == Success(UncachedEstimate(index, width, height, urls, startDate, endDate, lower, upper))
  {
    if lower > upper then Failure(EvalDurationRangeOrder)
    else if cached then Success(PuRange(0.0, 0.0))
    else Success(UncachedEstimate(index, width, height, urls, startDate, endDate, lower, upper))
  }

  /**
    The lower bound never exceeds the upper one, provided the date span gives a non-negative
    sample count (an end date at most four days before the start).
  */
  lemma EstimateOrdered(index: Index, width: int, height: int, urls: set<string>,
                        startDate: Date, endDate: Date, lower: int, upper: int, cached: bool)
    requires lower <= upper
    requires endDate - startDate > -RevisitDays
    ensures var r := EstimatePus(index, width, height, urls, startDate, endDate, lower, upper, cached);
            r.Success? && 0.0 <= r.value.minPus <= r.value.maxPus
  {
    if !cached {
      var (local, remote) := SplitServiceUrls(urls);
      CalculatePusMonotone(width, height, BandNumber(index), Bit8, SampleCount(startDate, endDate),
                           local, remote, lower, upper);
    }
  }

  /** The band table scales estimates: NATURALNESS costs three and NDVI two times WATER. */
  lemma EstimateBandScaling(width: int, height: int, urls: set<string>,
                            startDate: Date, endDate: Date, lower: int, upper: int)
    ensures var w := UncachedEstimate(WATER, width, height, urls, startDate, endDate, lower, upper);
            var n := UncachedEstimate(NDVI, width, height, urls, startDate, endDate, lower, upper);
            var a := UncachedEstimate(NATURALNESS, width, height, urls, startDate, endDate, lower, upper);
            n == PuRange(2.0 * w.minPus, 2.0 * w.maxPus) && a == PuRange(3.0 * w.minPus, 3.0 * w.maxPus)
  {
    var (local, remote) := SplitServiceUrls(urls);
    var nSamples := SampleCount(startDate, endDate);
    CalculatePusBands(width, height, 2, Bit8, nSamples, local, remote, lower);
    CalculatePusBands(width, height, 2, Bit8, nSamples, local, remote, upper);
    CalculatePusBands(width, height, 3, Bit8, nSamples, local, remote, lower);
    CalculatePusBands(width, height, 3, Bit8, nSamples, local, remote, upper);
  }

  /** A same-day request estimates zero samples, so it looks exactly like a cache hit. */
  lemma SameDayEstimateIsZero(index: Index, width: int, height: int, urls: set<string>, day: Date)
    ensures EstimatePus(index, width, height, urls, day, day, DefaultLowerDuration, DefaultUpperDuration, false)
            == Success(PuRange(0.0, 0.0))
  {
  }

  /** The estimate of the repository's benchmark: NDVI, 332 x 364 px, 2024-06-08 to 2024-07-07. */
  lemma EstimateBenchmark()
    ensures DayOrdinal(2024, 7, 7) - DayOrdinal(2024, 6, 8) == 29
    ensures EstimatePus(NDVI, 332, 364, {MainServiceUrl}, DayOrdinal(2024, 6, 8), DayOrdinal(2024, 7, 7),
                        DefaultLowerDuration, DefaultUpperDuration, false)
            == Success(PuRange(10.1419677734375, 11.9859619140625))
  {
    var start, end := DayOrdinal(2024, 6, 8), DayOrdinal(2024, 7, 7);
    assert SampleCount(start, end) == 6;
    EvalFactorSteps(1100, 9);
    EvalFactorSteps(1300, 11);
    var (local, remote) := SplitServiceUrls({MainServiceUrl});
    assert local == {MainServiceUrl} && remote == {};
  }

  /** The reconciled cost and whether the mismatch warning is logged. */
  datatype Reconciliation = Reconciliation(actualPus: real, warned: bool)

  /**
    `_get_actual_pus`: a (0, 0) estimate reports 0 without reading the header; otherwise the
    header value is reported unchanged. The warning fires only for a positive actual cost
    outside the estimated range, and never fails the call.
  */
  function GetActualPus(minEstimated: real, maxEstimated: real, spentHeader: real): (r: Reconciliation)
    ensures minEstimated == 0.0 && maxEstimated == 0.0 ==> r.actualPus == 0.0 && !r.warned
    ensures !(minEstimated == 0.0 && maxEstimated == 0.0) ==> r.actualPus == spentHeader
    ensures r.warned <==> r.actualPus > 0.0 && !(minEstimated <= r.actualPus <= maxEstimated)
  {
    var actual := if minEstimated == 0.0 && maxEstimated == 0.0 then 0.0 else spentHeader;
    Reconciliation(actual, actual > 0.0 && !(minEstimated <= actual <= maxEstimated))
  }

  /** With a (0, 0) estimate the header is never consulted. */
  lemma CachedIgnoresHeader(h1: real, h2: real)
    ensures GetActualPus(0.0, 0.0, h1) == GetActualPus(0.0, 0.0, h2)
  {
  }

  lemma ReconciliationExamples()
    ensures GetActualPus(10.0, 100.0, 11.06396484375) == Reconciliation(11.06396484375, false)
    ensures GetActualPus(0.0, 0.0, 11.06396484375) == Reconciliation(0.0, false)
  {
  }

  /** The outcome of `request.get_data`: `DownloadFailedException`, or the decoded raster and its header. */
  datatype Download =
    | DownloadFailed
    | Downloaded(raster: seq<int>, spentPus: real)

  /** The observable steps of one `imagery` call, in the order they happen. */
  datatype Step =
    | Estimated(estimate: PuRange)
    | DownloadAttempted
    | Reconciled(reconciliation: Reconciliation)

  /** What `imagery` returns: the raster and its dimensions as (height, width). */
  datatype Imagery = Imagery(raster: seq<int>, dims: (int, int))

  datatype Fetch = Fetch(steps: seq<Step>, result: Result<Imagery, OperatorError>)

  /**
    `imagery`: reject an oversized area before anything else; otherwise estimate, then
    download (a failure is the interaction error), then reconcile and return the raster
    with its dimensions as (height, width).
  */
  function FetchImagery(index: Index, width: nat, height: nat, urls: set<string>,
                        startDate: Date, endDate: Date, cached: bool, download: Download): (f: Fetch)
    ensures width > MaxSidePx || height > MaxSidePx ==>
              f == Fetch([], Failure(OperatorValidation(AreaLimitMessage)))
    ensures width <= MaxSidePx && height <= MaxSidePx ==>
              |f.steps| >= 2 && f.steps[0].Estimated? && f.steps[1] == DownloadAttempted
    ensures f.result.Success? <==> width <= MaxSidePx && height <= MaxSidePx && download.Downloaded?
    ensures width <= MaxSidePx && height <= MaxSidePx && download.DownloadFailed? ==>
              f == Fetch(f.steps, Failure(OperatorInteraction(InteractionMessage))) && |f.steps| == 2
    ensures f.result.Success? ==>
              && f.result.value == Imagery(download.raster, (height, width))
              && |f.steps| == 3
              && f.steps[2] == Reconciled(GetActualPus(f.steps[0].estimate.minPus, f.steps[0].estimate.maxPus,
                                                       download.spentPus))
  {
    if width > MaxSidePx || height > MaxSidePx then
      Fetch([], Failure(OperatorValidation(AreaLimitMessage)))
    else
      var estimate := EstimatePus(index, width, height, urls, startDate, endDate,
                                  DefaultLowerDuration, DefaultUpperDuration, cached).value;
      match download
      case DownloadFailed =>
        Fetch([Estimated(estimate), DownloadAttempted], Failure(OperatorInteraction(InteractionMessage)))
      case Downloaded(raster, spentPus) =>
        var reconciliation := GetActualPus(estimate.minPus, estimate.maxPus, spentPus);
        Fetch([Estimated(estimate), DownloadAttempted, Reconciled(reconciliation)],
              Success(Imagery(raster, (height, width))))
  }

  /** The estimate `imagery` records is the estimator's answer for the default duration range. */
  lemma FetchUsesEstimate(index: Index, width: nat, height: nat, urls: set<string>,
                          startDate: Date, endDate: Date, cached: bool, download: Download)
    requires width <= MaxSidePx && height <= MaxSidePx
    ensures var f := FetchImagery(index, width, height, urls, startDate, endDate, cached, download);
            Success(f.steps[0].estimate)
              == EstimatePus(index, width, height, urls, startDate, endDate,
                             DefaultLowerDuration, DefaultUpperDuration, cached)
  {
  }
}
