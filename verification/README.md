# Naturalness utility — processing-unit estimation, request body and evaluation scripts

The naturalness utility computes remote-sensing indices (NDVI, WATER and NATURALNESS) for an
area of interest. It requests Sentinel-2 imagery from Sentinel Hub, and Sentinel Hub runs a
small JavaScript *evaluation script* on every pixel. This project models the parts of the
utility that decide what a request costs and what each pixel is worth:

- **Processing-unit cost** (`ProcessingUnits`). Sentinel Hub bills a request as the product of
  six factors: area, band, output format, samples, data fusion and eval-script duration.
  `SentinelHubOperator._calculate_pus` is modelled in exact rational arithmetic.
- **The operator** (`Operator`). `estimate_pus` turns a request into a (min, max) estimate.
  `_get_actual_pus` reconciles that estimate with the `x-processingunits-spent` response
  header. `imagery` guards the area, then estimates, downloads and reconciles, in that order.
- **The request body** (`WorkUnit`). This covers the nodata table `NO_DATA_VALUES`, the
  coordinate bounds of `NaturalnessWorkUnit`, and its `minus_year` validator.
- **The evaluation scripts** (`ScriptLib` and one module per script).
  - `NATURALNESS.js`, `NDVI.js` and `WATER.js` filter a pixel's acquisitions by scene class
    and data mask, then take a median or a majority vote.
  - The two older scripts under `conf/` are modelled too: `NDVI_evalscript.js` (maximum NDVI)
    and `ndvi_evalscript.js` (last written value).

Modelling conventions:

- The provider builtin `index(a, b)` runs on Sentinel Hub, so every script takes it as a
  parameter `idx`.
- JavaScript's NaN from the median of an empty array is `None`.
- `Math.round` is `floor(x + 1/2)`.
- Dates are Python proleptic ordinals (0001-01-01 is day 1, 9999-12-31 is day 3652059).
- Whether the response is cached, the pixel size computed from the bounding box, the
  download outcome and the header value are all inputs.

Facts about the code that a reader might not expect:

- **No overall floor on the cost.** `_calculate_pus` has no floor on the product. Its only
  floor is 0.01 on the area factor, so a one-pixel, one-band request costs a third of 0.01.
  That is below the 0.005-unit minimum request in Sentinel Hub's processing-unit
  documentation, linked from test/naturalness/test_imagery_store_operator.py:16
  (`ProcessingUnits.NoMinimumFloor`).
- **A cache hit reports 0.0.** `_get_actual_pus` returns 0.0 for a cached response, the same
  value as a genuine zero cost (`Operator.GetActualPus`, `Operator.CachedIgnoresHeader`).
  A same-day request also estimates exactly (0, 0) (`Operator.SameDayEstimateIsZero`).
- **The WATER nodata value.** The nodata table gives WATER the value 0, but `WATER.js`
  declares 255 (`WorkUnit.NodataAgainstScripts`). See the finding below.

## Model

| member | source | states |
|---|---|---|
| ProcessingUnits.CeilDiv | naturalness/imagery_store_operator.py:215 | `math.ceil(a / b)` is the least integer q with a <= b*q, i.e. b*(q-1) < a <= b*q |
| ProcessingUnits.AoiFactor | naturalness/imagery_store_operator.py:194 | the area factor is never below 0.01, never below area/262144, and is one of the two |
| ProcessingUnits.AoiFloorThreshold | naturalness/imagery_store_operator.py:194 | the 0.01 floor applies exactly when width*height <= 2621 px |
| ProcessingUnits.FormatFactor | naturalness/imagery_store_operator.py:198-208 | 8- and 16-bit output cost 1, an octet stream 1.4 and 32-bit output 2, each value belonging to those formats only |
| ProcessingUnits.EvalFactor | naturalness/imagery_store_operator.py:214-217 | the factor is at least 1, and exactly 1 iff the duration is at most 200 ms |
| ProcessingUnits.EvalFactorSteps | naturalness/imagery_store_operator.py:214-215 | a duration in the k-th started 100 ms past 200 ms costs 1 + k/2 |
| ProcessingUnits.EvalFactorMonotone | naturalness/imagery_store_operator.py:214-217 | a longer eval script never has a smaller factor |
| ProcessingUnits.EvalFactorBoundary | naturalness/imagery_store_operator.py:214-217 | 200 ms is free (1.0) and 201 ms already costs 1.5 |
| ProcessingUnits.CalculatePus | naturalness/imagery_store_operator.py:183-221 | a request with no samples costs nothing, and with non-negative band and sample counts the cost is never negative |
| ProcessingUnits.CalculatePusSplit | naturalness/imagery_store_operator.py:219-221 | the cost is the duration-free cost times the eval factor |
| ProcessingUnits.CalculatePusMonotone | naturalness/imagery_store_operator.py:194-221 | with non-negative band and sample counts the cost is non-negative and grows with the eval duration |
| ProcessingUnits.CalculatePusBands | naturalness/imagery_store_operator.py:196 | the cost is proportional to the band number |
| ProcessingUnits.CalculatePusPositive | naturalness/imagery_store_operator.py:194-221 | a request with bands, samples and at least one collection costs a positive amount |
| ProcessingUnits.CalculatePusReferenceValues | test/naturalness/test_imagery_store_operator.py:19-84 | the reference costs of the processing-unit documentation and the repository's test cases: 21.333 for change detection, 0.00667 and 0.01 for the 20 x 20 NDVI at 200 and 201 ms, 11.06396484375 for the benchmark |
| ProcessingUnits.NoMinimumFloor | naturalness/imagery_store_operator.py:194-221 | the product itself has no floor: a 1 x 1 px, one-band request costs less than 0.005 |
| Operator.SplitServiceUrls | naturalness/imagery_store_operator.py:151-153 | local and remote collections partition the service URLs; only MAIN is local and MAIN is never remote |
| Operator.FusionFactorOfUrls | naturalness/imagery_store_operator.py:212 | the data-fusion factor counts each URL twice except MAIN, which counts once |
| Operator.SampleCount | naturalness/imagery_store_operator.py:162 | the sample count is the least n with days <= 5n: one acquisition per started five days |
| Operator.BandNumber | naturalness/imagery_store_operator.py:136-142 | WATER uses 1 band, NDVI 2 and NATURALNESS 3, and no two indices share a band count |
| Operator.UncachedEstimate | naturalness/imagery_store_operator.py:136-180 | a same-day window or an empty set of service URLs estimates (0, 0), and equal duration bounds give equal cost bounds |
| Operator.EstimatePus | naturalness/imagery_store_operator.py:120-180 | a wrongly ordered duration range fails, and only then; a cached response is estimated (0, 0); otherwise the bounds are the factor model at the lower and upper duration |
| Operator.EstimateOrdered | naturalness/imagery_store_operator.py:164-180 | for an ordered duration range and a date span above -5 days, 0 <= min <= max |
| Operator.EstimateBandScaling | naturalness/imagery_store_operator.py:136-142 | NDVI estimates are twice, and NATURALNESS three times, the WATER estimates |
| Operator.SameDayEstimateIsZero | naturalness/imagery_store_operator.py:162 | a same-day request estimates (0, 0), the same answer as a cache hit |
| Operator.EstimateBenchmark | test/naturalness/test_imagery_store_operator.py:87-136 | 2024-06-08 to 2024-07-07 spans 29 days, and the NDVI estimate for 332 x 364 px is (10.1419677734375, 11.9859619140625) |
| Operator.GetActualPus | naturalness/imagery_store_operator.py:223-235 | a (0, 0) estimate reports 0 without a warning; otherwise the header value is reported unchanged; the warning fires iff the actual cost is positive and outside the estimate |
| Operator.CachedIgnoresHeader | naturalness/imagery_store_operator.py:225-227 | with a (0, 0) estimate the header value has no influence |
| Operator.ReconciliationExamples | test/naturalness/test_imagery_store_operator.py:171-202 | 11.06396484375 spent within (10, 100) is reported as is; with a (0, 0) estimate it is reported as 0 |
| Operator.FetchImagery | naturalness/imagery_store_operator.py:71-118 | an oversized area fails with the validation error before anything else happens; otherwise estimate, then download; a failed download is the interaction error after two steps; success iff within limits and downloaded, returning the raster with (height, width) after reconciling with the recorded estimate |
| Operator.FetchUsesEstimate | naturalness/imagery_store_operator.py:102-105 | the estimate `imagery` records is the estimator's answer for the default (1100, 1300) ms range |
| WorkUnit.NoDataValue | app/route/common.py:21 | NDVI has the nodata value -999 and WATER the value 0; NATURALNESS has no entry |
| WorkUnit.NodataAgainstScripts | app/route/common.py:21 | the table agrees with NDVI.js (-999) and disagrees with WATER.js (255 against 0); NATURALNESS.js's -999 has no entry |
| WorkUnit.LandReadsAsNodata | app/route/common.py:21 | as written, every WATER pixel without a water majority carries the value the table declares as nodata |
| WorkUnit.LandReadsAsNodataExample | app/route/common.py:21 | one vegetation sample with data yields WATER 0, the table's nodata value |
| WorkUnit.CorrectedNoDataValue | conf/eval_scripts/WATER.js:18 | the corrected lookup is defined for every index and equals the nodata value that index's script declares |
| WorkUnit.CorrectedWaterNodataNeverWritten | conf/eval_scripts/WATER.js:37-49 | with the corrected table no WATER output is ever taken for missing data |
| WorkUnit.MinusYear | app/route/common.py:60-64 | a missing start date becomes end minus 365 days, which fails iff it would fall before 0001-01-01; a present start date, the end date and the coordinates are kept |
| WorkUnit.MinusYearIdempotent | app/route/common.py:60-64 | running the validator again on its own output changes nothing |
| WorkUnit.MinusYearExample | app/route/common.py:61-63 | end date 2020-01-08 gives start date 2019-01-08, the 365-day offset that test/app/route/test_common.py:12-17 asserts for `TimeRange`, a class not part of this model |
| WorkUnit.MinusYearLeapExample | app/route/common.py:46-63 | across a leap day 2024-05-01 gives 2023-05-02, not the calendar year before |
| WorkUnit.CoordsInBounds | app/route/common.py:39-41 | the four inclusive `confloat` bounds: west and east in [-180, 180], south and north in [-90, 90], nothing relating one corner to the other; so a box in bounds spans at most 360 degrees of longitude and 180 of latitude, either way round |
| WorkUnit.CoordsSwapInvariant | app/route/common.py:39-41 | swapping the two corners of a box never changes whether it is in bounds |
| WorkUnit.NewWorkUnit | app/route/common.py:36-64 | a body is accepted iff its coordinates are within bounds and the start date is present or derivable; a missing end date is the import-time date; given dates are kept |
| WorkUnit.NoOrderingConstraint | app/route/common.py:39-64 | neither swapped corners nor a start after the end is rejected |
| ScriptLib.Validate | conf/eval_scripts/NDVI.js:24-27 | the mask rejects no data, saturated, medium and high cloud and cirrus (classes 0, 1, 8, 9, 10) and passes every other class, water and cloud shadow included; NATURALNESS.js:24-27 and WATER.js:26-29 are the same function |
| ScriptLib.Collect | conf/eval_scripts/NDVI.js:44-52 | the push loop adds at most one entry per sample |
| ScriptLib.Round | conf/eval_scripts/NDVI.js:54 | `Math.round` yields an integer within half a unit of its argument, halves going up |
| ScriptLib.CollectElements | conf/eval_scripts/NDVI.js:44-52 | every pushed value comes from a valid sample with data |
| ScriptLib.CollectEmpty | conf/eval_scripts/NDVI.js:44-52 | the array is empty iff no sample is valid with data |
| ScriptLib.CollectAppend | conf/eval_scripts/NDVI.js:44-52 | walking two runs of samples gives the concatenation of their arrays |
| ScriptLib.CollectSkips | conf/eval_scripts/NDVI.js:45-48 | a sample that is invalid or has no data changes nothing, wherever it sits |
| ScriptLib.CollectPermutation | conf/eval_scripts/NDVI.js:44-52 | reordering the samples only reorders the array |
| ScriptLib.CollectSplit | conf/eval_scripts/NDVI.js:44-52 | one sample's contribution can be split off from the rest |
| ScriptLib.InsertSpec | conf/eval_scripts/NDVI.js:31 | inserting into an ascending sequence keeps it ascending and adds exactly the inserted value |
| ScriptLib.Sort | conf/eval_scripts/NDVI.js:31 | sorting keeps the length of the array |
| ScriptLib.SortSpec | conf/eval_scripts/NDVI.js:31 | the sort yields an ascending permutation of the array |
| ScriptLib.SortedUnique | conf/eval_scripts/NDVI.js:31 | an ascending arrangement of an array is unique |
| ScriptLib.Middle | conf/eval_scripts/NDVI.js:32-38 | the result is the mean of the elements at indices (n-1)/2 and n/2: the middle element for odd length, the mean of the two middle elements for even length; for an ascending array it lies between them |
| ScriptLib.Median | conf/eval_scripts/NDVI.js:30-39 | the median is NaN exactly for the empty array |
| ScriptLib.MedianOfRearrangement | conf/eval_scripts/NDVI.js:30-39 | the median is the middle of any ascending rearrangement of the array |
| ScriptLib.MedianOddExample | conf/eval_scripts/NDVI.js:36-37 | an odd-length array yields its middle value |
| ScriptLib.MedianEvenExample | conf/eval_scripts/NDVI.js:34-35 | an even-length array yields the mean of its two middle values |
| ScriptLib.MedianBounds | conf/eval_scripts/NDVI.js:30-39 | the median lies within any interval that holds all elements |
| ScriptLib.MedianBetweenElements | conf/eval_scripts/NDVI.js:30-39 | the median lies between the smallest and largest element |
| ScriptLib.MedianOrderIndependent | conf/eval_scripts/NDVI.js:30-39 | the median does not depend on the order of its input |
| ScriptLib.Average | conf/eval_scripts/WATER.js:31-34 | `findAverage` of an empty array is 0, and otherwise times the length gives back the sum |
| ScriptLib.SumOfFlags | conf/eval_scripts/WATER.js:32 | the sum of a 0/1 array counts its ones |
| ScriptLib.RatioAtLeastHalf | conf/eval_scripts/WATER.js:48 | a ratio of counts is in [0, 1], and at least one half iff twice the count reaches the total |
| ScriptLib.AverageOfFlags | conf/eval_scripts/WATER.js:31-34 | the average of a 0/1 array is 0 when empty, lies in [0, 1], and is at least 0.5 iff ones make up at least half of a non-empty array |
| ScriptLib.WaterFlag | conf/eval_scripts/WATER.js:44 | the water flag is 0 or 1, and 1 iff the scene class is 6 |
| ScriptLib.WaterFlagsCount | conf/eval_scripts/WATER.js:38-47 | `is_water_arr` has one flag per valid sample with data, and its ones are the water samples |
| ScriptLib.WaterAverageMajority | conf/eval_scripts/WATER.js:31-48 | the average of `is_water_arr` is in [0, 1], and at least 0.5 iff water is the (non-empty) majority |
| WaterScript.Water | conf/eval_scripts/WATER.js:37-49 | the WATER output is 0 or 1, and 1 iff water is the majority of the contributing samples |
| WaterScript.EvaluatePixel | conf/eval_scripts/WATER.js:37-49 | the loop computes that output: 0 or 1, 1 iff water is the majority, 0 when nothing contributes, and never the declared nodata 255 |
| NdviScript.Quantise | conf/eval_scripts/NDVI.js:54 | NaN stays NaN; a median is scaled by 32767 and rounded to within half a unit |
| NdviScript.Ndvi | conf/eval_scripts/NDVI.js:42-56 | the output is NaN exactly when no sample is valid with data |
| NdviScript.EvaluatePixel | conf/eval_scripts/NDVI.js:42-56 | the output is the quantised median; NaN iff no sample contributes; within the INT16 range when the index stays within [-1, 1] |
| NdviScript.NdviInt16Range | conf/eval_scripts/NDVI.js:53-54 | an index within [-1, 1] gives an output within [-32767, 32767] |
| NdviScript.NdviOrderIndependent | conf/eval_scripts/NDVI.js:42-56 | the output does not depend on the order of the samples |
| NdviScript.NdviFromValues | conf/eval_scripts/NDVI.js:53-54 | the output depends on the collected values only as a multiset |
| NdviScript.NdviValuesPermutation | conf/eval_scripts/NDVI.js:43-52 | reordering the samples only reorders `ndvi_arr` |
| NdviScript.NdviSkipsNonContributing | conf/eval_scripts/NDVI.js:45-48 | a sample that is invalid or has no data never changes the output |
| NaturalnessScript.Naturalness | conf/eval_scripts/NATURALNESS.js:47-66 | NaN exactly when no sample contributes; otherwise never negative; a water majority gives 65535 |
| NaturalnessScript.EvaluatePixel | conf/eval_scripts/NATURALNESS.js:47-66 | NaN iff no sample contributes; otherwise never negative; a water majority gives the full scale 65535 |
| NaturalnessScript.NaturalnessUint16Range | conf/eval_scripts/NATURALNESS.js:58-64 | an index never above 1 gives an output within [0, 65535] |
| NaturalnessScript.Quantise | conf/eval_scripts/NATURALNESS.js:63-64 | NaN stays NaN; a value at or below 0 becomes 0, so the output is never negative; a non-negative value is scaled by 65535 and rounded to within half a unit; a value of at most 1 gives at most 65535 |
| NaturalnessScript.NaturalnessOrderIndependent | conf/eval_scripts/NATURALNESS.js:47-66 | the output does not depend on the order of the samples |
| NaturalnessScript.NaturalnessFromArrays | conf/eval_scripts/NATURALNESS.js:62-64 | the output depends on the two arrays only as multisets |
| MaxNdviScript.Validate | conf/NDVI_evalscript.js:23-26 | only vegetation, bare soil and snow (classes 4, 5, 11) pass; water, shadows, unclassified, clouds and cirrus are rejected |
| MaxNdviScript.MaskStricterThanCurrent | conf/NDVI_evalscript.js:23-26 | this script's mask accepts only samples the current mask accepts, and rejects water, which the current mask accepts |
| MaxNdviScript.MaxNdvi | conf/NDVI_evalscript.js:29-40 | starting from 0, the running maximum is never negative |
| MaxNdviScript.MaxNdviSpec | conf/NDVI_evalscript.js:29-40 | the result is at least every valid sample's index, and is 0 or one of those indices: the maximum of 0 and the valid indices |
| MaxNdviScript.EvaluatePixel | conf/NDVI_evalscript.js:29-40 | the loop computes the maximum of 0 and the valid samples' indices; no samples give 0 |
| MaxNdviScript.MaxUnique | conf/NDVI_evalscript.js:29-40 | two sample lists with the same members give the same maximum |
| MaxNdviScript.MaxNdviOrderIndependent | conf/NDVI_evalscript.js:29-40 | the result does not depend on the order of the samples |
| MaxNdviScript.MaxNdviSkipsInvalid | conf/NDVI_evalscript.js:32-37 | an invalid sample never changes the result |
| LegacyNdviScript.Validate | conf/ndvi_evalscript.js:21-38 | classes 0, 1, 4, 5, 6 and 11 pass the if/else-if chain; 2, 3, 7, 8, 9 and 10 are rejected |
| LegacyNdviScript.ValidateMatchesSet | conf/ndvi_evalscript.js:21-38 | the if/else-if chain rejects exactly classes 2, 3, 7, 8, 9 and 10; classes 0 and 1 pass, unlike the current mask |
| LegacyNdviScript.LastPositive | conf/ndvi_evalscript.js:46-49 | the last sample with both bands positive, or -1 when there is none |
| LegacyNdviScript.NdviValue | conf/ndvi_evalscript.js:41-58 | the returned value is decided by the last sample with both bands positive: its index if valid, NaN if not, undefined when no such sample exists |
| LegacyNdviScript.EvaluatePixel | conf/ndvi_evalscript.js:41-59 | the loop returns that value, discarding the running maximum; a number comes from a valid sample with positive bands |
| LegacyNdviScript.TrailingSkipped | conf/ndvi_evalscript.js:49 | trailing samples without two positive bands leave the output unchanged |

## Findings

| source | as written | input that shows it | evidently intended | confidence | as-written member | corrected member |
|---|---|---|---|---|---|---|
| app/route/common.py:21 | `NO_DATA_VALUES` gives WATER the nodata value 0. Since 0 is also what `WATER.js` returns for a pixel without a water majority, the GeoTIFF writer and `zonal_stats` treat every land pixel as missing data. | One sample with scene class 4 (vegetation) and data mask 1: the script returns 0, which equals the table's nodata value. | Each index's nodata value is the one its script declares in `setup()`: 255 for WATER, which the script never returns. This is a trade-off: a pixel where no sample contributes also yields 0 (`WaterScript.EvaluatePixel`), so with 255 such pixels read as land, while with 0 they are, correctly, missing data; a script that returned 255 for that case would serve both. | medium; not executed | WorkUnit.LandReadsAsNodata | WorkUnit.CorrectedWaterNodataNeverWritten |

## Left out

- The rest of the code base is not part of this model: the web routes, the raster and vector
  responses built by `__compute_raster_response` and `zonal_stats`, aggregation, the
  `datafusion` operator, and logging.
- Sentinel Hub's SDK: the request payload, the bounding-box-to-pixel conversion, the cache
  path and the download. Their results are inputs: the pixel width and height, `cached`, and
  `Download`.
- Reading and decoding the `x-processingunits-spent` header. A missing or unparsable header
  raises in Python and is not modelled.
- Floating point. Costs and scripts are computed in exact rationals, so the tests'
  `assert_almost_equal` tolerance is not needed. IEEE rounding and Infinity are not modelled.
- NaN inputs. NaN is modelled only as the output of an empty median. The provider's
  `index(a, b)` is an arbitrary real function, so its behaviour on a zero denominator is not
  modelled.
- The unreachable `case _` branches of `estimate_pus` and `_calculate_pus`. The enumerations
  are closed, so these cannot be taken.
- `setup()` of each script, apart from its declared nodata value and output scale.
- Loading the eval scripts from disk in `SentinelHubOperator.__init__`.
- The output format. The estimator always passes 8-bit output, so `Operator` fixes `Bit8`.
- The pixel values written by the legacy scripts. Their output is FLOAT32, and the model
  keeps the exact real value.
- Parsing the ISO date strings of the request's time range. Dates enter as ordinals.
- The failing import of the operator's exceptions. naturalness/imagery_store_operator.py:24
  imports `OperatorInteractionException` and `OperatorValidationException`, but
  naturalness/exception.py defines only `OperatorValidationError` and
  `OperatorInteractionError`, so that import raises as written. `Operator.OperatorError`
  models the two classes exception.py defines, as if the import named them.
- ProcessingUnits.CalculatePusMonotone: requires non-negative band and sample counts. With a
  negative sample count (an end date before the start) a longer duration lowers the cost.
- Operator.EstimateOrdered: requires an end date at most four days before the start. For a
  longer negative span the sample count is negative and the minimum exceeds the maximum. The
  source never checks the order of the dates.
- NdviScript.NdviInt16Range and NaturalnessScript.NaturalnessUint16Range: assume the
  provider's index stays within [-1, 1] (respectively at most 1). The scripts rely on
  `index(a, b)` = (a - b)/(a + b), which is not part of this model.
