/**
  app/route/common.py: the per-index nodata table and the `NaturalnessWorkUnit` request
  body, with its coordinate bounds and the `minus_year` validator.
*/
module WorkUnit {
  import opened Results
  import opened Calendar
  import opened ProcessingUnits
  import NdviScript
  import WaterScript
  import NaturalnessScript
  import ScriptLib

  /** `NO_DATA_VALUES`: only NDVI and WATER have an entry. */
  const NoDataValues: map<Index, int> := map[NDVI := -999, WATER := 0]

  /** The nodata value handed to the raster writer and to the zonal statistics; NATURALNESS raises `KeyError`. */
  function NoDataValue(index: Index): (r: Option<int>)
    ensures r.None? <==> index == NATURALNESS
    ensures index == NDVI ==> r == Some(-999)
    ensures index == WATER ==> r == Some(0)
  {
    match index
    case NDVI => Some(NoDataValues[NDVI])
    case WATER => Some(NoDataValues[WATER])
    case NATURALNESS => assert NATURALNESS !in NoDataValues; None
  }

  /**
    The Python table against the nodata values the evaluation scripts declare: NDVI agrees
    (-999), WATER does not (the script declares 255), and NATURALNESS's -999 has no entry.
  */
  lemma NodataAgainstScripts()
    ensures NoDataValue(NDVI) == Some(NdviScript.DeclaredNodata)
    ensures NoDataValue(WATER).Some? && NoDataValue(WATER).value != WaterScript.DeclaredNodata
    ensures NoDataValue(NATURALNESS).None? && NaturalnessScript.DeclaredNodata == -999
  {
  }

  /** The nodata value each evaluation script declares in its `setup()`. */
  function DeclaredNodata(index: Index): int {
    match index
    case NDVI => NdviScript.DeclaredNodata
    case WATER => WaterScript.DeclaredNodata
    case NATURALNESS => NaturalnessScript.DeclaredNodata
  }

  /**
    As written, WATER's nodata value 0 is also the script's answer for every pixel without
    a water majority, so land reads as missing data in the raster and the zonal statistics.
  */
  lemma LandReadsAsNodata(samples: seq<ScriptLib.Sample>)
    requires !ScriptLib.WaterMajority(samples)
    ensures NoDataValue(WATER) == Some(WaterScript.Water(samples))
  {
  }

  /** A single vegetation sample with data: the script answers 0, the table's WATER nodata. */
  lemma LandReadsAsNodataExample()
    ensures var land := [ScriptLib.Sample(4, 1, 0.05, 0.3)];
            WaterScript.Water(land) == 0 && NoDataValue(WATER) == Some(WaterScript.Water(land))
  {
    var land := [ScriptLib.Sample(4, 1, 0.05, 0.3)];
    assert ScriptLib.ContributingCount(land) == 1 && ScriptLib.WaterCount(land) == 0;
  }

  /** The table with every index mapped to the value its script declares. */
  const CorrectedNoDataValues: map<Index, int> := map[NDVI := -999, WATER := 255, NATURALNESS := -999]

  /** The nodata lookup as evidently intended: defined for every index and equal to the script's declaration. */
  function CorrectedNoDataValue(index: Index): (r: Option<int>)
    ensures r == Some(DeclaredNodata(index))
  {
    match index
    case NDVI => Some(CorrectedNoDataValues[NDVI])
    case WATER => Some(CorrectedNoDataValues[WATER])
    case NATURALNESS => Some(CorrectedNoDataValues[NATURALNESS])
  }

  /** With the corrected table no WATER output is ever mistaken for missing data. */
  lemma CorrectedWaterNodataNeverWritten(samples: seq<ScriptLib.Sample>)
    ensures CorrectedNoDataValue(WATER) != Some(WaterScript.Water(samples))
  {
  }

  /** `area_coords`: (west, south, east, north) in WGS 84 degrees. */
  datatype AreaCoords = AreaCoords(west: real, south: real, east: real, north: real)

  /** The `confloat` bounds; nothing relates west to east or south to north. */
  predicate CoordsInBounds(c: AreaCoords)
    // a box in bounds spans at most 360 degrees of longitude and 180 of latitude, either way round
    ensures CoordsInBounds(c) ==> -360.0 <= c.east - c.west <= 360.0 && -180.0 <= c.north - c.south <= 180.0
  {
    && -180.0 <= c.west <= 180.0
    && -90.0 <= c.south <= 90.0
    && -180.0 <= c.east <= 180.0
    && -90.0 <= c.north <= 90.0
  }

  /** Each coordinate is bounded on its own, so swapping the corners of a box never changes the verdict. */
  lemma CoordsSwapInvariant(c: AreaCoords)
    ensures CoordsInBounds(c) <==> CoordsInBounds(AreaCoords(c.east, c.north, c.west, c.south))
  {
  }

  datatype NaturalnessWorkUnit = NaturalnessWorkUnit(areaCoords: AreaCoords, startDate: Option<Date>, endDate: Date)

  datatype WorkUnitError =
    | CoordinateOutOfBounds  // pydantic's `ValidationError`
    | DateOverflow           // `OverflowError` from a date before 0001-01-01

  /** `timedelta(days=365)`: the validator subtracts 365 days, not one calendar year. */
  const DefaultSpanDays := 365

  /**
    `minus_year`: a missing start date becomes the end date minus 365 days; a present one,
    the end date and the coordinates are left alone.
  */
  function MinusYear(w: NaturalnessWorkUnit): (r: Result<NaturalnessWorkUnit, WorkUnitError>)
    ensures r.Failure? <==> w.startDate.None? && w.endDate - DefaultSpanDays < 1
    ensures r.Success? ==> r.value.startDate.Some? && r.value.endDate == w.endDate && r.value.areaCoords == w.areaCoords
    ensures r.Success? && w.startDate.Some? ==> r.value == w
    ensures r.Success? && w.startDate.None? ==> r.value.endDate - r.value.startDate.value == DefaultSpanDays
  {
    if w.startDate.Some? then Success(w)
    else if w.endDate - DefaultSpanDays < 1 then Failure(DateOverflow)
    else Success(w.(startDate := Some(w.endDate - DefaultSpanDays)))
  }

  /** Running the validator on its own output changes nothing. */
  lemma MinusYearIdempotent(w: NaturalnessWorkUnit)
    requires MinusYear(w).Success?
    ensures MinusYear(MinusYear(w).value) == MinusYear(w)
  {
  }

  /** 2020-01-08 becomes 2019-01-08: 2019 is not a leap year, so 365 days is one calendar year. */
  lemma MinusYearExample(c: AreaCoords)
    ensures var w := NaturalnessWorkUnit(c, None, DayOrdinal(2020, 1, 8));
            MinusYear(w) == Success(w.(startDate := Some(DayOrdinal(2019, 1, 8))))
  {
  }

  /** Across a leap day the 365-day offset lands one day after the calendar date a year earlier. */
  lemma MinusYearLeapExample(c: AreaCoords)
    ensures var w := NaturalnessWorkUnit(c, None, DayOrdinal(2024, 5, 1));
            MinusYear(w) == Success(w.(startDate := Some(DayOrdinal(2023, 5, 2))))
  {
  }

  /**
    Building the request body: the fields are validated first (coordinates within their
    bounds, `end_date` defaulting to the date the module was imported), then `minus_year` runs.
  */
  function NewWorkUnit(coords: AreaCoords, startDate: Option<Date>, endDate: Option<Date>, importDate: Date)
    : (r: Result<NaturalnessWorkUnit, WorkUnitError>)
    ensures r.Success? <==>
              CoordsInBounds(coords)
              && (startDate.Some? || (if endDate.Some? then endDate.value else importDate) > DefaultSpanDays)
    ensures !CoordsInBounds(coords) ==> r == Failure(CoordinateOutOfBounds)
    ensures r.Success? ==> r.value.areaCoords == coords && r.value.startDate.Some?
    ensures r.Success? && endDate.Some? ==> r.value.endDate == endDate.value
    ensures r.Success? && endDate.None? ==> r.value.endDate == importDate
    ensures r.Success? && startDate.Some? ==> r.value.startDate == startDate
  {
    if !CoordsInBounds(coords) then Failure(CoordinateOutOfBounds)
    else
      var end := if endDate.Some? then endDate.value else importDate;
      MinusYear(NaturalnessWorkUnit(coords, startDate, end))
  }

  /** Swapped corners and a start after the end are both accepted. */
  lemma NoOrderingConstraint(d: Date)
    requires d > 1
    ensures NewWorkUnit(AreaCoords(10.0, 50.0, -10.0, -50.0), Some(d), Some(d - 1), d).Success?
  {
  }
}
