/**
  naturalness/imagery_store_operator.py, `OutputFormat`, `Index` and
  `SentinelHubOperator._calculate_pus`: Sentinel Hub's processing-unit cost of a request
  as the product of six factors, in exact rational arithmetic.
*/
module ProcessingUnits {

  datatype OutputFormat = Bit8 | Bit16 | Bit32 | OctetStream

  datatype Index = NDVI | WATER | NATURALNESS

  /** 512 x 512 px, the area billed as one unit. */
  const UnitArea := 512 * 512

  /** Smallest area factor billed for any request. */
  const MinAoiFactor := 0.01

  /** Eval-script durations up to this many milliseconds carry no surcharge. */
  const FreeEvalDuration := 200

  /** `math.ceil(a / b)` for a positive integer divisor. */
  function CeilDiv(a: int, b: int): (q: int)
    requires b > 0
    ensures b * (q - 1) < a <= b * q
  {
    var q := (a + b - 1) / b;
    assert b * q <= a + b - 1 < b * q + b;
    q
  }

  /** `max((width * height) / (512 * 512), 0.01)`. */
  function AoiFactor(width: int, height: int): (f: real)
    ensures f >= MinAoiFactor
    ensures f >= (width * height) as real / UnitArea as real
    ensures f == MinAoiFactor || f == (width * height) as real / UnitArea as real
  {
    var area := (width * height) as real / UnitArea as real;
    if area >= MinAoiFactor then area else MinAoiFactor
  }

  /** The 0.01 floor applies exactly to requests of at most 2621 px (0.01 * 262144 = 2621.44). */
  lemma AoiFloorThreshold(width: int, height: int)
    ensures AoiFactor(width, height) == MinAoiFactor <==> width * height <= 2621
  {
  }

  function BandFactor(bandNumber: int): real {
    bandNumber as real / 3.0
  }

  /** The output-format factor; every format costs between one and two units. */
  function FormatFactor(format: OutputFormat): (f: real)
    ensures 1.0 <= f <= 2.0
    ensures f == 2.0 <==> format == Bit32
    ensures f == 1.4 <==> format == OctetStream
    ensures f == 1.0 <==> format == Bit8 || format == Bit16
  {
    match format
    case Bit8 => 1.0
    case Bit16 => 1.0
    case Bit32 => 2.0
    case OctetStream => 1.4
  }

  /** `len(local_collections) + 2 * len(remote_collections)`. */
  function DataFusionFactor(local: set<string>, remote: set<string>): real {
    (|local| + 2 * |remote|) as real
  }

  /** `1.0` up to 200 ms, then another 0.5 for every started 100 ms. */
  function EvalFactor(duration: int): (f: real)
    ensures f >= 1.0
    ensures f == 1.0 <==> duration <= FreeEvalDuration
  {
    if duration > FreeEvalDuration then 1.0 + CeilDiv(duration - FreeEvalDuration, 100) as real * 0.5
    else 1.0
  }

  /** Within the k-th started 100 ms past 200 ms the factor is 1 + k/2. */
  lemma EvalFactorSteps(duration: int, k: int)
    requires k >= 1
    requires FreeEvalDuration + 100 * (k - 1) < duration <= FreeEvalDuration + 100 * k
    ensures EvalFactor(duration) == 1.0 + 0.5 * k as real
  {
    var q := CeilDiv(duration - FreeEvalDuration, 100);
    assert q == k;
  }

  /** A longer eval script never costs less. */
  lemma EvalFactorMonotone(d1: int, d2: int)
    requires d1 <= d2
    ensures EvalFactor(d1) <= EvalFactor(d2)
  {
    if d1 > FreeEvalDuration {
      var q1, q2 := CeilDiv(d1 - FreeEvalDuration, 100), CeilDiv(d2 - FreeEvalDuration, 100);
      assert q1 <= q2;
    }
  }

  lemma EvalFactorBoundary()
    ensures EvalFactor(200) == 1.0
    ensures EvalFactor(201) == 1.5
  {
    EvalFactorSteps(201, 1);
  }

  /** `_calculate_pus`: the product of the six factors. */
  function CalculatePus(width: int, height: int, bandNumber: int, format: OutputFormat, nSamples: int,
                        local: set<string>, remote: set<string>, evalDuration: int): (r: real)
    // no samples: nothing to bill
    ensures nSamples == 0 ==> r == 0.0
    ensures bandNumber >= 0 && nSamples >= 0 ==> r >= 0.0
  {
    ProductSign(AoiFactor(width, height), BandFactor(bandNumber), FormatFactor(format), nSamples as real,
                DataFusionFactor(local, remote), EvalFactor(evalDuration));
    AoiFactor(width, height) * BandFactor(bandNumber) * FormatFactor(format) * nSamples as real
      * DataFusionFactor(local, remote) * EvalFactor(evalDuration)
  }

  lemma ProductSign(a: real, b: real, c: real, d: real, e: real, f: real)
    ensures a >= 0.0 && b >= 0.0 && c >= 0.0 && d >= 0.0 && e >= 0.0 && f >= 0.0 ==> a * b * c * d * e * f >= 0.0
  {
    if a >= 0.0 && b >= 0.0 && c >= 0.0 && d >= 0.0 && e >= 0.0 && f >= 0.0 {
      assert a * b >= 0.0;
      assert a * b * c >= 0.0;
      assert a * b * c * d >= 0.0;
      assert a * b * c * d * e >= 0.0;
    }
  }

  /** The cost splits into a duration-independent base and the eval factor. */
  lemma CalculatePusSplit(width: int, height: int, bandNumber: int, format: OutputFormat, nSamples: int,
                          local: set<string>, remote: set<string>, evalDuration: int)
    ensures CalculatePus(width, height, bandNumber, format, nSamples, local, remote, evalDuration)
            == CalculatePus(width, height, bandNumber, format, nSamples, local, remote, FreeEvalDuration)
               * EvalFactor(evalDuration)
  {
  }

  /** With non-negative band and sample counts the cost is non-negative, and it grows with the eval duration. */
  lemma CalculatePusMonotone(width: int, height: int, bandNumber: int, format: OutputFormat, nSamples: int,
                             local: set<string>, remote: set<string>, d1: int, d2: int)
    requires bandNumber >= 0 && nSamples >= 0
    requires d1 <= d2
    ensures 0.0 <= CalculatePus(width, height, bandNumber, format, nSamples, local, remote, d1)
    ensures CalculatePus(width, height, bandNumber, format, nSamples, local, remote, d1)
            <= CalculatePus(width, height, bandNumber, format, nSamples, local, remote, d2)
  {
    var base := CalculatePus(width, height, bandNumber, format, nSamples, local, remote, FreeEvalDuration);
    CalculatePusSplit(width, height, bandNumber, format, nSamples, local, remote, d1);
    CalculatePusSplit(width, height, bandNumber, format, nSamples, local, remote, d2);
    EvalFactorMonotone(d1, d2);
    ScaleMonotone(CalculatePus(width, height, bandNumber, format, nSamples, local, remote, d1),
                  CalculatePus(width, height, bandNumber, format, nSamples, local, remote, d2),
                  base, EvalFactor(d1), EvalFactor(d2));
  }

  /** Scaling by a non-negative factor keeps the order. */
  lemma ScaleMonotone(p: real, q: real, k: real, x: real, y: real)
    requires p == k * x && q == k * y
    requires k >= 0.0 && x <= y
    ensures p <= q
  {
    assert k * y - k * x == k * (y - x);
  }

  /** The cost is proportional to the band count. */
  lemma CalculatePusBands(width: int, height: int, bandNumber: int, format: OutputFormat, nSamples: int,
                          local: set<string>, remote: set<string>, evalDuration: int)
    ensures CalculatePus(width, height, bandNumber, format, nSamples, local, remote, evalDuration)
            == bandNumber as real * CalculatePus(width, height, 1, format, nSamples, local, remote, evalDuration)
  {
    var a, f, n := AoiFactor(width, height), FormatFactor(format), nSamples as real;
    var d, e := DataFusionFactor(local, remote), EvalFactor(evalDuration);
    var rest := f * n * d * e;
    var b := bandNumber as real;
    calc {
      CalculatePus(width, height, bandNumber, format, nSamples, local, remote, evalDuration);
      a * (b / 3.0) * f * n * d * e;
      { assert a * (b / 3.0) == b * (a * (1.0 / 3.0)); }
      b * (a * (1.0 / 3.0)) * f * n * d * e;
      b * (a * (1.0 / 3.0) * f * n * d * e);
    }
  }

  /** A request with every factor positive costs a positive amount. */
  lemma CalculatePusPositive(width: int, height: int, bandNumber: int, format: OutputFormat, nSamples: int,
                             local: set<string>, remote: set<string>, evalDuration: int)
    requires bandNumber > 0 && nSamples > 0 && |local| + |remote| > 0
    ensures CalculatePus(width, height, bandNumber, format, nSamples, local, remote, evalDuration) > 0.0
  {
    var a := AoiFactor(width, height) * BandFactor(bandNumber);
    assert a > 0.0;
    var b := a * FormatFactor(format);
    assert b > 0.0;
    var c := b * nSamples as real;
    assert c > 0.0;
    var d := c * DataFusionFactor(local, remote);
    assert d > 0.0;
  }

  /** Reference values from the processing-unit documentation and the repository's tests. */
  lemma CalculatePusReferenceValues()
    ensures CalculatePus(512, 512, 3, Bit8, 1, {"main"}, {}, 200) == 1.0
    ensures CalculatePus(1024, 1024, 4, Bit32, 2, {"main"}, {}, 200) == 64.0 / 3.0
    ensures CalculatePus(20, 20, 2, Bit8, 1, {"main"}, {}, 200) == 0.02 / 3.0
    ensures CalculatePus(20, 20, 2, Bit8, 1, {"main"}, {}, 201) == 0.01
    ensures CalculatePus(332, 364, 2, Bit8, 6, {"main"}, {}, 1200) == 11.06396484375
  {
    EvalFactorBoundary();
    EvalFactorSteps(1200, 10);
    assert |{"main"}| == 1;
  }

  /** The product has no lower floor: a one-pixel, one-band request costs a third of 0.01. */
  lemma NoMinimumFloor()
    ensures CalculatePus(1, 1, 1, Bit8, 1, {"main"}, {}, 200) < 0.005
  {
    assert |{"main"}| == 1;
  }
}
