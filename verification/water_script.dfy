/** conf/eval_scripts/WATER.js: the per-pixel water-majority vote. */
module WaterScript {
  import opened ScriptLib

  /** `nodataValue` declared in the script's `setup()` (UINT8 output). */
  const DeclaredNodata := 255

  /** The script's output as a function of all samples: the rounded share of water among contributing samples. */
  function Water(samples: seq<Sample>): (w: int)
    ensures w == 0 || w == 1
    ensures w == 1 <==> WaterMajority(samples)
  {
    WaterAverageMajority(samples);
    Round(Average(WaterFlags(samples)))
  }

  /**
    `evaluatePixel`: push a water flag for every contributing sample, then round the
    average. The result is a 0/1 majority vote; with no contributing sample it is 0.
  */
  method EvaluatePixel(samples: seq<Sample>) returns (water: int)
    ensures water == Water(samples)
    ensures water == 0 || water == 1
    ensures water == 1 <==> WaterMajority(samples)
    ensures ContributingCount(samples) == 0 ==> water == 0
    ensures water != DeclaredNodata
  {
    var isWaterArr: seq<real> := [];
    var i := 0;
    while i < |samples|
      invariant 0 <= i <= |samples|
      invariant isWaterArr == WaterFlags(samples[..i])
    {
      var sample := samples[i];
      assert samples[..i + 1][..i] == samples[..i];
      if Validate(sample) && sample.dataMask == 1 {
        var isWater := if sample.scl == WaterClass then 1.0 else 0.0;
        isWaterArr := isWaterArr + [isWater];
      }
      i := i + 1;
    }
    assert samples[..i] == samples;
    water := Round(Average(isWaterArr));
    assert water == Water(samples);
  }
}
