/** The decision part of `analyze_trend_direction`. The foreign numerics
    (the 85th-percentile brightness threshold and the least-squares line fit)
    are inputs: the number of bright pixels found in the rightmost 30% of the
    image, and the slope of the fitted line in image coordinates. */
module TrendEstimator {
  import opened Text

  /** The six trend labels the estimator can return. */
  datatype Direction = StrongUptrend | Uptrend | Sideways | Downtrend | StrongDowntrend | Neutral
  {
    /** The label as the result dictionary spells it. */
    function Name(): string
    {
      match this
      case StrongUptrend => "STRONG_UPTREND"
      case Uptrend => "UPTREND"
      case Sideways => "SIDEWAYS"
      case Downtrend => "DOWNTREND"
      case StrongDowntrend => "STRONG_DOWNTREND"
      case Neutral => "NEUTRAL"
    }

    /** How bullish the label is: 2 for a strong uptrend down to -2 for a
        strong downtrend; the two flat labels are 0. */
    function Bullishness(): int
    {
      match this
      case StrongUptrend => 2
      case Uptrend => 1
      case Sideways => 0
      case Neutral => 0
      case Downtrend => -1
      case StrongDowntrend => -2
    }
  }

  datatype TrendEstimate = TrendEstimate(direction: Direction, confidence: int)

  /** Classifies the fitted slope. Image rows grow downward, so a negative
      slope is a rising price. Too few bright pixels (at most 10) gives
      NEUTRAL with confidence 30 whatever the slope. */
  function AnalyzeTrendDirection(brightPixels: nat, slope: real): (t: TrendEstimate)
    ensures t.direction == Neutral <==> brightPixels <= 10
    ensures t.direction == StrongUptrend <==> brightPixels > 10 && slope < -2.0
    ensures t.direction == Uptrend <==> brightPixels > 10 && -2.0 <= slope < -0.5
    ensures t.direction == Sideways <==> brightPixels > 10 && -0.5 <= slope <= 0.5
    ensures t.direction == Downtrend <==> brightPixels > 10 && 0.5 < slope <= 2.0
    ensures t.direction == StrongDowntrend <==> brightPixels > 10 && slope > 2.0
    ensures t.confidence == 80 <==> t.direction in {StrongUptrend, StrongDowntrend}
    ensures t.confidence == 65 <==> t.direction in {Uptrend, Downtrend}
    ensures t.confidence == 50 <==> t.direction == Sideways
    ensures t.confidence == 30 <==> t.direction == Neutral
    ensures t.confidence in {30, 50, 65, 80}
  {
    if brightPixels > 10 then
      if slope < -2.0 then TrendEstimate(StrongUptrend, 80)
      else if slope < -0.5 then TrendEstimate(Uptrend, 65)
      else if slope > 2.0 then TrendEstimate(StrongDowntrend, 80)
      else if slope > 0.5 then TrendEstimate(Downtrend, 65)
      else TrendEstimate(Sideways, 50)
    else TrendEstimate(Neutral, 30)
  }

  /** A smaller slope (a steeper rise on screen) never yields a less bullish
      label. */
  lemma SlopeOrderIsBullishOrder(brightPixels: nat, s1: real, s2: real)
    requires s1 <= s2
    ensures AnalyzeTrendDirection(brightPixels, s1).direction.Bullishness() >=
            AnalyzeTrendDirection(brightPixels, s2).direction.Bullishness()
  {
  }

  /** Exactly the two rising labels contain "UPTREND". */
  lemma UptrendKeyword(d: Direction)
    ensures Contains(d.Name(), "UPTREND") <==> d in {StrongUptrend, Uptrend}
  {
    match d
    case StrongUptrend =>
      assert "STRONG_" + "UPTREND" + "" == d.Name();
      ContainsMiddle("STRONG_", "UPTREND", "");
    case Uptrend =>
      assert "" + "UPTREND" + "" == d.Name();
      ContainsMiddle("", "UPTREND", "");
    case _ => NoWindowStart(d.Name(), "UPTREND");
  }

  /** Exactly the two falling labels contain "DOWNTREND". */
  lemma DowntrendKeyword(d: Direction)
    ensures Contains(d.Name(), "DOWNTREND") <==> d in {StrongDowntrend, Downtrend}
  {
    match d
    case StrongDowntrend =>
      assert "STRONG_" + "DOWNTREND" + "" == d.Name();
      ContainsMiddle("STRONG_", "DOWNTREND", "");
    case Downtrend =>
      assert "" + "DOWNTREND" + "" == d.Name();
      ContainsMiddle("", "DOWNTREND", "");
    case StrongUptrend => NoWindowStart(d.Name(), "DOWNTREND");
    case _ => TooLongToContain(d.Name(), "DOWNTREND");
  }

  /** Among the rising and falling labels, exactly the strong ones contain
      "STRONG". */
  lemma StrongKeyword(d: Direction)
    requires d !in {Sideways, Neutral}
    ensures Contains(d.Name(), "STRONG") <==> d in {StrongUptrend, StrongDowntrend}
  {
    match d
    case StrongUptrend =>
      assert "" + "STRONG" + "_UPTREND" == d.Name();
      ContainsMiddle("", "STRONG", "_UPTREND");
    case StrongDowntrend =>
      assert "" + "STRONG" + "_DOWNTREND" == d.Name();
      ContainsMiddle("", "STRONG", "_DOWNTREND");
    case _ => NoWindowStart(d.Name(), "STRONG");
  }

  /** The image-coordinate inversion: with enough bright pixels, a slope
      below -0.5 is reported as an uptrend label and a slope above 0.5 as a
      downtrend label, and only those. */
  lemma SlopeInversion(brightPixels: nat, slope: real)
    requires brightPixels > 10
    ensures Contains(AnalyzeTrendDirection(brightPixels, slope).direction.Name(), "UPTREND")
            <==> slope < -0.5
    ensures Contains(AnalyzeTrendDirection(brightPixels, slope).direction.Name(), "DOWNTREND")
            <==> slope > 0.5
  {
    var d := AnalyzeTrendDirection(brightPixels, slope).direction;
    UptrendKeyword(d);
    DowntrendKeyword(d);
  }
}
