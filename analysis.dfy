/** `perform_chart_analysis`: fills a result mapping with defaults, then
    runs trend estimation, pattern detection, level finding, signal
    generation and the insight sentences in that order, writing each
    stage's output into the mapping as soon as it is known. Any exception
    ends the run; the mapping keeps whatever was written before it and
    gets the failure recommendation. */
module Analysis {
  import opened Basics
  import opened Levels
  import opened TrendEstimator
  import opened Patterns
  import opened Signal
  import opened Insights

  // Written in two pieces, which keeps the verifier's reasoning about the
  // literal cheap; the value is the one message.
  const FailureMessage := "Unable to analyze chart. " + "Please try a clearer image."

  /** The foreign calls that can raise: the grayscale conversion and edge
      detection, the brightness percentile and line fit of the trend stage,
      the OpenCV morphology and contour work of the pattern stage, and the
      level stage's local import of scipy's peak finder, which raises
      exactly when scipy is absent. */
  datatype ForeignStage = Conversion | TrendFit | PatternExtraction | PeakFinding

  /** What the foreign front end measures on the image: the grayscale rows,
      the bright pixels and fitted slope of the trend stage, and the
      horizontal-line strength and contours of the pattern stage. */
  datatype FrontEnd = FrontEnd(
    gray: Gray,
    brightPixels: nat,
    slope: real,
    horizontalStrength: nat,
    contours: seq<Contour>)

  /** The result mapping as a value. `technicalAnalysis == None` is the
      empty `{}` default; `signalScore == None` is a mapping without the
      `signal_score` key, which only the signal stage adds. */
  datatype Report = Report(
    overallSignal: string,
    confidence: int,
    trendDirection: string,
    supportResistance: seq<Level>,
    patternsDetected: seq<string>,
    technicalAnalysis: Option<Insights>,
    recommendation: string,
    signalScore: Option<int>)

  /** The mapping as initialised: HOLD, confidence 0, NEUTRAL, no levels,
      no patterns, no insights, an empty recommendation and no score. */
  function Defaults(): Report
  {
    Report(Hold.Name(), 0, Neutral.Name(), [], [], None, "", None)
  }

  /** The `results` mapping, whose entries the analysis overwrites stage by
      stage. */
  class AnalysisResult {
    var overallSignal: string
    var confidence: int
    var trendDirection: string
    var supportResistance: seq<Level>
    var patternsDetected: seq<string>
    var technicalAnalysis: Option<Insights>
    var recommendation: string
    var signalScore: Option<int>

    function View(): Report
      reads this
    {
      Report(overallSignal, confidence, trendDirection, supportResistance,
             patternsDetected, technicalAnalysis, recommendation, signalScore)
    }

    constructor ()
      ensures View() == Defaults()
    {
      overallSignal := Hold.Name();
      confidence := 0;
      trendDirection := Neutral.Name();
      supportResistance := [];
      patternsDetected := [];
      technicalAnalysis := None;
      recommendation := "";
      signalScore := None;
    }
  }

  /** An image with no rows, or rows of no pixels: the grayscale conversion
      refuses an empty source and raises before any stage writes. */
  predicate EmptyImage(gray: Gray)
  {
    |gray| == 0 || |gray[0]| == 0
  }

  /** The failures that strike before the trend stage writes anything. */
  predicate FailsEarly(input: FrontEnd, raises: Option<ForeignStage>)
  {
    raises == Some(Conversion) || raises == Some(TrendFit) || EmptyImage(input.gray)
  }

  /** Whether the run raises: a foreign stage raised, or the image is
      empty. */
  predicate Fails(input: FrontEnd, raises: Option<ForeignStage>)
  {
    raises.Some? || EmptyImage(input.gray)
  }

  /** The mapping after the trend stage has written its direction and
      confidence. */
  function AfterTrend(input: FrontEnd): Report
  {
    var trend := AnalyzeTrendDirection(input.brightPixels, input.slope);
    Defaults().(trendDirection := trend.direction.Name(), confidence := trend.confidence)
  }

  /** The mapping after the pattern stage has written its list too. */
  function AfterPatterns(input: FrontEnd): Report
  {
    AfterTrend(input).(patternsDetected := DetectedPatterns(input.horizontalStrength, input.contours))
  }

  /** The mapping `perform_chart_analysis` returns, given what the foreign
      front end measured and which foreign stage (if any) raised. */
  function Analyze(input: FrontEnd, raises: Option<ForeignStage>): (r: Report)
    ensures r.signalScore.None? <==> Fails(input, raises)
    ensures Fails(input, raises) ==> r.recommendation == FailureMessage
  {
    if EmptyImage(input.gray) then
      Defaults().(recommendation := FailureMessage)
    else
      match raises
      case Some(Conversion) | Some(TrendFit) => Defaults().(recommendation := FailureMessage)
      case Some(PatternExtraction) => AfterTrend(input).(recommendation := FailureMessage)
      case Some(PeakFinding) => AfterPatterns(input).(recommendation := FailureMessage)
      case None =>
        Completed(AfterPatterns(input).(supportResistance := SupportResistanceLevels(input.gray).value))
  }

  /** The last two stages on a mapping that already holds the trend, the
      patterns and the levels: the signal verdict, score and recommendation,
      then the insight sentences. */
  function Completed(partial: Report): (r: Report)
    ensures r.signalScore.Some?
    ensures r.trendDirection == partial.trendDirection
    ensures r.patternsDetected == partial.patternsDetected
    ensures r.supportResistance == partial.supportResistance
  {
    var trend := partial.trendDirection;
    var patterns := partial.patternsDetected;
    var levels := partial.supportResistance;
    var score := Score(trend, patterns, |levels|);
    var verdict := Classify(score);
    partial.(
      overallSignal := verdict.signal.Name(),
      confidence := verdict.confidence,
      recommendation := Recommendation(Reasons(trend, patterns, |levels|)),
      signalScore := Some(score),
      technicalAnalysis := Some(GenerateTechnicalInsights(trend, patterns, levels)))
  }

  /** `perform_chart_analysis`: writes each stage's output into a fresh
      result mapping as the stage finishes; a raise stops the run and
      overwrites only the recommendation. */
  method PerformChartAnalysis(input: FrontEnd, raises: Option<ForeignStage>) returns (results: AnalysisResult)
    ensures fresh(results)
    ensures results.View() == Analyze(input, raises)
  {
    results := new AnalysisResult();
    if raises == Some(Conversion) || raises == Some(TrendFit) || |input.gray| == 0 || |input.gray[0]| == 0 {
      results.recommendation := FailureMessage;
      return;
    }
    var trend := AnalyzeTrendDirection(input.brightPixels, input.slope);
    results.trendDirection := trend.direction.Name();
    results.confidence := trend.confidence;
    if raises == Some(PatternExtraction) {
      results.recommendation := FailureMessage;
      return;
    }
    var patterns := DetectChartPatterns(input.horizontalStrength, input.contours);
    results.patternsDetected := patterns;
    if raises == Some(PeakFinding) {
      results.recommendation := FailureMessage;
      return;
    }
    var levels := FindSupportResistanceLevels(input.gray);
    results.supportResistance := levels.value;
    NoStageRaised(raises);
    CompletesWithLevels(input);
    RecordSignalAndInsights(results);
  }

  /** A run that none of the four foreign stages interrupted raised
      nothing. */
  lemma NoStageRaised(raises: Option<ForeignStage>)
    requires raises != Some(Conversion) && raises != Some(TrendFit)
    requires raises != Some(PatternExtraction) && raises != Some(PeakFinding)
    ensures raises == None
  {
    if raises.Some? {
      match raises.value
      case Conversion =>
      case TrendFit =>
      case PatternExtraction =>
      case PeakFinding =>
    }
  }

  /** The last two stages, reading the trend, patterns and levels back from
      the mapping: `results.update(signal)` and then the insights entry. */
  method RecordSignalAndInsights(results: AnalysisResult)
    modifies results
    ensures results.View() == Completed(old(results.View()))
  {
    var signal := GenerateTradingSignal(results.trendDirection, results.patternsDetected, results.supportResistance);
    results.overallSignal := signal.overallSignal;
    results.confidence := signal.confidence;
    results.recommendation := signal.recommendation;
    results.signalScore := Some(signal.signalScore);
    results.technicalAnalysis :=
      Some(GenerateTechnicalInsights(results.trendDirection, results.patternsDetected, results.supportResistance));
  }

  // ---------------------------------------------------------------------
  // Properties of the whole analysis

  /** A failure in the conversion or the trend stage, an empty image
      included, leaves the defaults untouched apart from the
      recommendation. */
  lemma EarlyFailureKeepsDefaults(input: FrontEnd, raises: Option<ForeignStage>)
    requires FailsEarly(input, raises)
    ensures Analyze(input, raises) == Defaults().(recommendation := FailureMessage)
  {
  }

  /** A failed run says so in the recommendation and reports HOLD, no score,
      no levels and no insights; but a trend estimated before the failure
      stays in the mapping. A run has a score exactly when it did not
      fail. */
  lemma FailureOutcome(input: FrontEnd, raises: Option<ForeignStage>)
    ensures Analyze(input, raises).signalScore.None? <==> Fails(input, raises)
    ensures Fails(input, raises) ==>
      var r := Analyze(input, raises);
      r.recommendation == FailureMessage && r.overallSignal == Hold.Name() &&
      r.supportResistance == [] && r.technicalAnalysis.None?
    ensures Fails(input, raises) && !FailsEarly(input, raises) ==>
      var t := AnalyzeTrendDirection(input.brightPixels, input.slope);
      Analyze(input, raises).trendDirection == t.direction.Name() &&
      Analyze(input, raises).confidence == t.confidence
    ensures raises == Some(PeakFinding) && !EmptyImage(input.gray) ==>
      Analyze(input, raises).patternsDetected ==
        DetectedPatterns(input.horizontalStrength, input.contours)
  {
    if EmptyImage(input.gray) {
      EarlyFailureKeepsDefaults(input, raises);
    } else {
      match raises
      case Some(Conversion) =>
      case Some(TrendFit) =>
      case Some(PatternExtraction) =>
      case Some(PeakFinding) =>
      case None => CompletesWithLevels(input);
    }
  }

  /** A successful run reports the verdict its score calls for, a
      confidence of 40 to 90, at most five patterns and five levels,
      insights, and a recommendation that starts with the fixed prefix
      rather than the failure message. */
  lemma SuccessOutcome(input: FrontEnd, raises: Option<ForeignStage>)
    requires !Fails(input, raises)
    ensures
      var r := Analyze(input, raises);
      r.signalScore.Some? &&
      r.overallSignal == Classify(r.signalScore.value).signal.Name() &&
      r.confidence == Classify(r.signalScore.value).confidence &&
      40 <= r.confidence <= 90 &&
      |r.patternsDetected| <= 5 && |r.supportResistance| <= 5 &&
      r.technicalAnalysis.Some? &&
      RecommendationPrefix <= r.recommendation &&
      r.recommendation != FailureMessage
  {
    LevelsAreInteriorPeaks(input.gray);
    DetectedPatternsShape(input.horizontalStrength, input.contours);
    var r := Analyze(input, raises);
    assert r.recommendation[0] == 'B' && FailureMessage[0] == 'U';
  }

  /** A blank chart (too few bright pixels, no horizontal lines, no shaped
      contours, identical rows) yields the neutral outcome: score 0, HOLD at
      40%, no levels, no patterns, the bare recommendation prefix, and the
      waiting, no-pattern and limited-levels sentences. */
  lemma BlankChart(input: FrontEnd)
    requires input.brightPixels <= 10 && input.horizontalStrength <= 100
    requires forall k :: 0 <= k < |input.contours| ==> ContourLabel(input.contours[k]) == []
    requires !EmptyImage(input.gray)
    requires forall i :: 0 <= i < |input.gray| ==> input.gray[i] == input.gray[0]
    ensures Analyze(input, None) ==
      Report(Hold.Name(), 40, Neutral.Name(), [], [],
             Some(Insights(ConsolidatingInsight, NoPatternsInsight, FewLevelsInsight)),
             RecommendationPrefix, Some(0))
  {
    ShapelessContours(input.contours);
    UniformImageHasNoLevels(input.gray);
    CompletesWithLevels(input);
    var partial := AfterPatterns(input).(supportResistance := []);
    assert partial == Defaults().(confidence := 30);
    NeutralIsQuiet();
    QuietCompletion(partial);
  }

  /** The NEUTRAL label scores nothing, gives no rationale and gets the
      waiting sentence. */
  lemma NeutralIsQuiet()
    ensures TrendScore(Neutral.Name()) == 0
    ensures TrendReasons(Neutral.Name()) == []
    ensures TrendInsight(Neutral.Name()) == ConsolidatingInsight
  {
    DirectionContribution(Neutral);
    TrendInsightMatchesScore(Neutral.Name());
  }

  /** Completing a run whose trend scores nothing, with no patterns and no
      levels: score 0, HOLD at 40%, the bare prefix and the fallback
      sentences. */
  lemma QuietCompletion(partial: Report)
    requires TrendScore(partial.trendDirection) == 0 && TrendReasons(partial.trendDirection) == []
    requires TrendInsight(partial.trendDirection) == ConsolidatingInsight
    requires partial.patternsDetected == [] && partial.supportResistance == []
    ensures Completed(partial) ==
      partial.(overallSignal := Hold.Name(), confidence := 40, recommendation := RecommendationPrefix,
               signalScore := Some(0),
               technicalAnalysis := Some(Insights(ConsolidatingInsight, NoPatternsInsight, FewLevelsInsight)))
  {
    assert Reasons(partial.trendDirection, [], 0) == [];
  }

  /** A steep rise on screen with strong horizontal lines is always a STRONG
      BUY at the 90% cap: the trend adds 40 and the horizontal-lines label
      15, and nothing else subtracts. */
  lemma SteepRiseWithLevels(input: FrontEnd)
    requires input.brightPixels > 10 && input.slope < -2.0
    requires input.horizontalStrength > 100
    requires !EmptyImage(input.gray)
    ensures Analyze(input, None).overallSignal == StrongBuy.Name()
    ensures Analyze(input, None).confidence == 90
    ensures Analyze(input, None).signalScore.Some? && Analyze(input, None).signalScore.value >= 55
  {
    var partial := AfterPatterns(input).(supportResistance := SupportResistanceLevels(input.gray).value);
    CompletesWithLevels(input);
    DirectionContribution(StrongUptrend);
    DetectedPatternsShape(input.horizontalStrength, input.contours);
    VocabularyScores();
    RisingScore(partial.trendDirection, partial.patternsDetected, |partial.supportResistance|);
    StrongScoreVerdict(partial);
  }

  /** Without a foreign failure, a non-empty chart runs to completion on
      the levels it finds. */
  lemma CompletesWithLevels(input: FrontEnd)
    requires !EmptyImage(input.gray)
    ensures Analyze(input, None) ==
      Completed(AfterPatterns(input).(supportResistance := SupportResistanceLevels(input.gray).value))
  {
  }

  /** A run on a non-empty chart without a foreign failure goes through
      every stage: each field holds what its stage produced, the trend
      label, the first five patterns and levels, the score of the three
      rules, the label and confidence that score calls for, the
      recommendation naming the rationale, and the insight sentences. */
  lemma EveryStageRuns(input: FrontEnd)
    requires !EmptyImage(input.gray)
    ensures
      var r := Analyze(input, None);
      var trend := AnalyzeTrendDirection(input.brightPixels, input.slope).direction.Name();
      var patterns := DetectedPatterns(input.horizontalStrength, input.contours);
      var levels := SupportResistanceLevels(input.gray).value;
      var score := Score(trend, patterns, |levels|);
      r.trendDirection == trend &&
      r.patternsDetected == patterns &&
      r.supportResistance == levels &&
      r.signalScore == Some(score) &&
      r.overallSignal == Classify(score).signal.Name() &&
      r.confidence == Classify(score).confidence &&
      r.recommendation == Recommendation(Reasons(trend, patterns, |levels|)) &&
      r.technicalAnalysis == Some(GenerateTechnicalInsights(trend, patterns, levels))
  {
    CompletesWithLevels(input);
  }

  /** A strong uptrend label plus a leading label worth 15 scores at least
      55. */
  lemma RisingScore(trend: string, patterns: seq<string>, levelCount: nat)
    requires TrendScore(trend) == 40
    requires |patterns| > 0 && PatternScore(patterns[0]) == 15
    ensures Score(trend, patterns, levelCount) >= 55
  {
    PatternsScoreCoversEach(patterns, 0);
  }

  /** Completing a run whose score reaches 30 reports a STRONG BUY at 90%. */
  lemma StrongScoreVerdict(partial: Report)
    requires Score(partial.trendDirection, partial.patternsDetected, |partial.supportResistance|) >= 30
    ensures Completed(partial).overallSignal == StrongBuy.Name()
    ensures Completed(partial).confidence == 90
    ensures Completed(partial).signalScore ==
      Some(Score(partial.trendDirection, partial.patternsDetected, |partial.supportResistance|))
  {
  }
}
