/** `generate_trading_signal`: a hand-tuned integer score built from the
    trend label, the pattern labels and the number of support/resistance
    levels, the rationale strings for every rule that fired, and the mapping
    of the score to a label, a confidence and a recommendation text. */
module Signal {
  import opened Basics
  import opened Text
  import opened Levels
  import opened TrendEstimator
  import opened Patterns

  /** The seven rationale strings the rules can append. */
  datatype Reason =
    | StrongUptrendReason
    | UptrendReason
    | StrongDowntrendReason
    | DowntrendReason
    | TriangleReason
    | SupportReason
    | StructureReason
  {
    function Text(): (r: string)
      ensures |r| > 0
    {
      match this
      case StrongUptrendReason => "Strong uptrend detected"
      case UptrendReason => "Uptrend detected"
      case StrongDowntrendReason => "Strong downtrend detected"
      case DowntrendReason => "Downtrend detected"
      case TriangleReason => "Triangle pattern suggests breakout potential"
      case SupportReason => "Strong support/resistance levels identified"
      case StructureReason => "Multiple support/resistance levels provide structure"
    }

    /** The amount of score the rationale stands for. */
    function Weight(): int
    {
      match this
      case StrongUptrendReason => 40
      case UptrendReason => 25
      case StrongDowntrendReason => -40
      case DowntrendReason => -25
      case TriangleReason => 10
      case SupportReason => 15
      case StructureReason => 10
    }
  }

  const RecommendationPrefix := "Based on technical analysis: "
  const ReasonSeparator := " | "

  // ---------------------------------------------------------------------
  // The scoring rules, one function per rule

  /** The trend rule: "UPTREND" is tested before "DOWNTREND", and "STRONG"
      picks the larger weight. Any other label scores nothing. */
  function TrendScore(trend: string): (r: int)
    ensures r in {40, 25, 0, -25, -40}
    ensures r > 0 <==> Contains(trend, "UPTREND")
    ensures r < 0 <==> !Contains(trend, "UPTREND") && Contains(trend, "DOWNTREND")
  {
    if Contains(trend, "UPTREND") then
      (if Contains(trend, "STRONG") then 40 else 25)
    else if Contains(trend, "DOWNTREND") then
      (if Contains(trend, "STRONG") then -40 else -25)
    else 0
  }

  /** The rationale the trend rule appends. */
  function TrendReasons(trend: string): seq<Reason>
  {
    if Contains(trend, "UPTREND") then
      (if Contains(trend, "STRONG") then [StrongUptrendReason] else [UptrendReason])
    else if Contains(trend, "DOWNTREND") then
      (if Contains(trend, "STRONG") then [StrongDowntrendReason] else [DowntrendReason])
    else []
  }

  /** The pattern rule for one label: "Triangle" is tested first, so a label
      with both words scores as a triangle only. */
  function PatternScore(pattern: string): (r: int)
    ensures r in {0, 10, 15}
  {
    if Contains(pattern, "Triangle") then 10
    else if Contains(pattern, "Support") then 15
    else 0
  }

  /** The rationale one pattern label appends. */
  function PatternReasons(pattern: string): seq<Reason>
  {
    if Contains(pattern, "Triangle") then [TriangleReason]
    else if Contains(pattern, "Support") then [SupportReason]
    else []
  }

  /** The pattern rule over the whole list, in list order. */
  function PatternsScore(patterns: seq<string>): (r: int)
    ensures 0 <= r <= 15 * |patterns|
  {
    if patterns == [] then 0
    else PatternsScore(patterns[..|patterns| - 1]) + PatternScore(patterns[|patterns| - 1])
  }

  function PatternsReasons(patterns: seq<string>): (r: seq<Reason>)
    ensures |r| <= |patterns|
  {
    if patterns == [] then []
    else PatternsReasons(patterns[..|patterns| - 1]) + PatternReasons(patterns[|patterns| - 1])
  }

  /** The level rule: three or more levels add 10. */
  function LevelsScore(levelCount: nat): int
  {
    if levelCount >= 3 then 10 else 0
  }

  function LevelsReasons(levelCount: nat): seq<Reason>
  {
    if levelCount >= 3 then [StructureReason] else []
  }

  /** The final `signal_score`: never below -40, never above 50 plus 15
      per pattern label. */
  function Score(trend: string, patterns: seq<string>, levelCount: nat): (r: int)
    ensures -40 <= r <= 50 + 15 * |patterns|
  {
    TrendScore(trend) + PatternsScore(patterns) + LevelsScore(levelCount)
  }

  /** The final `reasoning` list, in the order the rules fire. */
  function Reasons(trend: string, patterns: seq<string>, levelCount: nat): (r: seq<Reason>)
    ensures |r| <= |patterns| + 2
  {
    TrendReasons(trend) + PatternsReasons(patterns) + LevelsReasons(levelCount)
  }

  // ---------------------------------------------------------------------
  // From score to label, confidence and text

  datatype SignalLabel = StrongBuy | Buy | Hold | Sell | StrongSell
  {
    /** The label as the result dictionary spells it. */
    function Name(): string
    {
      match this
      case StrongBuy => "STRONG BUY"
      case Buy => "BUY"
      case Hold => "HOLD"
      case Sell => "SELL"
      case StrongSell => "STRONG SELL"
    }

    /** 2 for STRONG BUY down to -2 for STRONG SELL. */
    function Rank(): int
    {
      match this
      case StrongBuy => 2
      case Buy => 1
      case Hold => 0
      case Sell => -1
      case StrongSell => -2
    }
  }

  datatype Verdict = Verdict(signal: SignalLabel, confidence: int)

  /** The five spellings are distinct, so the string stored in the result
      names exactly one label. */
  lemma LabelNamesDistinct(a: SignalLabel, b: SignalLabel)
    ensures a.Name() == b.Name() <==> a == b
  {
    assert "STRONG BUY"[7] == 'B' && "STRONG SELL"[7] == 'S';
  }

  /** Python's `abs` on integers. */
  function Abs(x: int): nat { if x < 0 then -x else x }

  /** The cut-offs of the final decision. The five labels partition the
      scores at -30, -15, 15 and 30; the strong labels are capped at 90%
      confidence, BUY and SELL sit between 65% and 75%, HOLD is 40% plus the
      distance from zero, so every confidence lies between 40% and 90%. */
  function Classify(score: int): (r: Verdict)
    ensures r.signal == StrongBuy <==> score >= 30
    ensures r.signal == Buy <==> 15 <= score < 30
    ensures r.signal == Hold <==> -15 < score < 15
    ensures r.signal == Sell <==> -30 < score <= -15
    ensures r.signal == StrongSell <==> score <= -30
    ensures r.signal in {StrongBuy, StrongSell} ==> r.confidence == 90
    ensures r.signal in {Buy, Sell} ==> 65 <= r.confidence <= 75
    ensures r.signal == Hold ==> r.confidence == 40 + Abs(score) && 40 <= r.confidence <= 54
    ensures 40 <= r.confidence <= 90
  {
    if score >= 30 then Verdict(StrongBuy, Min(90, 60 + score))
    else if score >= 15 then Verdict(Buy, Min(75, 50 + score))
    else if score <= -30 then Verdict(StrongSell, Min(90, 60 + Abs(score)))
    else if score <= -15 then Verdict(Sell, Min(75, 50 + Abs(score)))
    else Verdict(Hold, 40 + Abs(score))
  }

  /** A higher score never gives a more bearish label. */
  lemma ClassifyMonotone(s1: int, s2: int)
    requires s1 <= s2
    ensures Classify(s1).signal.Rank() <= Classify(s2).signal.Rank()
  {
  }

  /** The texts of a list of rationales, in order. */
  function Texts(reasons: seq<Reason>): (r: seq<string>)
    ensures |r| == |reasons|
  {
    seq(|reasons|, k requires 0 <= k < |reasons| => reasons[k].Text())
  }

  /** `f"Based on technical analysis: {' | '.join(reasoning)}"`: the fixed
      prefix, followed by something exactly when there is a rationale. */
  function Recommendation(reasons: seq<Reason>): (r: string)
    ensures RecommendationPrefix <= r
    ensures r == RecommendationPrefix <==> reasons == []
  {
    var texts := Texts(reasons);
    assert reasons != [] ==> |texts[0]| > 0;
    RecommendationPrefix + Join(texts, ReasonSeparator)
  }

  /** What `generate_trading_signal` returns. */
  datatype SignalAnalysis = SignalAnalysis(
    overallSignal: string,
    confidence: int,
    recommendation: string,
    signalScore: int)

  /** The pattern loop of `generate_trading_signal`: continues the running
      score and rationale with every pattern label, in list order. */
  method ApplyPatternRules(patterns: seq<string>, score0: int, reasoning0: seq<Reason>)
    returns (score: int, reasoning: seq<Reason>)
    ensures score == score0 + PatternsScore(patterns)
    ensures reasoning == reasoning0 + PatternsReasons(patterns)
  {
    score, reasoning := score0, reasoning0;
    var i := 0;
    assert patterns[..i] == [];
    while i < |patterns|
      invariant 0 <= i <= |patterns|
      invariant score == score0 + PatternsScore(patterns[..i])
      invariant reasoning == reasoning0 + PatternsReasons(patterns[..i])
    {
      assert patterns[..i + 1][..i] == patterns[..i];
      var pattern := patterns[i];
      if Contains(pattern, "Triangle") {
        score := score + 10;
        reasoning := reasoning + [TriangleReason];
      } else if Contains(pattern, "Support") {
        score := score + 15;
        reasoning := reasoning + [SupportReason];
      }
      i := i + 1;
    }
    assert patterns[..i] == patterns;
  }

  /** The "determine final signal" step: the first matching threshold, in
      the order STRONG BUY, BUY, STRONG SELL, SELL, else HOLD. */
  method DetermineSignal(score: int) returns (overall: SignalLabel, confidence: int)
    ensures Verdict(overall, confidence) == Classify(score)
  {
    if score >= 30 {
      overall, confidence := StrongBuy, Min(90, 60 + score);
    } else if score >= 15 {
      overall, confidence := Buy, Min(75, 50 + score);
    } else if score <= -30 {
      overall, confidence := StrongSell, Min(90, 60 + Abs(score));
    } else if score <= -15 {
      overall, confidence := Sell, Min(75, 50 + Abs(score));
    } else {
      overall, confidence := Hold, 40 + Abs(score);
    }
  }

  /** `generate_trading_signal`: accumulates the score and the rationale rule
      by rule, then maps the score to a label and confidence. */
  method GenerateTradingSignal(trend: string, patterns: seq<string>, levels: seq<Level>)
    returns (signal: SignalAnalysis)
    ensures signal.signalScore == Score(trend, patterns, |levels|)
    ensures signal.overallSignal == Classify(signal.signalScore).signal.Name()
    ensures signal.confidence == Classify(signal.signalScore).confidence
    ensures signal.recommendation == Recommendation(Reasons(trend, patterns, |levels|))
  {
    var score := 0;
    var reasoning: seq<Reason> := [];

    if Contains(trend, "UPTREND") {
      if Contains(trend, "STRONG") {
        score := score + 40;
        reasoning := reasoning + [StrongUptrendReason];
      } else {
        score := score + 25;
        reasoning := reasoning + [UptrendReason];
      }
    } else if Contains(trend, "DOWNTREND") {
      if Contains(trend, "STRONG") {
        score := score - 40;
        reasoning := reasoning + [StrongDowntrendReason];
      } else {
        score := score - 25;
        reasoning := reasoning + [DowntrendReason];
      }
    }
    assert score == TrendScore(trend) && reasoning == TrendReasons(trend);

    score, reasoning := ApplyPatternRules(patterns, score, reasoning);

    if |levels| >= 3 {
      score := score + 10;
      reasoning := reasoning + [StructureReason];
    }
    assert score == Score(trend, patterns, |levels|);
    assert reasoning == Reasons(trend, patterns, |levels|);

    var overall, confidence := DetermineSignal(score);
    signal := SignalAnalysis(overall.Name(), confidence, RecommendationPrefix + Join(Texts(reasoning), ReasonSeparator), score);
  }

  // ---------------------------------------------------------------------
  // Properties of the scoring rules

  /** Each trend label the estimator produces adds a fixed amount: 40, 25,
      -25, -40, and nothing (and no rationale) for SIDEWAYS and NEUTRAL. */
  lemma DirectionContribution(d: Direction)
    ensures TrendScore(d.Name()) == match d
      case StrongUptrend => 40
      case Uptrend => 25
      case Sideways => 0
      case Neutral => 0
      case Downtrend => -25
      case StrongDowntrend => -40
    ensures TrendReasons(d.Name()) == [] <==> d in {Sideways, Neutral}
  {
    UptrendKeyword(d);
    match d
    case StrongUptrend => StrongKeyword(d);
    case Uptrend => StrongKeyword(d);
    case Sideways => DowntrendKeyword(d);
    case Neutral => DowntrendKeyword(d);
    case Downtrend => DowntrendKeyword(d); StrongKeyword(d);
    case StrongDowntrend => DowntrendKeyword(d); StrongKeyword(d);
  }

  /** The three labels the pattern detector emits score 15, 10 and 0. */
  lemma VocabularyScores()
    ensures PatternScore(SupportResistanceLabel) == 15
    ensures PatternScore(TriangleLabel) == 10
    ensures PatternScore(RectangleLabel) == 0
  {
    SupportResistanceLabelScore();
    TriangleLabelScore();
    RectangleLabelScore();
  }

  lemma SupportResistanceLabelScore()
    ensures PatternScore(SupportResistanceLabel) == 15
  {
    MissingFirstChar(SupportResistanceLabel, "Triangle");
    ContainsMiddle("Strong ", "Support", "/Resistance Levels");
  }

  lemma TriangleLabelScore()
    ensures PatternScore(TriangleLabel) == 10
  {
    ContainsMiddle("", "Triangle", " Pattern");
  }

  lemma RectangleLabelScore()
    ensures PatternScore(RectangleLabel) == 0
  {
    assert 'T' !in RectangleLabel && 'S' !in RectangleLabel;
    MissingFirstChar(RectangleLabel, "Triangle");
    MissingFirstChar(RectangleLabel, "Support");
  }

  /** A label with both keywords scores once, as a triangle. */
  lemma TriangleTakesPrecedence(pattern: string)
    requires Contains(pattern, "Triangle") && Contains(pattern, "Support")
    ensures PatternScore(pattern) == 10 && PatternReasons(pattern) == [TriangleReason]
  {
  }

  function WeightSum(reasons: seq<Reason>): int
  {
    if reasons == [] then 0 else WeightSum(reasons[..|reasons| - 1]) + reasons[|reasons| - 1].Weight()
  }

  lemma {:induction false} WeightSumAppend(a: seq<Reason>, b: seq<Reason>)
    ensures WeightSum(a + b) == WeightSum(a) + WeightSum(b)
  {
    if b == [] {
      assert a + b == a;
    } else {
      assert (a + b)[..|a + b| - 1] == a + b[..|b| - 1];
      WeightSumAppend(a, b[..|b| - 1]);
    }
  }

  /** One pattern label's rationale stands for exactly what the label
      scored. */
  lemma PatternWeighted(pattern: string)
    ensures WeightSum(PatternReasons(pattern)) == PatternScore(pattern)
    ensures forall k :: 0 <= k < |PatternReasons(pattern)| ==> PatternReasons(pattern)[k].Weight() != 0
  {
    var r := PatternReasons(pattern);
    if r != [] {
      assert r[..0] == [];
    }
  }

  lemma {:induction false} PatternsWeighted(patterns: seq<string>)
    ensures WeightSum(PatternsReasons(patterns)) == PatternsScore(patterns)
    ensures forall k :: 0 <= k < |PatternsReasons(patterns)| ==> PatternsReasons(patterns)[k].Weight() != 0
  {
    if patterns != [] {
      var init := patterns[..|patterns| - 1];
      var last := patterns[|patterns| - 1];
      PatternsWeighted(init);
      PatternWeighted(last);
      WeightSumAppend(PatternsReasons(init), PatternReasons(last));
    }
  }

  /** The rationale accounts for the whole score: every string in it stands
      for a nonzero amount, and those amounts add up to the score. So no rule
      moves the score silently and no rationale is appended for a rule that
      did not move it. */
  lemma ScoreIsSumOfReasons(trend: string, patterns: seq<string>, levelCount: nat)
    ensures Score(trend, patterns, levelCount) == WeightSum(Reasons(trend, patterns, levelCount))
    ensures forall k :: 0 <= k < |Reasons(trend, patterns, levelCount)| ==>
      Reasons(trend, patterns, levelCount)[k].Weight() != 0
  {
    var t := TrendReasons(trend);
    var p := PatternsReasons(patterns);
    var l := LevelsReasons(levelCount);
    TrendWeighted(trend);
    PatternsWeighted(patterns);
    LevelsWeighted(levelCount);
    WeightSumAppend(t, p);
    WeightSumAppend(t + p, l);
    NonZeroWeights(t, p);
    NonZeroWeights(t + p, l);
  }

  /** The trend rationale carries exactly the trend rule's score. */
  lemma TrendWeighted(trend: string)
    ensures WeightSum(TrendReasons(trend)) == TrendScore(trend)
    ensures forall k :: 0 <= k < |TrendReasons(trend)| ==> TrendReasons(trend)[k].Weight() != 0
  {
    var t := TrendReasons(trend);
    if t != [] { assert t[..0] == []; }
  }

  /** The level rationale carries exactly the level rule's score. */
  lemma LevelsWeighted(levelCount: nat)
    ensures WeightSum(LevelsReasons(levelCount)) == LevelsScore(levelCount)
    ensures forall k :: 0 <= k < |LevelsReasons(levelCount)| ==> LevelsReasons(levelCount)[k].Weight() != 0
  {
    var l := LevelsReasons(levelCount);
    if l != [] { assert l[..0] == []; }
  }

  /** Joining two lists of rationales with non-zero weights keeps every
      weight non-zero. */
  lemma NonZeroWeights(a: seq<Reason>, b: seq<Reason>)
    requires forall k :: 0 <= k < |a| ==> a[k].Weight() != 0
    requires forall k :: 0 <= k < |b| ==> b[k].Weight() != 0
    ensures forall k :: 0 <= k < |a + b| ==> (a + b)[k].Weight() != 0
  {
  }


  /** Each rule appends one rationale string exactly when it moves the
      score. */
  lemma OneReasonPerFiredRule(trend: string, pattern: string)
    ensures |TrendReasons(trend)| == if TrendScore(trend) == 0 then 0 else 1
    ensures |PatternReasons(pattern)| == if PatternScore(pattern) == 0 then 0 else 1
  {
  }

  /** The number of pattern labels that score. */
  function ScoringPatterns(patterns: seq<string>): nat
  {
    if patterns == [] then 0
    else ScoringPatterns(patterns[..|patterns| - 1]) + (if PatternScore(patterns[|patterns| - 1]) == 0 then 0 else 1)
  }

  /** One rationale string per rule that fired. */
  lemma {:induction false} ReasonCount(trend: string, patterns: seq<string>, levelCount: nat)
    ensures |Reasons(trend, patterns, levelCount)| ==
      (if TrendScore(trend) == 0 then 0 else 1) + ScoringPatterns(patterns) + (if levelCount >= 3 then 1 else 0)
  {
    PatternReasonCount(patterns);
    OneReasonPerFiredRule(trend, "");
  }

  lemma {:induction false} PatternReasonCount(patterns: seq<string>)
    ensures |PatternsReasons(patterns)| == ScoringPatterns(patterns)
  {
    if patterns != [] {
      PatternReasonCount(patterns[..|patterns| - 1]);
      OneReasonPerFiredRule("", patterns[|patterns| - 1]);
    }
  }

  /** Labels never cancel each other out: the pattern score is at least
      what any single label scores. */
  lemma {:induction false} PatternsScoreCoversEach(patterns: seq<string>, k: nat)
    requires k < |patterns|
    ensures PatternsScore(patterns) >= PatternScore(patterns[k])
  {
    var init := patterns[..|patterns| - 1];
    if k < |patterns| - 1 {
      assert init[k] == patterns[k];
      PatternsScoreCoversEach(init, k);
    }
  }

  /** The recommendation is the bare prefix exactly when no rule fired, and
      otherwise names every rationale. */
  lemma RecommendationText(trend: string, patterns: seq<string>, levelCount: nat)
    ensures Recommendation(Reasons(trend, patterns, levelCount)) == RecommendationPrefix
            <==> Reasons(trend, patterns, levelCount) == []
    ensures forall k :: 0 <= k < |Reasons(trend, patterns, levelCount)| ==>
      Contains(Recommendation(Reasons(trend, patterns, levelCount)), Reasons(trend, patterns, levelCount)[k].Text())
  {
    var reasons := Reasons(trend, patterns, levelCount);
    var texts := Texts(reasons);
    if reasons != [] {
      assert texts[0] <= Join(texts, ReasonSeparator);
      assert |Recommendation(reasons)| > |RecommendationPrefix|;
    }
    forall k | 0 <= k < |reasons|
      ensures Contains(Recommendation(reasons), reasons[k].Text())
    {
      JoinContainsEach(texts, ReasonSeparator, k);
      ContainsInSuffix(RecommendationPrefix, Join(texts, ReasonSeparator), texts[k]);
    }
  }
}
