/** `generate_technical_insights`: three canned sentences chosen from the
    trend label, the pattern list and the level list, with no computation of
    their own. */
module Insights {
  import opened Basics
  import opened Text
  import opened Levels
  import opened Signal

  const BullishInsight := "Bullish momentum detected. Consider long positions."
  const BearishInsight := "Bearish pressure evident. Consider short positions or exit longs."
  const ConsolidatingInsight := "Market consolidating. Wait for clear directional break."
  const PatternsOpening := "Key patterns: "
  const PatternsClosing := ". Monitor for breakouts."
  // The longer sentences are written in pieces, which keeps the verifier's
  // reasoning about these literals cheap; each constant is one sentence.
  const NoPatternsInsight := "No clear patterns detected. " + "Market may be in transition."
  const LevelsOpening := "Watch "
  const LevelsClosing := " key levels. " + "Use them for stop-loss placement."
  const FewLevelsInsight := "Limited clear levels. " + "Use tight stops and small position sizes."

  /** The `technical_analysis` mapping with its three keys. */
  datatype Insights = Insights(trendAnalysis: string, patternAnalysis: string, riskManagement: string)

  /** "UPTREND" is tested before "DOWNTREND", as in the signal scorer. */
  function TrendInsight(trend: string): string
  {
    if Contains(trend, "UPTREND") then BullishInsight
    else if Contains(trend, "DOWNTREND") then BearishInsight
    else ConsolidatingInsight
  }

  /** Lists every pattern, joined by ", ", when there is any. */
  function PatternInsight(patterns: seq<string>): string
  {
    if patterns != [] then PatternsOpening + Join(patterns, ", ") + PatternsClosing
    else NoPatternsInsight
  }

  /** States the number of levels when there is any. */
  function RiskInsight(levelCount: nat): string
  {
    if levelCount > 0 then LevelsOpening + NatToString(levelCount) + LevelsClosing
    else FewLevelsInsight
  }

  /** `generate_technical_insights`: one sentence each for the trend, the
      patterns and the levels. The trend sentence is one of three fixed
      sentences; the fallback sentences for patterns and levels appear
      exactly when there are none. */
  function GenerateTechnicalInsights(trend: string, patterns: seq<string>, levels: seq<Level>): (r: Insights)
    ensures r.trendAnalysis in {BullishInsight, BearishInsight, ConsolidatingInsight}
    ensures r.patternAnalysis == NoPatternsInsight <==> patterns == []
    ensures r.riskManagement == FewLevelsInsight <==> levels == []
  {
    assert NoPatternsInsight[0] == 'N' && FewLevelsInsight[0] == 'L';
    Insights(TrendInsight(trend), PatternInsight(patterns), RiskInsight(|levels|))
  }

  /** The trend sentence agrees with the scorer: bullish exactly when the
      trend added to the score, bearish exactly when it took away, and the
      waiting sentence exactly when it contributed nothing. */
  lemma TrendInsightMatchesScore(trend: string)
    ensures TrendInsight(trend) == BullishInsight <==> TrendScore(trend) > 0
    ensures TrendInsight(trend) == BearishInsight <==> TrendScore(trend) < 0
    ensures TrendInsight(trend) == ConsolidatingInsight <==> TrendScore(trend) == 0
  {
  }

  /** A non-empty pattern list is quoted in full: every label appears in the
      sentence. */
  lemma PatternInsightListsAll(patterns: seq<string>, k: nat)
    requires k < |patterns|
    ensures Contains(PatternInsight(patterns), patterns[k])
  {
    var joined := Join(patterns, ", ");
    JoinContainsEach(patterns, ", ", k);
    ContainsInSuffix(PatternsOpening, joined, patterns[k]);
    ContainsInPrefix(PatternsOpening + joined, PatternsClosing, patterns[k]);
  }

  /** Reads the level count back out of a risk sentence; `None` for a
      sentence that states no count. */
  function LevelCountOf(sentence: string): Option<nat>
  {
    if LevelsOpening <= sentence then
      var digits := DigitPrefix(sentence[|LevelsOpening|..]);
      if digits != "" then Some(ParseNat(digits)) else None
    else None
  }

  /** A count written after the opening and before a non-digit reads back
      as that count. */
  lemma ReadCountBack(digits: string, rest: string)
    requires digits != [] && IsDigits(digits)
    requires rest == [] || !IsDigit(rest[0])
    ensures LevelCountOf(LevelsOpening + digits + rest) == Some(ParseNat(digits))
  {
    var sentence := LevelsOpening + digits + rest;
    assert sentence[|LevelsOpening|..] == digits + rest;
    DigitPrefixOfNumber(digits, rest);
  }

  /** The risk sentence states exactly how many levels there are, and says
      nothing about a count when there are none. */
  lemma RiskInsightStatesCount(levelCount: nat)
    ensures LevelCountOf(RiskInsight(levelCount)) == if levelCount > 0 then Some(levelCount) else None
  {
    if levelCount > 0 {
      assert LevelsClosing[0] == ' ';
      ReadCountBack(NatToString(levelCount), LevelsClosing);
      ParseNatToString(levelCount);
    } else {
      assert FewLevelsInsight[0] == 'L';
    }
  }
}
