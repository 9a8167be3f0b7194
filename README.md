# Chart analyzer back end, modelled in Dafny

This project models the back end of `ChartAnalyzer` in the trading-analyzer repository, which is the part of `chart_analyzer.py` that turns measurements taken from a chart image into a trading verdict. The model covers these stages:

- **Trend decision** in `analyze_trend_direction`. The count of bright pixels in the rightmost 30% of the image, and the slope of the line fitted through them, become one of six trend labels with a confidence.
- **Pattern list** of `detect_chart_patterns`. A horizontal-lines label may come first, followed by one triangle or rectangle/channel label per qualifying contour, cut to five.
- **Support/resistance levels** of `find_support_resistance_levels`:
  - row sums of the grayscale image;
  - the module's fallback `find_peaks` with a height of 30% of the largest row sum;
  - the first five peaks.
- **Signal scorer** `generate_trading_signal`:
  - an integer score and a list of rationales;
  - a label among STRONG BUY, BUY, HOLD, SELL and STRONG SELL, with a confidence;
  - a recommendation string.
- **Insight sentences** of `generate_technical_insights`.
- **Result mapping** assembled by `perform_chart_analysis`. Each stage's output is written into it as soon as that stage finishes, and any exception becomes a fixed failure recommendation.

The modules follow the stages:

| module | file | content |
|---|---|---|
| `Text` | `text.dfy` | Python's substring test `sub in s`, `sep.join`, `str(n)` for a count, and reading a count back |
| `TrendEstimator` | `trend.dfy` | the slope buckets and the trend labels |
| `Levels` | `levels.dfy` | the row projection, the fallback peak finder (a loop method proved against `PeakIndices`) and the level builder |
| `Patterns` | `patterns.dfy` | the label emission loop, proved against `DetectedPatterns` |
| `Signal` | `signal.dfy` | the scorer, as a method with its loops, plus one function per rule as its specification |
| `Insights` | `insights.dfy` | the three sentences |
| `Analysis` | `analysis.dfy` | the result mapping: a class whose fields the analysis overwrites stage by stage, proved against the function `Analyze` |

The foreign numerics are inputs:

- OpenCV's conversion, edge detection, morphology and contours;
- numpy's percentile and line fit.

A `FrontEnd` value holds the grayscale rows (all of one width, as in a numpy array), the bright-pixel count, the slope, the number of pixels left by the 40x1 opening, and, for each contour, its point count and the vertex count of its polygon approximation. An `Option<ForeignStage>` names the foreign call that raised, if one did. The candidates are the conversion, the trend fit, the pattern extraction, and the level stage's local import of scipy's `find_peaks`, which raises `ImportError` when scipy is absent. An empty image, with no rows or no columns, is a conversion failure: `cv2.cvtColor` refuses an empty source, so nothing is written. The level function on its own returns no result for an image without rows, as `np.max` of an empty projection raises.

On an exception the code does not reset fields that were already written; it replaces only the recommendation. Once the trend stage has written its label and confidence, they survive a failure in the pattern or level stage, and so does a pattern list written before a level-stage failure. `Analysis.FailureOutcome` states this. HOLD survives every failure, because only the signal stage writes the overall signal. Confidence 0 and NEUTRAL survive only a failure before the trend stage writes (`Analysis.EarlyFailureKeepsDefaults`).

Labels are stored as the strings the result dictionary holds (`"STRONG BUY"`, `"NEUTRAL"` and so on). `Signal.LabelNamesDistinct` shows that each stored string names exactly one signal label.

## Model

| member | source | states |
|---|---|---|
| Text.Join | chart_analyzer.py:223 | `sep.join` of no strings is empty, and otherwise starts with the first string |
| Text.ContainsIffWindow | chart_analyzer.py:175-198 | Python's `sub in s`, as used by every keyword test, holds exactly when some window of `s` spells `sub` |
| Text.ContainsWindow | chart_analyzer.py:175-198 | a substring test that holds yields the position of a matching window |
| Text.JoinContainsEach | chart_analyzer.py:223 | every joined string is a substring of the joined result |
| Text.NatToString | chart_analyzer.py:255 | `str(n)` of a count is a non-empty run of decimal digits, with no leading zero unless n is 0 |
| Text.ParseNatToString | chart_analyzer.py:255 | reading `str(n)` back as a decimal number gives n |
| Text.DigitPrefix | chart_analyzer.py:255 | the digit run read at the start of a string is a prefix of it and made of digits |
| Text.DigitPrefixOfNumber | chart_analyzer.py:255 | a number written before a non-digit is read back as exactly that number |
| TrendEstimator.AnalyzeTrendDirection | chart_analyzer.py:96-117 | each label is returned exactly when its condition holds: NEUTRAL iff at most 10 bright pixels; otherwise STRONG_UPTREND iff slope < -2, UPTREND iff -2 ≤ slope < -0.5, SIDEWAYS iff -0.5 ≤ slope ≤ 0.5, DOWNTREND iff 0.5 < slope ≤ 2, STRONG_DOWNTREND iff slope > 2; confidence is 80/65/50/30 exactly for strong/plain/sideways/neutral, so always in {30, 50, 65, 80} |
| TrendEstimator.SlopeOrderIsBullishOrder | chart_analyzer.py:105-115 | a smaller slope never gives a less bullish label (the order of the buckets) |
| TrendEstimator.UptrendKeyword | chart_analyzer.py:106-109 | exactly STRONG_UPTREND and UPTREND contain "UPTREND" |
| TrendEstimator.DowntrendKeyword | chart_analyzer.py:110-113 | exactly STRONG_DOWNTREND and DOWNTREND contain "DOWNTREND" |
| TrendEstimator.StrongKeyword | chart_analyzer.py:106-113 | among the rising and falling labels, exactly the strong ones contain "STRONG" |
| TrendEstimator.SlopeInversion | chart_analyzer.py:104-113 | with enough bright pixels, the label contains "UPTREND" iff slope < -0.5 and "DOWNTREND" iff slope > 0.5 (image rows grow downward) |
| Levels.Projection | chart_analyzer.py:154 | `np.sum(gray, axis=1)` has one entry per row, each at most 255 times the row's width |
| Levels.RowSum | chart_analyzer.py:154 | a row sum is at most 255 per pixel |
| Levels.MaxOf | chart_analyzer.py:158 | `np.max` of a non-empty projection is one of its entries and no entry exceeds it |
| Levels.PeaksBelowExact | chart_analyzer.py:265-272 | the peaks scanned below index n are exactly the peak indices below n, strictly increasing |
| Levels.PeaksAreSeparated | chart_analyzer.py:269-270 | a peak is a strict local maximum, so neither neighbour of a peak is a peak |
| Levels.PeakIndices | chart_analyzer.py:265-272 | every reported index i has 1 ≤ i ≤ len-2, data[i] > data[i-1], data[i] > data[i+1] and data[i] ≥ height; indices strictly increase; every such index is reported |
| Levels.FindPeaks | chart_analyzer.py:265-272 | the scan loop returns exactly `PeakIndices(data, height)` |
| Levels.ScanCoversAllPeaks | chart_analyzer.py:268 | `range(1, len(data)-1)` covers every index that can be a peak, short inputs included |
| Levels.SupportResistanceLevels | chart_analyzer.py:151-166 | the level list is missing (the stage raises) exactly when the image has no rows |
| Levels.LevelsAreInteriorPeaks | chart_analyzer.py:154-165 | at most 5 levels, in strictly ascending row order; each is at a peak row of the projection at or above 30% of its maximum, has that row's sum as strength, and lies strictly between 0% and 100% of the chart height |
| Levels.LevelsAreFirstPeaks | chart_analyzer.py:158-161 | conversely, every peak up to the fifth level's row (every peak, when there are fewer than five levels) is a level: `peaks[:5]` skips none of the first peaks |
| Levels.FirstFiveHead | chart_analyzer.py:161 | in a strictly increasing index list, an element no larger than the fifth sits among the first five |
| Levels.FindSupportResistanceLevels | chart_analyzer.py:149-166 | the loop builds exactly `SupportResistanceLevels(gray)` |
| Levels.FlatHasNoPeaks | chart_analyzer.py:265-272 | a constant sequence has no peaks |
| Levels.UniformImageHasNoLevels | chart_analyzer.py:154-166 | an image whose rows are all equal yields no levels |
| Levels.PercentStrictlyInside | chart_analyzer.py:163 | an interior row is strictly between 0% and 100% of the height |
| Patterns.ContourLabelsAreShapes | chart_analyzer.py:136-145 | the contours yield at most one label each, and only triangle or rectangle/channel labels |
| Patterns.DetectedPatternsShape | chart_analyzer.py:130-147 | at most 5 labels, all from the three-label vocabulary; the horizontal-lines label is first iff more than 100 pixels survive the opening, and appears nowhere else |
| Patterns.DetectedPatterns | chart_analyzer.py:130-147 | `patterns[:5]` keeps at most five labels, a prefix of the emitted list in emission order, and all of them when no more than five were emitted |
| Patterns.DetectChartPatterns | chart_analyzer.py:121-147 | the emission loop returns exactly `DetectedPatterns(...)`, the first five labels in emission order |
| Patterns.EmittedStep | chart_analyzer.py:136-145 | scanning one more contour appends that contour's label |
| Patterns.ShapelessContours | chart_analyzer.py:136-145 | contours without a 3- or 4-vertex approximation add no label |
| Signal.Reason.Text | chart_analyzer.py:178-204 | every rationale string is non-empty |
| Signal.TrendScore | chart_analyzer.py:174-188 | the trend adds one of 40, 25, 0, -25 or -40; it adds a positive amount iff the label contains "UPTREND", and a negative amount iff it contains "DOWNTREND" but not "UPTREND" |
| Signal.PatternScore | chart_analyzer.py:193-198 | one pattern adds 0, 10 or 15 |
| Signal.PatternsScore | chart_analyzer.py:191-198 | the patterns add between 0 and 15 per label |
| Signal.PatternsReasons | chart_analyzer.py:191-198 | at most one rationale per pattern |
| Signal.Texts | chart_analyzer.py:223 | one string per rationale |
| Signal.Classify | chart_analyzer.py:207-221 | every score gets exactly one label, by the cutoffs ≥30, ≥15 (below 30), ≤-30, ≤-15 (above -30), else HOLD; both STRONG confidences are 90; BUY and SELL are in [65, 75]; HOLD is 40+abs(score), in [40, 54]; every confidence is in [40, 90] |
| Signal.LabelNamesDistinct | chart_analyzer.py:207-221 | the five label spellings are pairwise distinct, so a stored label string names exactly one label |
| Signal.ClassifyMonotone | chart_analyzer.py:207-221 | a higher score never gets a lower-ranked label |
| Signal.ApplyPatternRules | chart_analyzer.py:191-198 | the pattern loop adds exactly `PatternsScore` to the score and appends exactly `PatternsReasons` to the rationale |
| Signal.DetermineSignal | chart_analyzer.py:206-221 | the if-chain yields exactly `Classify(score)` |
| Signal.GenerateTradingSignal | chart_analyzer.py:168-230 | the score is the sum of the three rules (`Score`), the label is the spelling of `Classify(score)`'s label and the confidence is its confidence, and the recommendation is the prefix followed by the rationale texts joined with " \| " |
| Signal.DirectionContribution | chart_analyzer.py:174-188 | the six trend labels add 40, 25, 0, 0, -25, -40; only SIDEWAYS and NEUTRAL add no rationale |
| Signal.VocabularyScores | chart_analyzer.py:193-198 | the horizontal-lines, triangle and rectangle/channel labels score 15, 10 and 0 |
| Signal.SupportResistanceLabelScore | chart_analyzer.py:196-198 | the horizontal-lines label scores 15 |
| Signal.TriangleLabelScore | chart_analyzer.py:193-195 | the triangle label scores 10 |
| Signal.RectangleLabelScore | chart_analyzer.py:193-198 | the rectangle/channel label scores 0 |
| Signal.TriangleTakesPrecedence | chart_analyzer.py:193-198 | a label containing both "Triangle" and "Support" scores once, as a triangle |
| Signal.WeightSumAppend | chart_analyzer.py:170-204 | rationale weights add up over concatenation |
| Signal.PatternWeighted | chart_analyzer.py:193-198 | a pattern's rationale carries exactly its score |
| Signal.PatternsWeighted | chart_analyzer.py:191-198 | the pattern rationales carry exactly the pattern score, each with non-zero weight |
| Signal.TrendWeighted | chart_analyzer.py:174-188 | the trend rationale carries exactly the trend score |
| Signal.LevelsWeighted | chart_analyzer.py:201-204 | the level rationale carries exactly the level score |
| Signal.NonZeroWeights | chart_analyzer.py:170-204 | concatenating rationales with non-zero weights keeps every weight non-zero |
| Signal.ScoreIsSumOfReasons | chart_analyzer.py:170-204 | the final score equals the summed weights of the rationales, and no rationale has weight 0: each rationale stands for a rule that changed the score |
| Signal.OneReasonPerFiredRule | chart_analyzer.py:175-198 | the trend rule and each pattern append exactly one rationale when they score, and none otherwise |
| Signal.ReasonCount | chart_analyzer.py:170-204 | the number of rationales equals the number of rules that fired |
| Signal.PatternReasonCount | chart_analyzer.py:191-198 | the number of pattern rationales equals the number of scoring labels |
| Signal.PatternsScoreCoversEach | chart_analyzer.py:191-198 | the pattern score is at least what any single label scores |
| Signal.Score | chart_analyzer.py:170-204 | the final `signal_score` lies between -40 and 50 + 15 per pattern label |
| Signal.Reasons | chart_analyzer.py:170-204 | the rationale list holds at most one entry for the trend, one per pattern and one for the levels |
| Signal.Recommendation | chart_analyzer.py:223 | the recommendation always starts with the fixed prefix, and is exactly the prefix iff there is no rationale |
| Signal.RecommendationText | chart_analyzer.py:223 | the recommendation is the bare prefix iff there is no rationale, and it contains every rationale text |
| Insights.GenerateTechnicalInsights | chart_analyzer.py:237-257 | the trend sentence is one of the three fixed sentences; the no-pattern sentence appears iff there are no patterns, and the limited-levels sentence iff there are no levels |
| Insights.TrendInsightMatchesScore | chart_analyzer.py:238-243 | the bullish sentence appears iff the trend added to the score, the bearish one iff it subtracted, and the waiting one iff it added nothing |
| Insights.PatternInsightListsAll | chart_analyzer.py:247-248 | a non-empty pattern list is quoted in full: every label appears in the sentence |
| Insights.ReadCountBack | chart_analyzer.py:255 | a count written after "Watch " reads back as that count |
| Insights.RiskInsightStatesCount | chart_analyzer.py:253-257 | the risk sentence states `len(levels)` when there are levels, and states no count otherwise |
| Analysis.AnalysisResult.constructor | chart_analyzer.py:42-50 | the mapping starts as HOLD, confidence 0, NEUTRAL, no levels, no patterns, empty insights, empty recommendation and no score |
| Analysis.Analyze | chart_analyzer.py:38-83 | the returned mapping has a score iff the run did not fail, and every failed run carries the failure message |
| Analysis.Completed | chart_analyzer.py:72-77 | the signal and insight stages always add a score, and keep the trend, patterns and levels already written |
| Analysis.PerformChartAnalysis | chart_analyzer.py:38-83 | the mapping returned is exactly `Analyze(input, raises)` |
| Analysis.RecordSignalAndInsights | chart_analyzer.py:72-77 | the signal stage and the insights stage complete the mapping as `Completed` does |
| Analysis.EarlyFailureKeepsDefaults | chart_analyzer.py:42-81 | a conversion or trend-fit failure, or an empty image, leaves the defaults and sets only the failure recommendation |
| Analysis.FailureOutcome | chart_analyzer.py:52-81 | a score is present iff the run did not fail; a failed run is HOLD with the failure message, no levels and no insights; a trend written before a later failure stays, and so do the patterns when the scipy import fails |
| Analysis.SuccessOutcome | chart_analyzer.py:60-77 | a run that does not fail reports the label and confidence of `Classify(score)`, with confidence in [40, 90], at most 5 patterns and 5 levels, insights, and a recommendation that starts with the prefix and is not the failure message |
| Analysis.BlankChart | chart_analyzer.py:38-83 | when no foreign stage raises, a non-empty chart with few bright pixels, no horizontal lines, no shaped contours and identical rows yields score 0, HOLD at 40, NEUTRAL, no levels or patterns, the bare prefix and the three fallback sentences |
| Analysis.NeutralIsQuiet | chart_analyzer.py:174-243 | NEUTRAL scores nothing, adds no rationale and gets the waiting sentence |
| Analysis.QuietCompletion | chart_analyzer.py:168-259 | with a trend that scores nothing, no patterns and no levels, the last two stages give score 0, HOLD at 40, the bare prefix and the fallback sentences |
| Analysis.SteepRiseWithLevels | chart_analyzer.py:38-83 | when no foreign stage raises, a non-empty chart with more than 10 bright pixels, a slope below -2 and more than 100 horizontal-line pixels gives a STRONG BUY at confidence 90 with score at least 55 |
| Analysis.EveryStageRuns | chart_analyzer.py:52-77 | without a foreign failure, a non-empty chart runs every stage: the trend label, patterns and levels are the three stages' outputs, the score is the sum of the rules on them, label and confidence are `Classify(score)`'s, the recommendation names the rationale, and the insights are the three sentences on those outputs |
| Analysis.RisingScore | chart_analyzer.py:170-204 | a trend worth 40 plus a leading label worth 15 gives a score of at least 55 |
| Analysis.StrongScoreVerdict | chart_analyzer.py:207-209 | completing a run with score at least 30 gives STRONG BUY at 90 |

## Left out

- Image decoding, `np.array`, `st.image` and the `st.error` message (chart_analyzer.py:20-36, 80) are I/O and user interface. `analyze_uploaded_chart` is not modelled beyond its call to `perform_chart_analysis`.
- The OpenCV calls and numpy numerics are foreign library code. These are `cvtColor`, `Canny`, the 40x1 morphological opening, `findContours`, `arcLength`, `approxPolyDP`, `np.percentile` and `np.polyfit`. Their results are `FrontEnd` inputs, and whether they raise is the `raises` input. The `len(y_coords) > 1` test always holds after the `> 10` test, so it adds no branch.
- The peak finder is not scipy's `find_peaks`. `find_support_resistance_levels` imports scipy's version locally, and that version treats plateaus differently. It is a foreign call, so the model uses the module's own fallback finder in its place. In the actual program the fallback is only defined when scipy is absent, and then the local import raises; that run is the `PeakFinding` failure. A completed run with the fallback's peaks is therefore a stand-in for scipy's result, not a run the program makes.
- The level label `Level at {x:.1f}% of chart height` is modelled as the exact percentage `row / height * 100` (`Level.PercentOfHeight`). The one-decimal float formatting is left out.
- Floating point is left out. The peak height `np.max(...) * 0.3` and the slope are exact reals, so float rounding at the bucket and height boundaries is not captured. Row sums are unbounded naturals, which matches numpy's 64-bit sums for any real image size.
- The fallback `find_peaks` also returns an empty properties dictionary, which the caller discards. The model returns only the index list.
- The `self.patterns` dictionary set in the constructor (chart_analyzer.py:13-18) is never read and is not modelled.
- Everything in app.py is not part of this model: page routing, market data fetches, charts, and the RSI/SMA computations.
