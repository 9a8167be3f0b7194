/** The output side of `detect_chart_patterns`. The OpenCV work (the
    horizontal opening, contour extraction and polygon approximation) is
    foreign; its results are inputs: the number of pixels that survive the
    40x1 opening, and for each external contour its point count and the
    vertex count of its polygon approximation, in OpenCV's order. */
module Patterns {
  import opened Basics

  // The labels are spelled in pieces around the keyword the signal scorer
  // looks for in them.
  const SupportResistanceLabel := "Strong " + "Support" + "/Resistance Levels"
  const TriangleLabel := "Triangle" + " Pattern"
  const RectangleLabel := "Rectangle/Channel Pattern"

  /** The only labels the detector emits. */
  predicate InVocabulary(name: string)
  {
    name == SupportResistanceLabel || name == TriangleLabel || name == RectangleLabel
  }

  /** A contour as the detector sees it: `len(contour)` and
      `len(approxPolyDP(contour, 0.02 * arcLength(contour), True))`. */
  datatype Contour = Contour(points: nat, approxVertices: nat)

  /** The label one contour contributes: a triangle for three vertices, a
      rectangle/channel for four, nothing otherwise or for contours of at
      most 10 points. */
  function ContourLabel(c: Contour): seq<string>
  {
    if c.points > 10 && c.approxVertices == 3 then [TriangleLabel]
    else if c.points > 10 && c.approxVertices == 4 then [RectangleLabel]
    else []
  }

  /** The labels of a run of contours, in contour order. */
  function ContourLabels(contours: seq<Contour>): seq<string>
  {
    if contours == [] then []
    else ContourLabels(contours[..|contours| - 1]) + ContourLabel(contours[|contours| - 1])
  }

  /** Contours only ever yield triangle and rectangle labels, at most one
      each. */
  lemma {:induction false} ContourLabelsAreShapes(contours: seq<Contour>)
    ensures |ContourLabels(contours)| <= |contours|
    ensures forall k :: 0 <= k < |ContourLabels(contours)| ==>
      ContourLabels(contours)[k] == TriangleLabel || ContourLabels(contours)[k] == RectangleLabel
  {
    if contours != [] {
      ContourLabelsAreShapes(contours[..|contours| - 1]);
    }
  }

  /** Everything the detector appends, before the list is cut to five: the
      horizontal-lines label first when more than 100 pixels survive the
      opening, then one label per qualifying contour. */
  function EmittedLabels(horizontalStrength: nat, contours: seq<Contour>): seq<string>
  {
    (if horizontalStrength > 100 then [SupportResistanceLabel] else []) + ContourLabels(contours)
  }

  /** The list the detector returns: the first five emitted labels, in
      emission order, and all of them when there are no more than five. */
  function DetectedPatterns(horizontalStrength: nat, contours: seq<Contour>): (r: seq<string>)
    ensures |r| <= 5
    ensures r <= EmittedLabels(horizontalStrength, contours)
    ensures |EmittedLabels(horizontalStrength, contours)| <= 5 ==> r == EmittedLabels(horizontalStrength, contours)
  {
    var emitted := EmittedLabels(horizontalStrength, contours);
    emitted[..Min(5, |emitted|)]
  }

  /** The returned list holds at most five labels from the vocabulary, with
      the horizontal-lines label first exactly when the opening left more
      than 100 pixels, and nowhere else. */
  lemma DetectedPatternsShape(horizontalStrength: nat, contours: seq<Contour>)
    ensures
      var r := DetectedPatterns(horizontalStrength, contours);
      |r| <= 5 &&
      (forall k :: 0 <= k < |r| ==> InVocabulary(r[k])) &&
      (horizontalStrength > 100 <==> (|r| > 0 && r[0] == SupportResistanceLabel)) &&
      forall k :: 1 <= k < |r| ==> r[k] != SupportResistanceLabel
  {
    ContourLabelsAreShapes(contours);
  }

  /** `detect_chart_patterns`: appends labels while scanning the contours and
      returns the first five, in emission order. */
  method DetectChartPatterns(horizontalStrength: nat, contours: seq<Contour>) returns (patterns: seq<string>)
    ensures patterns == DetectedPatterns(horizontalStrength, contours)
  {
    var emitted: seq<string> := [];
    if horizontalStrength > 100 {
      emitted := emitted + [SupportResistanceLabel];
    }
    var i := 0;
    assert contours[..i] == [];
    while i < |contours|
      invariant 0 <= i <= |contours|
      invariant emitted == EmittedLabels(horizontalStrength, contours[..i])
    {
      var contour := contours[i];
      if contour.points > 10 {
        if contour.approxVertices == 3 {
          emitted := emitted + [TriangleLabel];
        } else if contour.approxVertices == 4 {
          emitted := emitted + [RectangleLabel];
        }
      }
      EmittedStep(horizontalStrength, contours, i);
      i := i + 1;
    }
    assert contours[..i] == contours;
    patterns := emitted[..Min(5, |emitted|)];
  }

  /** Scanning one more contour appends its label to what was emitted. */
  lemma EmittedStep(horizontalStrength: nat, contours: seq<Contour>, i: nat)
    requires i < |contours|
    ensures EmittedLabels(horizontalStrength, contours[..i + 1]) ==
            EmittedLabels(horizontalStrength, contours[..i]) + ContourLabel(contours[i])
  {
    assert contours[..i + 1][..i] == contours[..i];
    var head := if horizontalStrength > 100 then [SupportResistanceLabel] else [];
    assert head + (ContourLabels(contours[..i]) + ContourLabel(contours[i])) ==
           head + ContourLabels(contours[..i]) + ContourLabel(contours[i]);
  }

  /** Contours none of which approximates a triangle or a four-sided shape
      add no labels. */
  lemma {:induction false} ShapelessContours(contours: seq<Contour>)
    requires forall k :: 0 <= k < |contours| ==> ContourLabel(contours[k]) == []
    ensures ContourLabels(contours) == []
  {
    if contours != [] {
      ShapelessContours(contours[..|contours| - 1]);
    }
  }
}
