/** Support/resistance detection: the horizontal projection of the
    grayscale image (one intensity sum per row), the linear-scan peak finder
    used when scipy is unavailable, and the level list built from the first
    five peaks. */
module Levels {
  import opened Basics

  /** One 8-bit grayscale pixel. */
  type Intensity = x: int | 0 <= x <= 255

  /** A grayscale image as its rows, top row first; as in a numpy array,
      every row has the same width. */
  type Gray = g: seq<seq<Intensity>> | forall i :: 0 <= i < |g| ==> |g[i]| == |g[0]|
    witness []

  /** Sum of the intensities along one row. */
  function RowSum(row: seq<Intensity>): (r: nat)
    ensures r <= 255 * |row|
  {
    if row == [] then 0 else RowSum(row[..|row| - 1]) + row[|row| - 1]
  }

  /** `np.sum(gray_image, axis=1)`: the horizontal projection. */
  function Projection(gray: Gray): (r: seq<nat>)
    ensures |r| == |gray|
    ensures forall y :: 0 <= y < |gray| ==> r[y] <= 255 * |gray[y]|
  {
    seq(|gray|, y requires 0 <= y < |gray| => RowSum(gray[y]))
  }

  /** `np.max` of a non-empty sequence. */
  function MaxOf(s: seq<nat>): (m: nat)
    requires |s| > 0
    ensures m in s
    ensures forall k :: 0 <= k < |s| ==> s[k] <= m
  {
    if |s| == 1 then s[0]
    else
      var rest := MaxOf(s[1..]);
      assert forall k :: 1 <= k < |s| ==> s[k] == s[1..][k - 1];
      if s[0] >= rest then s[0] else rest
  }

  /** Index `i` is reported by the fallback `find_peaks`: an interior index
      strictly above both neighbours and, when a height is given, at least
      that height. */
  predicate IsPeak(data: seq<int>, i: int, height: Option<real>)
  {
    1 <= i <= |data| - 2 &&
    data[i] > data[i - 1] && data[i] > data[i + 1] &&
    (height.None? || data[i] as real >= height.value)
  }

  /** Peaks are strict local maxima, so no two neighbouring indices are
      both peaks. */
  lemma PeaksAreSeparated(data: seq<int>, height: Option<real>, i: int)
    requires IsPeak(data, i, height)
    ensures !IsPeak(data, i - 1, height) && !IsPeak(data, i + 1, height)
  {
  }

  /** The peaks of `data` whose index is below `n`, in ascending order. */
  function PeaksBelow(data: seq<int>, height: Option<real>, n: nat): seq<nat>
  {
    if n == 0 then []
    else PeaksBelow(data, height, n - 1) + (if IsPeak(data, n - 1, height) then [n - 1] else [])
  }

  /** The peaks below `n` are exactly the peak indices below `n`, each once
      and in ascending order. */
  lemma {:induction false} PeaksBelowExact(data: seq<int>, height: Option<real>, n: nat)
    ensures forall k :: 0 <= k < |PeaksBelow(data, height, n)| ==>
      PeaksBelow(data, height, n)[k] < n && IsPeak(data, PeaksBelow(data, height, n)[k], height)
    ensures forall k, l :: 0 <= k < l < |PeaksBelow(data, height, n)| ==>
      PeaksBelow(data, height, n)[k] < PeaksBelow(data, height, n)[l]
    ensures forall i :: 0 <= i < n && IsPeak(data, i, height) ==> i in PeaksBelow(data, height, n)
  {
    if n > 0 {
      PeaksBelowExact(data, height, n - 1);
    }
  }

  /** Every peak of `data`, each once, in ascending index order. */
  function PeakIndices(data: seq<int>, height: Option<real>): (r: seq<nat>)
    ensures forall k :: 0 <= k < |r| ==> IsPeak(data, r[k], height)
    ensures forall k, l :: 0 <= k < l < |r| ==> r[k] < r[l]
    ensures forall i :: IsPeak(data, i, height) ==> i in r
  {
    PeaksBelowExact(data, height, |data|);
    PeaksBelow(data, height, |data|)
  }

  /** The module-level fallback `find_peaks(data, height)`: one pass over the
      interior indices, appending each strict local maximum that clears the
      height. It returns exactly the peaks, each once, in increasing order. */
  method FindPeaks(data: seq<int>, height: Option<real>) returns (peaks: seq<nat>)
    ensures peaks == PeakIndices(data, height)
  {
    peaks := [];
    var i := 1;
    while i < |data| - 1
      invariant 1 <= i && (if |data| >= 2 then i <= |data| - 1 else i == 1)
      invariant peaks == PeaksBelow(data, height, i)
    {
      assert PeaksBelow(data, height, i + 1) ==
        PeaksBelow(data, height, i) + (if IsPeak(data, i, height) then [i] else []);
      if data[i] > data[i - 1] && data[i] > data[i + 1] {
        if height.None? || data[i] as real >= height.value {
          peaks := peaks + [i];
        }
      }
      i := i + 1;
    }
    ScanCoversAllPeaks(data, height);
  }

  /** The scan stops at the last interior index; the indices it skips (the
      first and the last) are never peaks. */
  lemma ScanCoversAllPeaks(data: seq<int>, height: Option<real>)
    ensures PeakIndices(data, height) ==
            PeaksBelow(data, height, if |data| >= 2 then |data| - 1 else 1)
  {
    assert !IsPeak(data, 0, height);
    if |data| >= 2 {
      assert !IsPeak(data, |data| - 1, height);
    } else if |data| == 1 {
      assert PeakIndices(data, height) == PeaksBelow(data, height, 1);
    }
  }

  /** One support/resistance level: the peak row, the image height it is
      measured against, and the projection sum at that row. The label
      `Level at {row/height*100:.1f}% of chart height` is kept as the exact
      percentage. */
  datatype Level = Level(row: nat, imageHeight: nat, strength: nat)
  {
    function PercentOfHeight(): real
      requires imageHeight > 0
    {
      (row as real) / (imageHeight as real) * 100.0
    }
  }

  /** The peak threshold: 30% of the largest row sum. */
  function PeakHeight(projection: seq<nat>): real
    requires |projection| > 0
  {
    (MaxOf(projection) as real) * 0.3
  }

  /** The levels `find_support_resistance_levels` returns: one per peak of
      the projection at or above 30% of its maximum, for the first five
      peaks, each with its row sum as strength. An image with no rows makes
      `np.max` raise; that is the `None` result. */
  function SupportResistanceLevels(gray: Gray): (r: Option<seq<Level>>)
    ensures r.None? <==> |gray| == 0
  {
    if |gray| == 0 then None
    else
      var projection := Projection(gray);
      var peaks := PeakIndices(projection, Some(PeakHeight(projection)));
      Some(seq(Min(5, |peaks|), k requires 0 <= k < Min(5, |peaks|) =>
        Level(peaks[k], |gray|, projection[peaks[k]])))
  }

  /** At most five levels, in ascending row order, each at a peak row of the
      image with that row's sum as strength, and strictly inside the chart
      (between 0% and 100% of its height). */
  lemma LevelsAreInteriorPeaks(gray: Gray)
    requires |gray| > 0
    ensures
      var levels := SupportResistanceLevels(gray).value;
      |levels| <= 5 &&
      (forall k, l :: 0 <= k < l < |levels| ==> levels[k].row < levels[l].row) &&
      forall k :: 0 <= k < |levels| ==>
        levels[k].imageHeight == |gray| &&
        IsPeak(Projection(gray), levels[k].row, Some(PeakHeight(Projection(gray)))) &&
        levels[k].strength == RowSum(gray[levels[k].row]) &&
        0.0 < levels[k].PercentOfHeight() < 100.0
  {
    var levels := SupportResistanceLevels(gray).value;
    forall k | 0 <= k < |levels|
      ensures 0.0 < levels[k].PercentOfHeight() < 100.0
    {
      PercentStrictlyInside(levels[k].row, |gray|);
    }
  }

  /** Conversely, every peak up to the fifth level's row (every peak, when
      there are fewer than five levels) is a level: the levels are the first
      peaks, none skipped. */
  lemma LevelsAreFirstPeaks(gray: Gray)
    requires |gray| > 0
    ensures
      var levels := SupportResistanceLevels(gray).value;
      forall i :: IsPeak(Projection(gray), i, Some(PeakHeight(Projection(gray)))) &&
                  (|levels| < 5 || i <= levels[4].row) ==>
        exists k :: 0 <= k < |levels| && levels[k].row == i
  {
    var levels := SupportResistanceLevels(gray).value;
    var projection := Projection(gray);
    var height := Some(PeakHeight(projection));
    var peaks := PeakIndices(projection, height);
    forall i | IsPeak(projection, i, height) && (|levels| < 5 || i <= levels[4].row)
      ensures exists k :: 0 <= k < |levels| && levels[k].row == i
    {
      var k := FirstFiveHead(peaks, i);
      assert levels[k].row == i;
    }
  }

  /** In a strictly increasing sequence, an element no larger than the fifth
      (or any element, when there are at most five) sits among the first
      five. */
  lemma FirstFiveHead(peaks: seq<nat>, i: nat) returns (k: nat)
    requires forall a, b :: 0 <= a < b < |peaks| ==> peaks[a] < peaks[b]
    requires i in peaks
    requires |peaks| <= 5 || i <= peaks[4]
    ensures k < Min(5, |peaks|) && peaks[k] == i
  {
    k :| k < |peaks| && peaks[k] == i;
    if k >= 5 {
      assert false;
    }
  }

  /** `find_support_resistance_levels`: runs the peak finder over the row
      sums and appends a level for each of the first five peaks. */
  method FindSupportResistanceLevels(gray: Gray) returns (levels: Option<seq<Level>>)
    ensures levels == SupportResistanceLevels(gray)
  {
    if |gray| == 0 {
      return None;
    }
    var projection := Projection(gray);
    var peaks := FindPeaks(projection, Some(MaxOf(projection) as real * 0.3));
    var result: seq<Level> := [];
    var k := 0;
    var count := Min(5, |peaks|);
    while k < count
      invariant 0 <= k <= count
      invariant |result| == k
      invariant forall j :: 0 <= j < k ==> result[j] == Level(peaks[j], |gray|, projection[peaks[j]])
    {
      var peak := peaks[k];
      result := result + [Level(peak, |gray|, projection[peak])];
      k := k + 1;
    }
    assert result == SupportResistanceLevels(gray).value;
    levels := Some(result);
  }

  /** A constant sequence has no strict local maximum, so no index below
      any bound is reported. */
  lemma {:induction false} FlatHasNoPeaks(data: seq<int>, height: Option<real>, n: nat)
    requires forall j :: 0 <= j < |data| ==> data[j] == data[0]
    ensures PeaksBelow(data, height, n) == []
  {
    if n > 0 {
      FlatHasNoPeaks(data, height, n - 1);
      if 1 <= n - 1 <= |data| - 2 {
        assert data[n - 1] == data[n - 2];
      }
    }
  }

  /** An image whose rows are all the same has a flat projection, hence no
      peak and no levels. */
  lemma UniformImageHasNoLevels(gray: Gray)
    requires |gray| > 0
    requires forall i :: 0 <= i < |gray| ==> gray[i] == gray[0]
    ensures SupportResistanceLevels(gray) == Some([])
  {
    var projection := Projection(gray);
    FlatHasNoPeaks(projection, Some(PeakHeight(projection)), |projection|);
    assert |SupportResistanceLevels(gray).value| == 0;
  }

  /** An interior row lies strictly between 0% and 100% of the height. */
  lemma PercentStrictlyInside(row: nat, height: nat)
    requires 1 <= row < height
    ensures 0.0 < (row as real) / (height as real) * 100.0 < 100.0
  {
    assert (row as real) / (height as real) < 1.0;
  }
}
