/** The rules of the chart widget that are plain computations on values: the
    default selection, the maxima behind the two vertical scales, the target
    scale, the classification of a touch, and the stride of the date labels. */
module ChartRules {
  import opened Common
  import opened Geometry
  import Animation

  // ---------------------------------------------------------------------
  // Default selection

  /** A selected window of data indices, from `start` to `end` inclusive. */
  datatype Window = Window(start: int, end: int)

  /** Number of intervals a freshly loaded chart shows. */
  const DefaultIntervals: int := 30

  /** The selection setChartData installs, as written: it starts 31 points before
      the end, whatever the number of points. */
  function DefaultSelectionAsWritten(valuesCount: int): Window {
    Window(valuesCount - 31, valuesCount - 1)
  }

  /** With fewer than 31 points the written default starts at a negative index,
      which onSelectionChanged then uses to index every displayed series. */
  lemma DefaultSelectionAsWrittenUnderflows(valuesCount: int)
    requires 2 <= valuesCount < 31
    ensures DefaultSelectionAsWritten(valuesCount).start < 0
    ensures DefaultSelectionAsWritten(20) == Window(-11, 19)
  {
  }

  /** The selection a chart starts with: the last 30 intervals, or the whole chart
      when it has fewer. */
  function DefaultSelection(valuesCount: int): (w: Window)
    requires valuesCount >= 2
    ensures 0 <= w.start < w.end == valuesCount - 1
    ensures w.end - w.start == Min(DefaultIntervals, valuesCount - 1)
    ensures valuesCount >= DefaultIntervals + 1 ==> w == DefaultSelectionAsWritten(valuesCount)
  {
    Window(Max(0, valuesCount - 1 - DefaultIntervals), valuesCount - 1)
  }

  // ---------------------------------------------------------------------
  // Maxima

  /** barMax: the largest per-series maximum over the series that are not fully
      transparent, scanned in series order from Integer.MIN_VALUE. */
  function VisibleMax(maximums: seq<int>, alphas: seq<int>): int
    requires |maximums| == |alphas|
  {
    if maximums == [] then IntMin
    else
      var n := |maximums| - 1;
      var m := VisibleMax(maximums[..n], alphas[..n]);
      if alphas[n] > Animation.Invisible && maximums[n] > m then maximums[n] else m
  }

  /** VisibleMax is the maximum over the visible series, and Integer.MIN_VALUE
      when no series is visible. */
  lemma {:induction false} VisibleMaxIsMax(maximums: seq<int>, alphas: seq<int>)
    requires |maximums| == |alphas|
    ensures forall i :: 0 <= i < |maximums| && alphas[i] > Animation.Invisible ==>
              VisibleMax(maximums, alphas) >= maximums[i]
    ensures VisibleMax(maximums, alphas) == IntMin ||
            exists i :: 0 <= i < |maximums| && alphas[i] > Animation.Invisible &&
                        VisibleMax(maximums, alphas) == maximums[i]
    ensures (forall i :: 0 <= i < |alphas| ==> alphas[i] <= Animation.Invisible) ==>
              VisibleMax(maximums, alphas) == IntMin
  {
    if maximums != [] {
      var n := |maximums| - 1;
      VisibleMaxIsMax(maximums[..n], alphas[..n]);
      assert forall i :: 0 <= i < n ==> maximums[..n][i] == maximums[i] && alphas[..n][i] == alphas[i];
    }
  }

  /** Every row is long enough to be read up to (not including) `hi`. */
  predicate RowsCover(graphs: seq<seq<int>>, hi: int) {
    forall i :: 0 <= i < |graphs| ==> hi <= |graphs[i]|
  }

  /** chartMax: the largest value of the displayed series over the indices
      lo <= j < hi, scanned series by series from Integer.MIN_VALUE. */
  function WindowMax(graphs: seq<seq<int>>, displayed: seq<bool>, lo: int, hi: int): int
    requires |graphs| == |displayed| && 0 <= lo <= hi && RowsCover(graphs, hi)
  {
    if graphs == [] then IntMin
    else
      var n := |graphs| - 1;
      var m := WindowMax(graphs[..n], displayed[..n], lo, hi);
      if displayed[n] then RunningMax(m, graphs[n][lo..hi]) else m
  }

  /** WindowMax is the maximum over the window of the displayed series, and
      Integer.MIN_VALUE when nothing is displayed or the window is empty. */
  lemma {:induction false} WindowMaxIsMax(graphs: seq<seq<int>>, displayed: seq<bool>, lo: int, hi: int)
    requires |graphs| == |displayed| && 0 <= lo <= hi && RowsCover(graphs, hi)
    ensures forall i, j :: 0 <= i < |graphs| && displayed[i] && lo <= j < hi ==>
              WindowMax(graphs, displayed, lo, hi) >= graphs[i][j]
    ensures WindowMax(graphs, displayed, lo, hi) == IntMin ||
            exists i, j :: 0 <= i < |graphs| && displayed[i] && lo <= j < hi &&
                           WindowMax(graphs, displayed, lo, hi) == graphs[i][j]
  {
    if graphs != [] {
      var n := |graphs| - 1;
      var init, shown := graphs[..n], displayed[..n];
      WindowMaxIsMax(init, shown, lo, hi);
      assert forall i :: 0 <= i < n ==> init[i] == graphs[i] && shown[i] == displayed[i];
      var m := WindowMax(init, shown, lo, hi);
      if displayed[n] {
        var s := graphs[n][lo..hi];
        RunningMaxIsMax(m, s);
        assert forall j :: lo <= j < hi ==> graphs[n][j] == s[j - lo];
        var r := RunningMax(m, s);
        if r != m {
          var k :| 0 <= k < |s| && r == s[k];
          assert r == graphs[n][lo + k];
        }
      }
    }
  }

  /** newScaleY: the scale that maps the window maximum to the full chart height;
      the current scale is kept when the maximum is zero. */
  function TargetScale(height: real, max: int, current: real): (s: real)
    ensures max != 0 ==> s * max as real == height
    ensures max == 0 ==> s == current
  {
    if max != 0 then height / max as real else current
  }

  /** scaleStep: one fifth of the scale that fits barMax to the chart height, or 1
      when barMax is not positive. */
  function ScaleStepFor(height: real, barMax: int): (step: real)
    ensures height > 0.0 ==> step > 0.0
    ensures barMax > 0 ==> 5.0 * step == TargetScale(height, barMax, 0.0)
    ensures barMax <= 0 ==> step == 1.0
  {
    if barMax > 0 then 0.2 * height / barMax as real else 1.0
  }

  // ---------------------------------------------------------------------
  // Touch classification

  /** Where a touch on the bar lands relative to the selection frame. */
  datatype BarZone = SelectionBody | LeftEdge | RightEdge | Outside

  /** The order of tests in the DOWN handler: inside the frame beyond the edge
      bands, then the left edge band, then the right edge band. */
  function ZoneOf(x: real, startX: real, endX: real, sensitivity: real): BarZone {
    if x > startX + sensitivity && x < endX - sensitivity then SelectionBody
    else if x >= startX - sensitivity && x <= startX + sensitivity then LeftEdge
    else if x >= endX - sensitivity && x <= endX + sensitivity then RightEdge
    else Outside
  }

  /** On a frame wider than both edge bands, each edge grabs its own band, the
      centre moves the frame, and exactly the points beyond the bands are outside. */
  lemma ZonesOfWideSelection(x: real, startX: real, endX: real, sensitivity: real)
    requires sensitivity >= 0.0 && endX - startX > 2.0 * sensitivity
    ensures ZoneOf(startX, startX, endX, sensitivity) == LeftEdge
    ensures ZoneOf(endX, startX, endX, sensitivity) == RightEdge
    ensures ZoneOf((startX + endX) / 2.0, startX, endX, sensitivity) == SelectionBody
    ensures ZoneOf(x, startX, endX, sensitivity) == Outside <==>
              x < startX - sensitivity || x > endX + sensitivity
  {
  }

  /** On a frame no wider than the two edge bands, the frame cannot be moved by
      its body, and its left edge wins where the bands overlap. */
  lemma ZonesOfNarrowSelection(x: real, startX: real, endX: real, sensitivity: real)
    requires startX <= endX && endX - startX <= 2.0 * sensitivity
    ensures ZoneOf(x, startX, endX, sensitivity) != SelectionBody
    ensures startX - sensitivity <= x <= startX + sensitivity ==>
              ZoneOf(x, startX, endX, sensitivity) == LeftEdge
  {
  }

  /** A touch at (x, y) hits the checkbox whose top-left corner is at (left, top). */
  predicate InCheckbox(top: real, left: real, size: real, sensitivity: real, x: real, y: real) {
    top - sensitivity <= y <= top + size + sensitivity &&
    left - sensitivity <= x <= left + size + sensitivity
  }

  /** Consecutive checkboxes are `spacing` apart vertically. */
  predicate EvenlySpaced(ys: seq<real>, spacing: real) {
    forall k :: 1 <= k < |ys| ==> ys[k] == ys[k - 1] + spacing
  }

  lemma {:induction false} SpacedAscending(ys: seq<real>, spacing: real, i: int, j: int)
    requires EvenlySpaced(ys, spacing) && spacing > 0.0 && 0 <= i < j < |ys|
    ensures ys[j] >= ys[i] + spacing
  {
    if j > i + 1 {
      SpacedAscending(ys, spacing, i, j - 1);
    }
  }

  /** When the spacing exceeds a checkbox with both sensitivity margins, the touch
      regions of different checkboxes are disjoint: a later one starts below the
      end of an earlier one. */
  lemma CheckboxRegionsDisjoint(ys: seq<real>, spacing: real, size: real, sensitivity: real, i: int, j: int)
    requires EvenlySpaced(ys, spacing) && spacing > size + 2.0 * sensitivity && size >= 0.0
    requires sensitivity >= 0.0 && 0 <= i < j < |ys|
    ensures ys[i] + size + sensitivity < ys[j] - sensitivity
  {
    SpacedAscending(ys, spacing, i, j);
  }

  // ---------------------------------------------------------------------
  // Date labels

  function Pow2(n: nat): (r: nat)
    ensures r >= 1
  {
    if n == 0 then 1 else 2 * Pow2(n - 1)
  }

  lemma {:induction false} Pow2Monotone(a: nat, b: nat)
    requires a <= b
    ensures Pow2(a) <= Pow2(b)
  {
    if a < b {
      Pow2Monotone(a, b - 1);
    }
  }

  /** The label stride, 2 to the power max(1, stepPower), as the cast of Math.pow
      to int computes it: saturated at Integer.MAX_VALUE. */
  function DateStep(stepPower: int): (step: int)
    ensures 2 <= step <= IntMax
  {
    var p := Max(1, stepPower);
    Pow2Monotone(1, p);
    Min(Pow2(p), IntMax)
  }

  /** First label index: the multiple of step below selectionStart, one step further left. */
  function DateStart(selectionStart: int, step: int): int
    requires step > 0
  {
    Max(0, (selectionStart / step) * step - step)
  }

  /** Bound of the label indices: one step past the multiple of step below selectionEnd
      (an int sum, which wraps), and never past the last multiple of step below valuesCount. */
  function DateEnd(selectionEnd: int, valuesCount: int, step: int): int
    requires step > 0
  {
    Min(Int32Of((selectionEnd / step) * step + step), (valuesCount / step) * step)
  }

  /** The period of full-alpha labels: twice the step, as an int product. */
  function FullAlphaPeriod(step: int): (p: int)
    requires 2 <= step <= IntMax
    ensures p != 0
    ensures step <= IntMax / 2 ==> p == 2 * step
  {
    Int32Of(2 * step)
  }

  /** One date label: the data index it shows and whether it is drawn opaque. */
  datatype DateLabel = DateLabel(index: int, fullAlpha: bool)

  /** The labels of the loop `for (i = from; i < end; i += step)`. */
  function LabelsFrom(from: int, end: int, step: int, period: int): seq<DateLabel>
    requires step > 0 && period != 0
    decreases end - from
  {
    if from < end then [DateLabel(from, from % period == 0)] + LabelsFrom(from + step, end, step, period)
    else []
  }

  /** The labels drawDates draws for a selection and a stride power. */
  function DateLabels(selectionStart: int, selectionEnd: int, valuesCount: int, stepPower: int): seq<DateLabel> {
    var step := DateStep(stepPower);
    LabelsFrom(DateStart(selectionStart, step), DateEnd(selectionEnd, valuesCount, step), step,
               FullAlphaPeriod(step))
  }

  /** The loop visits only multiples of step in [from, end), and draws opaque
      exactly the labels on a multiple of the period. */
  lemma {:induction false} LabelsFromIndices(from: int, end: int, step: int, period: int)
    requires step > 0 && period != 0 && from % step == 0
    ensures forall k :: 0 <= k < |LabelsFrom(from, end, step, period)| ==>
              from <= LabelsFrom(from, end, step, period)[k].index < end &&
              LabelsFrom(from, end, step, period)[k].index % step == 0 &&
              LabelsFrom(from, end, step, period)[k].fullAlpha ==
                (LabelsFrom(from, end, step, period)[k].index % period == 0)
    decreases end - from
  {
    if from < end {
      ModShift(from, step);
      LabelsFromIndices(from + step, end, step, period);
      var r := LabelsFrom(from, end, step, period);
      var rest := LabelsFrom(from + step, end, step, period);
      assert r == [DateLabel(from, from % period == 0)] + rest;
    }
  }

  /** Consecutive labels of the loop are one step apart. */
  lemma {:induction false} LabelsFromStride(from: int, end: int, step: int, period: int)
    requires step > 0 && period != 0
    ensures forall k :: 0 <= k < |LabelsFrom(from, end, step, period)| - 1 ==>
              LabelsFrom(from, end, step, period)[k + 1].index ==
              LabelsFrom(from, end, step, period)[k].index + step
    decreases end - from
  {
    if from < end {
      LabelsFromStride(from + step, end, step, period);
      var r := LabelsFrom(from, end, step, period);
      var rest := LabelsFrom(from + step, end, step, period);
      assert r == [DateLabel(from, from % period == 0)] + rest;
      if |rest| > 0 {
        assert rest[0].index == from + step;
      }
    }
  }

  /** The loop visits every multiple of step in [from, end). */
  lemma {:induction false} LabelsFromCovers(from: int, end: int, step: int, period: int, m: int)
    requires step > 0 && period != 0 && from % step == 0
    requires from <= m < end && m % step == 0
    ensures exists k :: 0 <= k < |LabelsFrom(from, end, step, period)| &&
                        LabelsFrom(from, end, step, period)[k].index == m
    decreases end - from
  {
    var r := LabelsFrom(from, end, step, period);
    var rest := LabelsFrom(from + step, end, step, period);
    assert r == [DateLabel(from, from % period == 0)] + rest;
    if m == from {
      assert r[0].index == m;
    } else {
      NextMultiple(from, m, step);
      ModShift(from, step);
      LabelsFromCovers(from + step, end, step, period, m);
      var k :| 0 <= k < |rest| && rest[k].index == m;
      assert r[k + 1].index == m;
    }
  }

  lemma DateStartFacts(selectionStart: int, step: int)
    requires selectionStart >= 0 && step > 0
    ensures 0 <= DateStart(selectionStart, step) <= selectionStart
    ensures DateStart(selectionStart, step) % step == 0
  {
    var q := selectionStart / step;
    assert selectionStart == q * step + selectionStart % step;
    if q * step - step > 0 {
      assert q * step - step == (q - 1) * step;
      MultipleMod(q - 1, step);
    }
  }

  /** Every label drawDates draws is at a non-negative multiple of the stride below
      valuesCount, so dates[i] is in bounds; consecutive labels are one stride apart. */
  lemma DateLabelsInBounds(selectionStart: int, selectionEnd: int, valuesCount: int, stepPower: int)
    requires selectionStart >= 0 && valuesCount >= 0
    ensures forall k :: 0 <= k < |DateLabels(selectionStart, selectionEnd, valuesCount, stepPower)| ==>
              0 <= DateLabels(selectionStart, selectionEnd, valuesCount, stepPower)[k].index < valuesCount &&
              DateLabels(selectionStart, selectionEnd, valuesCount, stepPower)[k].index % DateStep(stepPower) == 0
    ensures forall k :: 0 <= k < |DateLabels(selectionStart, selectionEnd, valuesCount, stepPower)| - 1 ==>
              DateLabels(selectionStart, selectionEnd, valuesCount, stepPower)[k + 1].index ==
              DateLabels(selectionStart, selectionEnd, valuesCount, stepPower)[k].index + DateStep(stepPower)
  {
    var step := DateStep(stepPower);
    DateStartFacts(selectionStart, step);
    assert valuesCount == (valuesCount / step) * step + valuesCount % step;
    var from, end, period := DateStart(selectionStart, step), DateEnd(selectionEnd, valuesCount, step),
                             FullAlphaPeriod(step);
    LabelsFromIndices(from, end, step, period);
    LabelsFromStride(from, end, step, period);
  }

  /** Every multiple of the stride inside the selection gets a label, unless it lies
      past the last multiple of the stride below valuesCount, or the end bound wraps. */
  lemma DateLabelsCoverSelection(selectionStart: int, selectionEnd: int, valuesCount: int, stepPower: int)
    requires 0 <= selectionStart <= selectionEnd && valuesCount >= 0
    requires (selectionEnd / DateStep(stepPower)) * DateStep(stepPower) + DateStep(stepPower) <= IntMax
    ensures forall m :: selectionStart <= m <= selectionEnd && m % DateStep(stepPower) == 0 &&
                        m < (valuesCount / DateStep(stepPower)) * DateStep(stepPower) ==>
              exists k :: 0 <= k < |DateLabels(selectionStart, selectionEnd, valuesCount, stepPower)| &&
                          DateLabels(selectionStart, selectionEnd, valuesCount, stepPower)[k].index == m
  {
    var step := DateStep(stepPower);
    DateStartFacts(selectionStart, step);
    assert selectionEnd == (selectionEnd / step) * step + selectionEnd % step;
    var from, end, period := DateStart(selectionStart, step), DateEnd(selectionEnd, valuesCount, step),
                             FullAlphaPeriod(step);
    assert Int32Of((selectionEnd / step) * step + step) == (selectionEnd / step) * step + step;
    assert DateLabels(selectionStart, selectionEnd, valuesCount, stepPower) == LabelsFrom(from, end, step, period);
    forall m | selectionStart <= m <= selectionEnd && m % step == 0 && m < (valuesCount / step) * step
      ensures exists k :: 0 <= k < |LabelsFrom(from, end, step, period)| &&
                          LabelsFrom(from, end, step, period)[k].index == m
    {
      LabelsFromCovers(from, end, step, period, m);
    }
  }

  lemma {:induction false} MulAtLeast(x: int, s: int)
    requires x >= 1 && s > 0
    ensures x * s >= s
  {
    if x > 1 {
      MulAtLeast(x - 1, s);
      assert x * s == (x - 1) * s + s;
    }
  }

  lemma MulPositive(x: int, s: int)
    requires s > 0 && x * s > 0
    ensures x >= 1
  {
    if x <= 0 {
      assert x * s == -((-x) * s);
      if x < 0 {
        MulAtLeast(-x, s);
      }
    }
  }

  /** Euclidean division is determined by its quotient and remainder. */
  lemma DivModUnique(a: int, s: int, q: int, r: int)
    requires s > 0 && 0 <= r < s && a == q * s + r
    ensures a / s == q && a % s == r
  {
    var q', r' := a / s, a % s;
    assert a == q' * s + r';
    assert (q - q') * s == r' - r;
    if q - q' >= 1 {
      MulAtLeast(q - q', s);
    } else if q' - q >= 1 {
      MulAtLeast(q' - q, s);
    }
  }

  lemma ModShift(a: int, s: int)
    requires s > 0
    ensures (a + s) % s == a % s
  {
    assert a == (a / s) * s + a % s;
    assert a + s == (a / s + 1) * s + a % s;
    DivModUnique(a + s, s, a / s + 1, a % s);
  }

  lemma MultipleMod(q: int, s: int)
    requires s > 0
    ensures (q * s) % s == 0
  {
    DivModUnique(q * s, s, q, 0);
  }

  lemma NextMultiple(i: int, m: int, s: int)
    requires s > 0 && i % s == 0 && m % s == 0 && i < m
    ensures m >= i + s
  {
    assert i == (i / s) * s && m == (m / s) * s;
    assert (m / s - i / s) * s == m - i;
    MulPositive(m / s - i / s, s);
    MulAtLeast(m / s - i / s, s);
  }
}
