/** The chart widget: a main chart showing the selected window of the data, a
    compact bar below it showing the whole data with a movable and resizable
    selection frame, and one checkbox per series. This module holds the widget's
    state and every operation that changes it; the drawing itself is not modelled. */
module ChartWidget {
  import opened Common
  import opened ChartDataDecoder
  import opened Geometry
  import opened Animation
  import opened ChartRules

  /** A display density: pixels per density-independent pixel. */
  type Density = d: real | d > 0.0 witness 1.0

  /** The MotionEvent actions the widget distinguishes. */
  datatype Action = ActionDown | ActionMove | ActionUp | ActionCancel | ActionOther

  /** What onTouchEvent answers: the event is handled here, or it is given to the
      base View (whose answer is not modelled). */
  datatype TouchResult = Consumed | PassedToSuper

  /** The series flags after flipping the one at index i. */
  function Toggled(s: seq<bool>, i: int): (r: seq<bool>)
    requires 0 <= i < |s|
    ensures |r| == |s| && r[i] == !s[i]
    ensures forall k :: 0 <= k < |s| && k != i ==> r[k] == s[k]
  {
    s[i := !s[i]]
  }

  /** Flipping the same checkbox twice restores the series flags. */
  lemma ToggledTwice(s: seq<bool>, i: int)
    requires 0 <= i < |s|
    ensures Toggled(Toggled(s, i), i) == s
  {
  }

  /** The loop of onSelectionChanged over one series: the running maximum of
      row[lo..hi], starting from m. */
  method ScanRow(row: seq<int>, lo: int, hi: int, m: int) returns (r: int)
    requires 0 <= lo <= hi <= |row|
    ensures r == RunningMax(m, row[lo..hi])
    ensures r >= m && forall j :: lo <= j < hi ==> r >= row[j]
  {
    r := m;
    for j := lo to hi
      invariant r == RunningMax(m, row[lo..j])
    {
      assert row[lo..j + 1][..j - lo] == row[lo..j];
      if row[j] > r {
        r := row[j];
      }
    }
    RunningMaxIsMax(m, row[lo..hi]);
    assert forall j :: lo <= j < hi ==> row[j] == row[lo..hi][j - lo];
  }

  /** The checkbox rows of onSizeChanged: the first at `first`, each next one
      `spacing` further down. */
  method CheckboxRows(first: real, spacing: real, n: int) returns (ys: seq<real>)
    requires n >= 1
    ensures |ys| == n && ys[0] == first
    ensures EvenlySpaced(ys, spacing)
  {
    ys := [first];
    for i := 1 to n
      invariant |ys| == i && ys[0] == first
      invariant EvenlySpaced(ys, spacing)
    {
      ys := ys + [ys[i - 1] + spacing];
    }
  }

  class ChartView {
    /** Display density, and the dimensions init derives from it once. */
    const density: Density
    const paddingX: real := density * 16.0
    const chartHeight: real := density * 275.33
    const barHeight: real := density * 38.0
    const selectionBorderHeight: real := density * 1.0
    const selectionBorderWidth: real := density * 4.0
    const selectionBorderSensitivity: real := density * 20.0
    const checkBoxSize: real := density * 18.0
    const checkboxSensitivity: real := density * 12.0
    const barGraphHeight: real := barHeight - 4.0 * selectionBorderHeight

    var chart: ChartData
    var displayedGraphs: array<bool>
    var graphsAlpha: array<int>

    var selectionStart: int
    var selectionEnd: int
    var barMax: int
    var chartMax: int
    var oldChartMax: int
    var currentScaleY: real
    var newScaleY: real
    var scaleStep: real

    var chartBounds: Rect
    var barBounds: Rect
    var barXstep: real
    var chartXstep: real
    var selectionStartX: real
    var selectionEndX: real
    var selectionMinWidth: real
    var timelineY: real
    var optimalDatesCount: int
    var checkboxesY: seq<real>

    var chartCurrentIndex: int
    var chartTouchMode: bool
    var selectionChangeLeftMode: bool
    var selectionChangeRightMode: bool
    var selectionMoveMode: bool
    var selectionMoveX: real
    var checkBoxTouchMode: bool
    var checkBoxTouchedIndex: int

    /** A chart with at least two points is loaded, the per-series arrays match it,
        the selection lies inside it and spans at least two intervals (one when the
        chart has only two points), and every alpha is in range. */
    predicate DataValid()
      reads this`chart, this`displayedGraphs, this`graphsAlpha, this`selectionStart, this`selectionEnd,
            graphsAlpha
    {
      && chart.WellFormed()
      && chart.valuesCount >= 2
      && displayedGraphs.Length == chart.graphsCount
      && graphsAlpha.Length == chart.graphsCount
      && 0 <= selectionStart < selectionEnd <= chart.valuesCount - 1
      && selectionEnd - selectionStart >= Min(2, chart.valuesCount - 1)
      && (forall i :: 0 <= i < graphsAlpha.Length ==> IsAlpha(graphsAlpha[i]))
    }

    /** onSizeChanged has run: the bar spreads the points evenly over its width,
        the checkboxes are evenly spaced, and the scale step is positive. */
    predicate LaidOut()
      reads this`chart, this`chartBounds, this`barBounds, this`barXstep, this`selectionMinWidth,
            this`checkboxesY, this`scaleStep
    {
      && chart.valuesCount >= 2
      && chartBounds.left < chartBounds.right
      && barBounds.left < barBounds.right
      && barXstep > 0.0
      && GridX(barBounds.left, barXstep, chart.valuesCount - 1) == barBounds.right
      && selectionMinWidth == RealMax(barXstep * 2.1, selectionBorderWidth * 2.1)
      && |checkboxesY| == chart.graphsCount
      && EvenlySpaced(checkboxesY, checkBoxSize + 32.0 * density)
      && scaleStep > 0.0
    }

    /** The pixel positions of the selection frame and the chart's step follow the
        selected indices. */
    predicate SelectionSynced()
      reads this`selectionStart, this`selectionEnd, this`chartBounds, this`chartXstep,
            this`selectionStartX, this`selectionEndX, this`barBounds, this`barXstep
    {
      && selectionStart < selectionEnd
      && GridX(chartBounds.left, chartXstep, selectionEnd - selectionStart) == chartBounds.right
      && selectionStartX == BarX(selectionStart)
      && selectionEndX == BarX(selectionEnd)
    }

    /** The maximum the main chart is scaled to: the whole-data maximum when the
        selection is [0, valuesCount], otherwise the window maximum. */
    function SelectedMax(): int
      reads this`chart, this`displayedGraphs, displayedGraphs, this`selectionStart, this`selectionEnd,
            this`barMax
      requires chart.WellFormed() && displayedGraphs.Length == chart.graphsCount
      requires 0 <= selectionStart <= selectionEnd <= chart.valuesCount
    {
      if selectionStart == 0 && selectionEnd == chart.valuesCount then barMax
      else WindowMax(chart.graphs, displayedGraphs[..], selectionStart, selectionEnd)
    }

    /** chartMax and the target scale describe the current selection and series. */
    predicate ScaleTargetsSelection()
      reads this`chart, this`displayedGraphs, displayedGraphs, this`selectionStart, this`selectionEnd,
            this`barMax, this`chartMax, this`newScaleY, this`currentScaleY
      requires chart.WellFormed() && displayedGraphs.Length == chart.graphsCount
      requires 0 <= selectionStart <= selectionEnd <= chart.valuesCount
    {
      chartMax == SelectedMax() && newScaleY == TargetScale(chartHeight, chartMax, currentScaleY)
    }

    /** A pending checkbox touch names an existing series. */
    predicate GestureValid()
      reads this`checkBoxTouchMode, this`checkBoxTouchedIndex, this`displayedGraphs
    {
      checkBoxTouchMode ==> 0 <= checkBoxTouchedIndex < displayedGraphs.Length
    }

    /** Everything but the quantities onSelectionChanged derives from the selection. */
    predicate Ready()
      reads this`chart, this`displayedGraphs, this`graphsAlpha, this`selectionStart, this`selectionEnd,
            graphsAlpha, this`chartBounds, this`barBounds, this`barXstep, this`selectionMinWidth,
            this`checkboxesY, this`scaleStep
    {
      DataValid() && LaidOut()
    }

    predicate Valid()
      reads this`chart, this`displayedGraphs, this`graphsAlpha, this`selectionStart, this`selectionEnd,
            graphsAlpha, this`chartBounds, this`barBounds, this`barXstep, this`selectionMinWidth,
            this`checkboxesY, this`scaleStep,
            this`chartXstep, this`selectionStartX, this`selectionEndX, displayedGraphs, this`barMax,
            this`chartMax, this`newScaleY, this`currentScaleY
    {
      Ready() && SelectionSynced() && chartXstep > 0.0 && ScaleTargetsSelection()
    }

    /** No gesture is in progress. */
    predicate Idle()
      reads this`chartTouchMode, this`selectionChangeLeftMode, this`selectionChangeRightMode,
            this`selectionMoveMode, this`checkBoxTouchMode
    {
      !chartTouchMode && !selectionChangeLeftMode && !selectionChangeRightMode &&
      !selectionMoveMode && !checkBoxTouchMode
    }

    /** At most one gesture mode is set. */
    predicate AtMostOneMode()
      reads this`chartTouchMode, this`selectionChangeLeftMode, this`selectionChangeRightMode,
            this`selectionMoveMode, this`checkBoxTouchMode
    {
      (if chartTouchMode then 1 else 0) + (if selectionChangeLeftMode then 1 else 0) +
      (if selectionChangeRightMode then 1 else 0) + (if selectionMoveMode then 1 else 0) +
      (if checkBoxTouchMode then 1 else 0) <= 1
    }

    /** barX: the x coordinate of data index i on the bar. */
    function BarX(i: int): real
      reads this`barBounds, this`barXstep
    {
      GridX(barBounds.left, barXstep, i)
    }

    /** barI: the data index nearest to x on the bar, clamped to the data. */
    function BarI(x: real): (i: int)
      reads this`barBounds, this`barXstep, this`chart
      requires barXstep > 0.0 && chart.valuesCount >= 1
      ensures 0 <= i <= chart.valuesCount - 1
    {
      NearestIndex(x, barBounds.left, barXstep, 0, chart.valuesCount - 1)
    }

    /** barI undoes barX on every data index. */
    lemma BarIInvertsBarX(i: int)
      requires barXstep > 0.0 && 0 <= i <= chart.valuesCount - 1
      ensures BarI(BarX(i)) == i
    {
      NearestIndexRoundTrip(barBounds.left, barXstep, 0, chart.valuesCount - 1, i);
    }

    /** barI never maps a point further right to an index further left. */
    lemma BarIMonotone(x: real, y: real)
      requires barXstep > 0.0 && chart.valuesCount >= 1 && x <= y
      ensures BarI(x) <= BarI(y)
    {
      NearestIndexMonotone(x, y, barBounds.left, barXstep, 0, chart.valuesCount - 1);
    }

    /** chartX: the x coordinate of data index i on the main chart. */
    function ChartX(i: int): real
      reads this
    {
      GridX(chartBounds.left, chartXstep, i - selectionStart)
    }

    /** chartI: the data index nearest to x on the main chart, clamped to the selection. */
    function ChartI(x: real): (i: int)
      reads this`chartBounds, this`chartXstep, this`selectionStart, this`selectionEnd
      requires chartXstep > 0.0 && selectionStart <= selectionEnd
      ensures selectionStart <= i <= selectionEnd
    {
      WindowIndex(x, chartBounds.left, chartXstep, selectionStart, selectionEnd)
    }

    /** chartI undoes chartX on every selected index. */
    lemma ChartIInvertsChartX(i: int)
      requires chartXstep > 0.0 && selectionStart <= i <= selectionEnd
      ensures ChartI(ChartX(i)) == i
    {
      WindowIndexRoundTrip(chartBounds.left, chartXstep, selectionStart, selectionEnd, i);
    }

    /** barY: the y coordinate of a value on the bar; zero sits on the bottom edge and
        barMax at the top of the graph area. */
    function BarY(value: int): (y: real)
      reads this
      requires barMax != 0
      ensures value == 0 ==> y == barBounds.bottom
      ensures value == barMax ==> y == barBounds.bottom - barGraphHeight
    {
      barBounds.bottom - value as real * barGraphHeight / barMax as real
    }

    /** chartY: the y coordinate of a value on the main chart at the current scale. */
    function ChartY(value: int): (y: real)
      reads this
      ensures value == 0 ==> y == chartBounds.bottom
    {
      chartBounds.bottom - value as real * currentScaleY
    }

    /** At a positive scale a larger value is drawn higher up the chart. */
    lemma ChartYMonotone(a: int, b: int)
      requires currentScaleY > 0.0 && a < b
      ensures ChartY(b) < ChartY(a)
    {
    }

    /** Once the scale has reached the target of a non-zero window maximum, that
        maximum is drawn at the top of the chart. */
    lemma WindowMaxReachesTop()
      requires chartMax != 0 && currentScaleY == TargetScale(chartHeight, chartMax, 0.0)
      ensures ChartY(chartMax) == chartBounds.bottom - chartHeight
    {
    }

    /** The view as created, before any data: the Java defaults, with empty arrays
        in place of the null ones. */
    constructor(density: Density)
      ensures this.density == density
      ensures selectionStart == 0 && selectionEnd == 1
      ensures checkBoxTouchedIndex == -1 && Idle()
      ensures displayedGraphs.Length == 0 && graphsAlpha.Length == 0
    {
      this.density := density;
      chart := ChartData(0, 0, [], [], [], [], []);
      displayedGraphs := new bool[0];
      graphsAlpha := new int[0];
      selectionStart, selectionEnd := 0, 1;
      barMax, chartMax, oldChartMax := 0, 0, 0;
      currentScaleY, newScaleY, scaleStep := 0.0, 0.0, 0.0;
      chartBounds, barBounds := Rect(0.0, 0.0, 0.0, 0.0), Rect(0.0, 0.0, 0.0, 0.0);
      barXstep, chartXstep := 0.0, 0.0;
      selectionStartX, selectionEndX, selectionMinWidth := 0.0, 0.0, 0.0;
      timelineY, optimalDatesCount, checkboxesY := 0.0, 0, [];
      chartCurrentIndex := 0;
      chartTouchMode, selectionChangeLeftMode, selectionChangeRightMode := false, false, false;
      selectionMoveMode, selectionMoveX := false, 0.0;
      checkBoxTouchMode, checkBoxTouchedIndex := false, -1;
    }

    /** setChartData: load a chart, select its last 30 intervals and show every series
        fully opaque. */
    method SetChartData(data: ChartData)
      requires data.WellFormed() && data.valuesCount >= 2
      modifies this`chart, this`selectionStart, this`selectionEnd, this`displayedGraphs,
               this`graphsAlpha, this`barMax
      ensures chart == data
      ensures Window(selectionStart, selectionEnd) == DefaultSelection(data.valuesCount)
      ensures fresh(displayedGraphs) && fresh(graphsAlpha)
      ensures displayedGraphs.Length == graphsAlpha.Length == data.graphsCount
      ensures forall i :: 0 <= i < displayedGraphs.Length ==> displayedGraphs[i]
      ensures forall i :: 0 <= i < graphsAlpha.Length ==> graphsAlpha[i] == Visible
      ensures barMax == VisibleMax(data.maximums, graphsAlpha[..])
      ensures DataValid()
    {
      var shown := new bool[data.graphsCount](_ => false);
      var alphas := new int[data.graphsCount](_ => 0);
      for i := 0 to data.graphsCount
        invariant forall k :: 0 <= k < i ==> shown[k] && alphas[k] == Visible
      {
        shown[i] := true;
        alphas[i] := Visible;
      }
      chart := data;
      var w := DefaultSelection(data.valuesCount);
      selectionStart, selectionEnd := w.start, w.end;
      displayedGraphs, graphsAlpha := shown, alphas;
      OnGraphsDisplayedChanged();
    }

    /** onGraphsDisplayedChanged: barMax becomes the largest maximum of the series
        that are not fully transparent. */
    method OnGraphsDisplayedChanged()
      requires chart.WellFormed() && graphsAlpha.Length == chart.graphsCount
      modifies this`barMax
      ensures barMax == VisibleMax(chart.maximums, graphsAlpha[..])
    {
      barMax := IntMin;
      for i := 0 to chart.graphsCount
        invariant barMax == VisibleMax(chart.maximums[..i], graphsAlpha[..i])
      {
        assert chart.maximums[..i + 1][..i] == chart.maximums[..i];
        assert graphsAlpha[..i + 1][..i] == graphsAlpha[..i];
        if graphsAlpha[i] > Invisible && chart.maximums[i] > barMax {
          barMax := chart.maximums[i];
        }
      }
      assert chart.maximums[..chart.graphsCount] == chart.maximums;
      assert graphsAlpha[..chart.graphsCount] == graphsAlpha[..];
    }

    /** The double loop of onSelectionChanged: the largest value of the displayed
        series over the selected window, from Integer.MIN_VALUE. */
    method ScanWindow() returns (m: int)
      requires chart.WellFormed() && displayedGraphs.Length == chart.graphsCount
      requires 0 <= selectionStart <= selectionEnd <= chart.valuesCount
      ensures m == WindowMax(chart.graphs, displayedGraphs[..], selectionStart, selectionEnd)
    {
      m := IntMin;
      for i := 0 to chart.graphsCount
        invariant m == WindowMax(chart.graphs[..i], displayedGraphs[..i], selectionStart, selectionEnd)
      {
        assert chart.graphs[..i + 1][..i] == chart.graphs[..i];
        assert displayedGraphs[..i + 1][..i] == displayedGraphs[..i];
        if displayedGraphs[i] {
          m := ScanRow(chart.graphs[i], selectionStart, selectionEnd, m);
        }
      }
      assert chart.graphs[..chart.graphsCount] == chart.graphs;
      assert displayedGraphs[..chart.graphsCount] == displayedGraphs[..];
    }

    /** onSelectionChanged: remember the previous maximum, place the frame at the
        selected indices, and retarget the main chart's scale to the selection. Once
        the view is laid out, this makes it Valid. */
    method OnSelectionChanged()
      requires chart.WellFormed() && displayedGraphs.Length == chart.graphsCount
      requires 0 <= selectionStart < selectionEnd <= chart.valuesCount
      modifies this`oldChartMax, this`chartXstep, this`selectionStartX, this`selectionEndX,
               this`chartMax, this`newScaleY
      ensures oldChartMax == old(chartMax)
      ensures chartXstep == (chartBounds.right - chartBounds.left) / (selectionEnd - selectionStart) as real
      ensures SelectionSynced()
      ensures ScaleTargetsSelection()
      ensures Ready() ==> Valid()
    {
      PlaceFrame();
      Retarget();
    }

    /** The frame part of onSelectionChanged: the chart's step spreads the selected
        intervals over the chart's width, and the frame's edges sit on the bar at the
        selected indices. */
    method PlaceFrame()
      requires selectionStart < selectionEnd
      modifies this`chartXstep, this`selectionStartX, this`selectionEndX
      ensures chartXstep == (chartBounds.right - chartBounds.left) / (selectionEnd - selectionStart) as real
      ensures chartBounds.left < chartBounds.right ==> chartXstep > 0.0
      ensures SelectionSynced()
    {
      chartXstep := (chartBounds.right - chartBounds.left) / (selectionEnd - selectionStart) as real;
      GridEnd(chartBounds.left, chartBounds.right, selectionEnd - selectionStart);
      if chartBounds.left < chartBounds.right {
        QuotientPositive(chartBounds.right - chartBounds.left, (selectionEnd - selectionStart) as real);
      }
      selectionStartX := BarX(selectionStart);
      selectionEndX := BarX(selectionEnd);
    }

    /** The scale part of onSelectionChanged: chartMax becomes the maximum of the
        selection (barMax for the whole range, as written), and the target scale fits
        it to the chart height. */
    method Retarget()
      requires chart.WellFormed() && displayedGraphs.Length == chart.graphsCount
      requires 0 <= selectionStart < selectionEnd <= chart.valuesCount
      modifies this`oldChartMax, this`chartMax, this`newScaleY
      ensures oldChartMax == old(chartMax)
      ensures ScaleTargetsSelection()
    {
      oldChartMax := chartMax;
      if selectionStart == 0 && selectionEnd == chart.valuesCount {
        chartMax := barMax;
        newScaleY := if chartMax != 0 then chartHeight / chartMax as real else currentScaleY;
        return;
      }
      chartMax := ScanWindow();
      newScaleY := if chartMax != 0 then chartHeight / chartMax as real else currentScaleY;
    }

    /** Under Valid the selection ends at valuesCount - 1 at the latest, so the
        "whole range" branch of onSelectionChanged, which compares selectionEnd with
        valuesCount, is never taken: chartMax is always the window maximum. */
    lemma WholeRangeBranchUnreachable()
      requires Valid()
      ensures chartMax == WindowMax(chart.graphs, displayedGraphs[..], selectionStart, selectionEnd)
    {
    }

    /** applyNewValuesWithAnimation: recompute what depends on the selection and the
        displayed series (the redraw and the animation scheduling are not modelled). */
    method ApplyNewValuesWithAnimation()
      requires Ready()
      modifies this`oldChartMax, this`chartXstep, this`selectionStartX, this`selectionEndX,
               this`chartMax, this`newScaleY
      ensures Valid()
      ensures oldChartMax == old(chartMax)
    {
      OnSelectionChanged();
    }

    /** onSizeChanged: on a real size change, lay out the chart and the bar across the
        width, space the checkboxes below the bar, derive the scale step from barMax,
        and jump the scale straight to the target of the selection. The width of a
        date label is passed in. */
    method OnSizeChanged(w: int, h: int, oldw: int, oldh: int, dateWidth: real)
      requires DataValid()
      requires chart.graphsCount >= 1
      requires w as real > 2.0 * paddingX && dateWidth > 0.0
      modifies this`chartBounds, this`barBounds, this`barXstep, this`selectionMinWidth,
               this`timelineY, this`optimalDatesCount, this`checkboxesY, this`scaleStep,
               this`oldChartMax, this`chartXstep, this`selectionStartX, this`selectionEndX,
               this`chartMax, this`newScaleY, this`currentScaleY
      ensures w == oldw && h == oldh ==> unchanged(this)
      ensures w != oldw || h != oldh ==>
                && Valid()
                && SizedTo(w, dateWidth)
                && oldChartMax == old(chartMax)
                && currentScaleY == newScaleY
    {
      if w != oldw || h != oldh {
        Resize(w, dateWidth);
      }
    }

    /** The layout onSizeChanged computes for width w: the chart and the bar span the
        width less the side paddings, the bar 33dp below the chart, the timeline 16dp
        below the chart, as many dates as fit at twice a date's width, the first
        checkbox 24dp below the bar, and a scale step of a fifth of barMax's scale. */
    predicate SizedTo(w: int, dateWidth: real)
      reads this`chartBounds, this`barBounds, this`timelineY, this`optimalDatesCount, this`checkboxesY,
            this`scaleStep, this`barMax
      requires dateWidth > 0.0
    {
      && chartBounds == Rect(paddingX, 0.0, w as real - paddingX, chartHeight)
      && barBounds == Rect(paddingX, chartHeight + 33.0 * density, w as real - paddingX,
                           chartHeight + 33.0 * density + barHeight)
      && timelineY == chartHeight + 16.0 * density
      && optimalDatesCount == ((w as real - 2.0 * paddingX) / (2.0 * dateWidth)).Floor
      && |checkboxesY| >= 1 && checkboxesY[0] == barBounds.bottom + 24.0 * density
      && scaleStep == ScaleStepFor(chartHeight, barMax)
    }

    /** The body of onSizeChanged for a real size change. */
    method Resize(w: int, dateWidth: real)
      requires DataValid()
      requires chart.graphsCount >= 1
      requires w as real > 2.0 * paddingX && dateWidth > 0.0
      modifies this`chartBounds, this`barBounds, this`barXstep, this`selectionMinWidth,
               this`timelineY, this`optimalDatesCount, this`checkboxesY, this`scaleStep,
               this`oldChartMax, this`chartXstep, this`selectionStartX, this`selectionEndX,
               this`chartMax, this`newScaleY, this`currentScaleY
      ensures Valid()
      ensures SizedTo(w, dateWidth)
      ensures oldChartMax == old(chartMax)
      ensures currentScaleY == newScaleY
    {
      LayOut(w, dateWidth);
      SettleSelection();
    }

    /** The selection part of onSizeChanged: onSelectionChanged, and then the scale
        jumps straight to its new target. */
    method SettleSelection()
      requires Ready()
      modifies this`oldChartMax, this`chartXstep, this`selectionStartX, this`selectionEndX,
               this`chartMax, this`newScaleY, this`currentScaleY
      ensures Valid()
      ensures oldChartMax == old(chartMax)
      ensures currentScaleY == newScaleY
    {
      OnSelectionChanged();
      JumpScale();
    }

    /** The scale jumps straight to its target. */
    method JumpScale()
      requires Valid()
      modifies this`currentScaleY
      ensures Valid() && currentScaleY == newScaleY
    {
      currentScaleY := newScaleY;
    }

    /** The layout part of onSizeChanged, before the selection is recomputed. */
    method LayOut(w: int, dateWidth: real)
      requires chart.valuesCount >= 2 && chart.graphsCount >= 1
      requires w as real > 2.0 * paddingX && dateWidth > 0.0
      modifies this`chartBounds, this`barBounds, this`barXstep, this`selectionMinWidth,
               this`timelineY, this`optimalDatesCount, this`checkboxesY, this`scaleStep
      ensures LaidOut()
      ensures barXstep == (barBounds.right - barBounds.left) / (chart.valuesCount - 1) as real
      ensures SizedTo(w, dateWidth)
    {
        chartBounds := Rect(paddingX, 0.0, w as real - paddingX, chartHeight);
        barBounds := Rect(paddingX, chartBounds.bottom + density * 33.0, w as real - paddingX,
                          chartBounds.bottom + density * 33.0 + barHeight);
        barXstep := (barBounds.right - barBounds.left) / (chart.valuesCount - 1) as real;
        GridEnd(barBounds.left, barBounds.right, chart.valuesCount - 1);
        selectionMinWidth := RealMax(barXstep * 2.1, selectionBorderWidth * 2.1);
        timelineY := chartBounds.bottom + density * 16.0;
        optimalDatesCount := ((chartBounds.right - chartBounds.left) / (dateWidth * 2.0)).Floor;
        checkboxesY := CheckboxRows(barBounds.bottom + density * 24.0, checkBoxSize + density * 32.0,
                                    chart.graphsCount);
        scaleStep := ScaleStepFor(chartHeight, barMax);
    }

    /** The touch at (x, y) hits checkbox i. */
    predicate HitsCheckbox(i: int, x: real, y: real)
      reads this`checkboxesY
      requires 0 <= i < |checkboxesY|
    {
      InCheckbox(checkboxesY[i], paddingX, checkBoxSize, checkboxSensitivity, x, y)
    }

    /** The checkbox loop of the DOWN handler: the first checkbox the touch hits, which
        is the only one, since the touch regions do not overlap. */
    method FindCheckbox(x: real, y: real) returns (hit: Option<int>)
      requires LaidOut()
      ensures hit.None? <==> forall k :: 0 <= k < |checkboxesY| ==> !HitsCheckbox(k, x, y)
      ensures hit.Some? ==> 0 <= hit.value < |checkboxesY| && HitsCheckbox(hit.value, x, y)
      ensures hit.Some? ==> forall k :: 0 <= k < |checkboxesY| && k != hit.value ==> !HitsCheckbox(k, x, y)
    {
      for i := 0 to chart.graphsCount
        invariant forall k :: 0 <= k < i ==> !HitsCheckbox(k, x, y)
      {
        if y >= checkboxesY[i] - checkboxSensitivity && y <= checkboxesY[i] + checkBoxSize + checkboxSensitivity
           && x >= paddingX - checkboxSensitivity && x <= paddingX + checkBoxSize + checkboxSensitivity
        {
          forall k | i < k < |checkboxesY|
            ensures !HitsCheckbox(k, x, y)
          {
            CheckboxRegionsDisjoint(checkboxesY, checkBoxSize + 32.0 * density, checkBoxSize,
                                    checkboxSensitivity, i, k);
          }
          assert HitsCheckbox(i, x, y);
          return Some(i);
        }
      }
      return None;
    }

    predicate InChartBand(y: real)
      reads this`chartBounds
    {
      chartBounds.top <= y <= chartBounds.bottom
    }

    predicate InBarBand(y: real)
      reads this`barBounds
    {
      barBounds.top <= y <= barBounds.bottom
    }

    /** The part of the frame a touch at x lands on. */
    function FrameZone(x: real): BarZone
      reads this`selectionStartX, this`selectionEndX
    {
      ZoneOf(x, selectionStartX, selectionEndX, selectionBorderSensitivity)
    }

    twostate predicate ScrubKept()
      reads this`chartTouchMode, this`chartCurrentIndex
    {
      chartTouchMode == old(chartTouchMode) && chartCurrentIndex == old(chartCurrentIndex)
    }

    twostate predicate FrameModesKept()
      reads this`selectionMoveMode, this`selectionMoveX, this`selectionChangeLeftMode,
            this`selectionChangeRightMode
    {
      && selectionMoveMode == old(selectionMoveMode)
      && selectionMoveX == old(selectionMoveX)
      && selectionChangeLeftMode == old(selectionChangeLeftMode)
      && selectionChangeRightMode == old(selectionChangeRightMode)
    }

    twostate predicate CheckboxKept()
      reads this`checkBoxTouchMode, this`checkBoxTouchedIndex
    {
      checkBoxTouchMode == old(checkBoxTouchMode) && checkBoxTouchedIndex == old(checkBoxTouchedIndex)
    }

    twostate predicate SelectionKept()
      reads this`selectionStart, this`selectionEnd
    {
      selectionStart == old(selectionStart) && selectionEnd == old(selectionEnd)
    }

    /** DOWN on the bar: the body zone starts a move anchored at x, an edge zone starts
        resizing that edge, and outside the frame nothing is grabbed. */
    twostate predicate FrameGrabbed(x: real)
      reads this`selectionStartX, this`selectionEndX, this`selectionMoveMode, this`selectionMoveX,
            this`selectionChangeLeftMode, this`selectionChangeRightMode
    {
      && selectionMoveMode == (old(selectionMoveMode) || FrameZone(x) == SelectionBody)
      && selectionChangeLeftMode == (old(selectionChangeLeftMode) || FrameZone(x) == LeftEdge)
      && selectionChangeRightMode == (old(selectionChangeRightMode) || FrameZone(x) == RightEdge)
      && selectionMoveX == (if FrameZone(x) == SelectionBody then x else old(selectionMoveX))
    }

    /** DOWN below the bar: the touch is consumed exactly when it hits a checkbox, and
        then that checkbox, the only one hit, is armed. */
    twostate predicate CheckboxArmed(x: real, y: real, r: TouchResult)
      reads this`checkboxesY, this`checkBoxTouchMode, this`checkBoxTouchedIndex
    {
      && (r == Consumed <==> exists k :: 0 <= k < |checkboxesY| && HitsCheckbox(k, x, y))
      && (r == Consumed ==>
            && checkBoxTouchMode
            && 0 <= checkBoxTouchedIndex < |checkboxesY|
            && HitsCheckbox(checkBoxTouchedIndex, x, y)
            && forall k :: 0 <= k < |checkboxesY| && k != checkBoxTouchedIndex ==> !HitsCheckbox(k, x, y))
      && (r != Consumed ==> CheckboxKept())
    }

    /** The bar branch of the DOWN handler. */
    method GrabFrame(x: real)
      modifies this`selectionMoveX, this`selectionMoveMode, this`selectionChangeLeftMode,
               this`selectionChangeRightMode
      ensures FrameGrabbed(x)
    {
      if x > selectionStartX + selectionBorderSensitivity && x < selectionEndX - selectionBorderSensitivity {
        selectionMoveX := x;
        selectionMoveMode := true;
      } else if x >= selectionStartX - selectionBorderSensitivity && x <= selectionStartX + selectionBorderSensitivity {
        selectionChangeLeftMode := true;
      } else if x >= selectionEndX - selectionBorderSensitivity && x <= selectionEndX + selectionBorderSensitivity {
        selectionChangeRightMode := true;
      }
    }

    /** The checkbox branch of the DOWN handler. */
    method ArmCheckbox(x: real, y: real) returns (r: TouchResult)
      requires LaidOut()
      modifies this`checkBoxTouchedIndex, this`checkBoxTouchMode
      ensures CheckboxArmed(x, y, r)
    {
      var hit := FindCheckbox(x, y);
      if hit.Some? {
        checkBoxTouchedIndex := hit.value;
        checkBoxTouchMode := true;
        assert HitsCheckbox(hit.value, x, y);
        r := Consumed;
      } else {
        r := PassedToSuper;
      }
    }

    /** The chart branch of the DOWN handler: start scrubbing at the point under x. */
    method StartScrub(x: real)
      requires chartXstep > 0.0 && selectionStart <= selectionEnd
      modifies this`chartTouchMode, this`chartCurrentIndex
      ensures chartTouchMode && chartCurrentIndex == ChartI(x)
    {
      chartTouchMode := true;
      chartCurrentIndex := ChartI(x);
    }

    /** The scrub branch of the MOVE handler: the scrubbed point follows the finger. */
    method Scrub(x: real)
      requires chartXstep > 0.0 && selectionStart <= selectionEnd
      modifies this`chartCurrentIndex
      ensures chartCurrentIndex == ChartI(x)
    {
      chartCurrentIndex := ChartI(x);
    }

    /** What ACTION_DOWN at (x, y) does: a touch on the chart starts scrubbing, a touch
        on the bar grabs the frame's body or one of its edges, and a touch below them
        arms the checkbox it hits; each leaves the other gestures as they were. From
        no gesture, at most one gesture is in progress afterwards. */
    twostate predicate DownHandled(x: real, y: real, r: TouchResult)
      reads this`chartBounds, this`barBounds, this`chartXstep, this`selectionStart, this`selectionEnd,
            this`selectionStartX, this`selectionEndX, this`checkboxesY,
            this`chartTouchMode, this`chartCurrentIndex, this`selectionMoveMode, this`selectionMoveX,
            this`selectionChangeLeftMode, this`selectionChangeRightMode,
            this`checkBoxTouchMode, this`checkBoxTouchedIndex
      requires old(chartXstep) > 0.0 && old(selectionStart) <= old(selectionEnd)
    {
      && (old(Idle()) ==> AtMostOneMode())
      && (InChartBand(y) ==>
            && r == Consumed && chartTouchMode && chartCurrentIndex == old(ChartI(x))
            && FrameModesKept() && CheckboxKept())
      && (!InChartBand(y) ==> ScrubKept())
      && (!InChartBand(y) && InBarBand(y) ==> r == Consumed && FrameGrabbed(x) && CheckboxKept())
      && (!InChartBand(y) && !InBarBand(y) ==> FrameModesKept() && CheckboxArmed(x, y, r))
    }

    /** ACTION_DOWN on the chart. */
    method ChartDown(x: real, y: real) returns (r: TouchResult)
      requires Valid() && GestureValid() && InChartBand(y)
      modifies this`chartTouchMode, this`chartCurrentIndex
      ensures Valid() && GestureValid() && DownHandled(x, y, r)
      ensures SelectionStateKept() && SeriesKept()
    {
      StartScrub(x);
      r := Consumed;
    }

    /** ACTION_DOWN on the bar. */
    method BarDown(x: real, y: real) returns (r: TouchResult)
      requires Valid() && GestureValid() && !InChartBand(y) && InBarBand(y)
      modifies this`selectionMoveX, this`selectionMoveMode, this`selectionChangeLeftMode,
               this`selectionChangeRightMode
      ensures Valid() && GestureValid() && DownHandled(x, y, r)
      ensures SelectionStateKept() && SeriesKept()
    {
      GrabFrame(x);
      r := Consumed;
    }

    /** ACTION_DOWN below the chart and the bar. */
    method CheckboxDown(x: real, y: real) returns (r: TouchResult)
      requires Valid() && GestureValid() && !InChartBand(y) && !InBarBand(y)
      modifies this`checkBoxTouchedIndex, this`checkBoxTouchMode
      ensures Valid() && GestureValid() && DownHandled(x, y, r)
      ensures SelectionStateKept() && SeriesKept()
    {
      r := ArmCheckbox(x, y);
    }

    /** ACTION_DOWN: dispatch on the band the touch lands in. */
    method TouchDown(x: real, y: real) returns (r: TouchResult)
      requires Valid() && GestureValid()
      modifies this`chartTouchMode, this`chartCurrentIndex, this`selectionMoveX, this`selectionMoveMode,
               this`selectionChangeLeftMode, this`selectionChangeRightMode,
               this`checkBoxTouchedIndex, this`checkBoxTouchMode
      ensures Valid() && GestureValid() && DownHandled(x, y, r)
      ensures SelectionStateKept() && SeriesKept()
    {
      if y >= chartBounds.top && y <= chartBounds.bottom {
        r := ChartDown(x, y);
      } else if y >= barBounds.top && y <= barBounds.bottom {
        r := BarDown(x, y);
      } else {
        r := CheckboxDown(x, y);
      }
    }

    /** MOVE while moving the frame: a finger less than one step from the anchor changes
        nothing; otherwise the anchor follows the finger, and the frame moves with it
        by whole steps, keeping its width, if both moved edges stay strictly inside
        the bar. */
    twostate predicate FrameMoved(x: real)
      reads this
      requires old(barXstep) > 0.0 && old(chart.valuesCount) >= 1
    {
      var delta := x - old(selectionMoveX);
      if RealDist(x, old(selectionMoveX)) < old(barXstep) then
        unchanged(this)
      else
        && selectionMoveX == x
        && if old(selectionStartX) + delta > old(barBounds.left) && old(selectionEndX) + delta < old(barBounds.right)
           then && selectionStart == old(BarI(selectionStartX + delta))
                && selectionEnd == old(BarI(selectionEndX + delta))
                && selectionEnd - selectionStart == old(selectionEnd - selectionStart)
                && (delta > 0.0 ==> selectionStart > old(selectionStart))
                && (delta < 0.0 ==> selectionStart < old(selectionStart))
                && oldChartMax == old(chartMax)
           else SelectionKept() && oldChartMax == old(oldChartMax)
    }

    /** MOVE while resizing the left edge: the start follows the finger, and the
        selection keeps at least two intervals unless it starts at index 0. */
    twostate predicate LeftEdgeDragged(x: real)
      reads this`selectionStart, this`selectionEnd, this`barBounds, this`barXstep, this`chart,
            this`oldChartMax, this`chartMax
      requires old(barXstep) > 0.0 && old(chart.valuesCount) >= 1
    {
      selectionStart == old(BarI(x)) && selectionEnd == old(selectionEnd) &&
      selectionStart <= Max(0, selectionEnd - 2) && oldChartMax == old(chartMax)
    }

    /** MOVE while resizing the right edge: the end follows the finger, and the
        selection keeps at least two intervals unless it ends at the last index. */
    twostate predicate RightEdgeDragged(x: real)
      reads this`selectionStart, this`selectionEnd, this`barBounds, this`barXstep, this`chart,
            this`oldChartMax, this`chartMax
      requires old(barXstep) > 0.0 && old(chart.valuesCount) >= 1
    {
      selectionEnd == old(BarI(x)) && selectionStart == old(selectionStart) &&
      selectionEnd >= Min(chart.valuesCount - 1, selectionStart + 2) && oldChartMax == old(chartMax)
    }

    /** What ACTION_MOVE at x does, by the gesture in progress, in this order of
        precedence: scrubbing follows the finger with the scrubbed point, a frame move
        moves the frame, an edge drag moves that edge while the finger keeps the
        minimum width from the other edge, and otherwise the selection stays. */
    twostate predicate MoveHandled(x: real)
      reads this
      requires old(chartXstep) > 0.0 && old(selectionStart) <= old(selectionEnd)
      requires old(barXstep) > 0.0 && old(chart.valuesCount) >= 1
    {
      && (chartTouchMode ==>
            && chartCurrentIndex == old(ChartI(x)) && SelectionKept() && selectionMoveX == old(selectionMoveX)
            && oldChartMax == old(oldChartMax))
      && (!chartTouchMode ==> chartCurrentIndex == old(chartCurrentIndex))
      && (!chartTouchMode && selectionMoveMode ==> FrameMoved(x))
      && (!chartTouchMode && !selectionMoveMode ==> selectionMoveX == old(selectionMoveX))
      && (!chartTouchMode && !selectionMoveMode && selectionChangeLeftMode &&
          x < old(selectionEndX) - selectionMinWidth ==>
            LeftEdgeDragged(x))
      && (!chartTouchMode && !selectionMoveMode &&
          !(selectionChangeLeftMode && x < old(selectionEndX) - selectionMinWidth) &&
          selectionChangeRightMode && x > old(selectionStartX) + selectionMinWidth ==>
            RightEdgeDragged(x))
      && (!chartTouchMode && !selectionMoveMode &&
          !(selectionChangeLeftMode && x < old(selectionEndX) - selectionMinWidth) &&
          !(selectionChangeRightMode && x > old(selectionStartX) + selectionMinWidth) ==>
            SelectionKept() && oldChartMax == old(oldChartMax))
    }

    /** The scrub branch of the MOVE handler. */
    method ScrubMove(x: real)
      requires Valid() && GestureValid() && chartTouchMode
      modifies this`chartCurrentIndex
      ensures Valid() && GestureValid() && MoveHandled(x)
      ensures GestureModesKept() && SeriesKept()
    {
      Scrub(x);
    }

    /** The frame-move branch of the MOVE handler. */
    method MoveFrame(x: real)
      requires Valid()
      modifies this`selectionMoveX, this`selectionStart, this`selectionEnd,
               this`oldChartMax, this`chartXstep, this`selectionStartX, this`selectionEndX,
               this`chartMax, this`newScaleY
      ensures Valid()
      ensures FrameMoved(x)
    {
      var delta := x - selectionMoveX;
      if RealDist(x, selectionMoveX) < barXstep {
        return;
      }
      if selectionStartX + delta > barBounds.left && selectionEndX + delta < barBounds.right {
        ShiftFrame(delta);
      }
      SetMoveAnchor(x);
    }

    /** Move the frame by delta, at least one step, when both moved edges stay strictly
        inside the bar: both ends move by the same whole number of steps. */
    method ShiftFrame(delta: real)
      requires Valid()
      requires delta >= barXstep || delta <= -barXstep
      requires selectionStartX + delta > barBounds.left && selectionEndX + delta < barBounds.right
      modifies this`selectionStart, this`selectionEnd,
               this`oldChartMax, this`chartXstep, this`selectionStartX, this`selectionEndX,
               this`chartMax, this`newScaleY
      ensures Valid()
      ensures selectionStart == old(BarI(selectionStartX + delta))
      ensures selectionEnd == old(BarI(selectionEndX + delta))
      ensures selectionEnd - selectionStart == old(selectionEnd - selectionStart)
      ensures delta > 0.0 ==> selectionStart > old(selectionStart)
      ensures delta < 0.0 ==> selectionStart < old(selectionStart)
      ensures oldChartMax == old(chartMax)
    {
      var start, end := BarI(selectionStartX + delta), BarI(selectionEndX + delta);
      NearestIndexShiftRange(barBounds.left, barXstep, chart.valuesCount - 1, selectionStart, selectionEnd, delta);
      assert end - start == selectionEnd - selectionStart;
      assert delta > 0.0 ==> start > selectionStart;
      assert delta < 0.0 ==> start < selectionStart;
      Select(start, end);
      ApplyNewValuesWithAnimation();
    }

    /** The frame-move anchor follows the finger. */
    method SetMoveAnchor(x: real)
      requires Valid()
      modifies this`selectionMoveX
      ensures Valid() && selectionMoveX == x
    {
      selectionMoveX := x;
    }

    /** Select the indices [start, end]. */
    method Select(start: int, end: int)
      modifies this`selectionStart, this`selectionEnd
      ensures selectionStart == start && selectionEnd == end
    {
      selectionStart, selectionEnd := start, end;
    }

    /** The left-edge branch of the MOVE handler, taken while the finger is more than
        the minimum width left of the right edge. */
    method DragLeftEdge(x: real)
      requires Valid() && x < selectionEndX - selectionMinWidth
      modifies this`selectionStart, this`selectionEnd, this`oldChartMax, this`chartXstep, this`selectionStartX,
               this`selectionEndX, this`chartMax, this`newScaleY
      ensures Valid()
      ensures LeftEdgeDragged(x)
    {
      NearestIndexBelow(x, barBounds.left, barXstep, 0, chart.valuesCount - 1, selectionEnd, selectionMinWidth);
      Select(BarI(x), selectionEnd);
      ApplyNewValuesWithAnimation();
    }

    /** The right-edge branch of the MOVE handler, taken while the finger is more than
        the minimum width right of the left edge. */
    method DragRightEdge(x: real)
      requires Valid() && x > selectionStartX + selectionMinWidth
      modifies this`selectionStart, this`selectionEnd, this`oldChartMax, this`chartXstep, this`selectionStartX,
               this`selectionEndX, this`chartMax, this`newScaleY
      ensures Valid()
      ensures RightEdgeDragged(x)
    {
      NearestIndexAbove(x, barBounds.left, barXstep, 0, chart.valuesCount - 1, selectionStart, selectionMinWidth);
      Select(selectionStart, BarI(x));
      ApplyNewValuesWithAnimation();
    }

    /** The frame-move branch of the MOVE handler, as MoveHandled states it. */
    method FrameMove(x: real)
      requires Valid() && GestureValid() && !chartTouchMode && selectionMoveMode
      modifies this`selectionMoveX, this`selectionStart, this`selectionEnd,
               this`oldChartMax, this`chartXstep, this`selectionStartX, this`selectionEndX,
               this`chartMax, this`newScaleY
      ensures Valid() && GestureValid() && MoveHandled(x)
      ensures GestureModesKept() && SeriesKept()
    {
      MoveFrame(x);
    }

    /** The left-edge branch of the MOVE handler, as MoveHandled states it. */
    method LeftEdgeMove(x: real)
      requires Valid() && GestureValid() && x < selectionEndX - selectionMinWidth
      requires !chartTouchMode && !selectionMoveMode && selectionChangeLeftMode
      modifies this`selectionStart, this`selectionEnd, this`oldChartMax, this`chartXstep, this`selectionStartX,
               this`selectionEndX, this`chartMax, this`newScaleY
      ensures Valid() && GestureValid() && MoveHandled(x)
      ensures GestureModesKept() && SeriesKept()
    {
      DragLeftEdge(x);
    }

    /** The right-edge branch of the MOVE handler, as MoveHandled states it. */
    method RightEdgeMove(x: real)
      requires Valid() && GestureValid() && x > selectionStartX + selectionMinWidth
      requires !chartTouchMode && !selectionMoveMode
      requires !(selectionChangeLeftMode && x < selectionEndX - selectionMinWidth) && selectionChangeRightMode
      modifies this`selectionStart, this`selectionEnd, this`oldChartMax, this`chartXstep, this`selectionStartX,
               this`selectionEndX, this`chartMax, this`newScaleY
      ensures Valid() && GestureValid() && MoveHandled(x)
      ensures GestureModesKept() && SeriesKept()
    {
      DragRightEdge(x);
    }

    /** ACTION_MOVE: scrub the chart, drag the frame, or drag one of its edges, in that
        order of precedence; the event is always consumed. */
    method TouchMove(x: real) returns (r: TouchResult)
      requires Valid() && GestureValid()
      modifies this`chartCurrentIndex, this`selectionMoveX, this`selectionStart, this`selectionEnd,
               this`oldChartMax, this`chartXstep, this`selectionStartX, this`selectionEndX,
               this`chartMax, this`newScaleY
      ensures Valid() && GestureValid() && r == Consumed && MoveHandled(x)
      ensures GestureModesKept() && SeriesKept()
    {
      if chartTouchMode {
        ScrubMove(x);
      } else if selectionMoveMode {
        FrameMove(x);
      } else if selectionChangeLeftMode && x < selectionEndX - selectionMinWidth {
        LeftEdgeMove(x);
      } else if selectionChangeRightMode && x > selectionStartX + selectionMinWidth {
        RightEdgeMove(x);
      }
      r := Consumed;
    }

    /** End every gesture: the layout and the selection are left as they are. */
    method EndGestures()
      requires Valid()
      modifies this`chartTouchMode, this`selectionChangeLeftMode, this`selectionChangeRightMode,
               this`selectionMoveMode, this`checkBoxTouchMode
      ensures Valid() && Idle()
    {
      ClearModes();
    }

    /** Clear every gesture mode. */
    method ClearModes()
      modifies this`chartTouchMode, this`selectionChangeLeftMode, this`selectionChangeRightMode,
               this`selectionMoveMode, this`checkBoxTouchMode
      ensures Idle()
    {
      chartTouchMode, selectionChangeLeftMode, selectionChangeRightMode := false, false, false;
      selectionMoveMode, checkBoxTouchMode := false, false;
    }

    /** The checkbox part of the UP and CANCEL handler: a checkbox touch that ends with
        UP flips its series. */
    method ReleaseCheckbox(isUp: bool)
      requires Ready() && GestureValid()
      modifies displayedGraphs
      ensures Ready()
      ensures checkBoxTouchMode && isUp ==>
                displayedGraphs[..] == Toggled(old(displayedGraphs[..]), checkBoxTouchedIndex)
      ensures !(checkBoxTouchMode && isUp) ==> displayedGraphs[..] == old(displayedGraphs[..])
    {
      if checkBoxTouchMode && isUp {
        displayedGraphs[checkBoxTouchedIndex] := !displayedGraphs[checkBoxTouchedIndex];
      }
    }

    /** What UP (isUp) or CANCEL does to the series: a checkbox touch that ends with UP
        flips its series, and otherwise every series stays as it was. */
    twostate predicate Released(isUp: bool)
      reads this`checkBoxTouchMode, this`checkBoxTouchedIndex, this`displayedGraphs, displayedGraphs
      requires old(GestureValid())
    {
      && (old(checkBoxTouchMode) && isUp ==>
            displayedGraphs[..] == Toggled(old(displayedGraphs[..]), old(checkBoxTouchedIndex)))
      && (!(old(checkBoxTouchMode) && isUp) ==> displayedGraphs[..] == old(displayedGraphs[..]))
    }

    /** ACTION_UP and ACTION_CANCEL: end every gesture; a checkbox touch that ends
        with UP flips its series; then retarget the scale. */
    method TouchUp(isUp: bool) returns (r: TouchResult)
      requires Valid() && GestureValid()
      modifies this`chartTouchMode, this`selectionChangeLeftMode, this`selectionChangeRightMode,
               this`selectionMoveMode, this`checkBoxTouchMode, displayedGraphs,
               this`oldChartMax, this`chartXstep, this`selectionStartX, this`selectionEndX,
               this`chartMax, this`newScaleY
      ensures Valid() && GestureValid() && Idle() && r == PassedToSuper
      ensures Released(isUp) && oldChartMax == old(chartMax) && SelectionKept()
      ensures chartCurrentIndex == old(chartCurrentIndex) && selectionMoveX == old(selectionMoveX)
      ensures checkBoxTouchedIndex == old(checkBoxTouchedIndex)
    {
      ReleaseCheckbox(isUp);
      ApplyNewValuesWithAnimation();
      EndGestures();
      r := PassedToSuper;
    }

    /** The selection and everything onSelectionChanged derives from it are as they were. */
    twostate predicate SelectionStateKept()
      reads this`selectionStart, this`selectionEnd, this`oldChartMax, this`chartMax, this`newScaleY,
            this`chartXstep, this`selectionStartX, this`selectionEndX
    {
      && SelectionKept() && oldChartMax == old(oldChartMax) && chartMax == old(chartMax)
      && newScaleY == old(newScaleY) && chartXstep == old(chartXstep)
      && selectionStartX == old(selectionStartX) && selectionEndX == old(selectionEndX)
    }

    /** Every gesture mode and the armed checkbox are as they were. */
    twostate predicate GestureModesKept()
      reads this`chartTouchMode, this`selectionMoveMode, this`selectionChangeLeftMode,
            this`selectionChangeRightMode, this`checkBoxTouchMode, this`checkBoxTouchedIndex
    {
      && chartTouchMode == old(chartTouchMode) && selectionMoveMode == old(selectionMoveMode)
      && selectionChangeLeftMode == old(selectionChangeLeftMode)
      && selectionChangeRightMode == old(selectionChangeRightMode)
      && CheckboxKept()
    }

    /** Which series are displayed is as it was. */
    twostate predicate SeriesKept()
      reads this`displayedGraphs, displayedGraphs
    {
      displayedGraphs[..] == old(displayedGraphs[..])
    }

    /** onTouchEvent: dispatch on the action. */
    method OnTouchEvent(action: Action, x: real, y: real) returns (r: TouchResult)
      requires Valid() && GestureValid()
      modifies this`chartTouchMode, this`chartCurrentIndex, this`selectionMoveX, this`selectionMoveMode,
               this`selectionChangeLeftMode, this`selectionChangeRightMode,
               this`checkBoxTouchedIndex, this`checkBoxTouchMode, this`selectionStart, this`selectionEnd,
               this`oldChartMax, this`chartXstep, this`selectionStartX, this`selectionEndX,
               this`chartMax, this`newScaleY, displayedGraphs
      ensures Valid() && GestureValid()
      ensures action == ActionDown ==> DownHandled(x, y, r) && SelectionStateKept() && SeriesKept()
      ensures action == ActionMove ==>
                r == Consumed && MoveHandled(x) && GestureModesKept() && SeriesKept()
      ensures action == ActionUp || action == ActionCancel ==>
                && r == PassedToSuper && Idle() && Released(action == ActionUp)
                && oldChartMax == old(chartMax) && SelectionKept()
                && chartCurrentIndex == old(chartCurrentIndex) && selectionMoveX == old(selectionMoveX)
                && checkBoxTouchedIndex == old(checkBoxTouchedIndex)
      ensures action == ActionOther ==> r == PassedToSuper && unchanged(this) && SeriesKept()
    {
      match action {
        case ActionDown =>
          r := TouchDown(x, y);
        case ActionMove =>
          r := TouchMove(x);
        case ActionUp =>
          r := TouchUp(true);
        case ActionCancel =>
          r := TouchUp(false);
        case ActionOther =>
          r := PassedToSuper;
      }
    }

    /** One run of the animation runnable: fade every series one step toward its
        target, move the scale one step toward its target, and ask to run again
        exactly when something changed. */
    method Tick() returns (repeat: bool)
      requires Valid()
      modifies graphsAlpha, this`currentScaleY
      ensures Valid()
      ensures forall i :: 0 <= i < graphsAlpha.Length ==>
                graphsAlpha[i] == StepAlpha(old(graphsAlpha[i]), displayedGraphs[i])
      ensures currentScaleY == StepScale(old(currentScaleY), newScaleY, scaleStep)
      ensures repeat <==> (exists i :: 0 <= i < graphsAlpha.Length && graphsAlpha[i] != old(graphsAlpha[i])) ||
                          currentScaleY != old(currentScaleY)
      ensures repeat <==> (exists i :: 0 <= i < graphsAlpha.Length &&
                                       old(graphsAlpha[i]) != AlphaTarget(displayedGraphs[i])) ||
                          old(currentScaleY) != newScaleY
    {
      repeat := FadeSeries();
      if currentScaleY < newScaleY {
        currentScaleY := RealMin(currentScaleY + scaleStep, newScaleY);
        repeat := true;
      } else if currentScaleY > newScaleY {
        currentScaleY := RealMax(currentScaleY - scaleStep, newScaleY);
        repeat := true;
      }
    }

    /** The alpha loop of the animation runnable. */
    method FadeSeries() returns (changed: bool)
      requires DataValid()
      modifies graphsAlpha
      ensures DataValid()
      ensures forall i :: 0 <= i < graphsAlpha.Length ==>
                graphsAlpha[i] == StepAlpha(old(graphsAlpha[i]), displayedGraphs[i])
      ensures changed <==> exists i :: 0 <= i < graphsAlpha.Length && graphsAlpha[i] != old(graphsAlpha[i])
    {
      changed := false;
      for i := 0 to chart.graphsCount
        invariant forall k :: 0 <= k < i ==> graphsAlpha[k] == StepAlpha(old(graphsAlpha[k]), displayedGraphs[k])
        invariant forall k :: i <= k < graphsAlpha.Length ==> graphsAlpha[k] == old(graphsAlpha[k])
        invariant changed <==> exists k :: 0 <= k < i && graphsAlpha[k] != old(graphsAlpha[k])
      {
        if displayedGraphs[i] && graphsAlpha[i] != Visible {
          graphsAlpha[i] := Min(graphsAlpha[i] + AlphaStep, Visible);
          changed := true;
        } else if !displayedGraphs[i] && graphsAlpha[i] != Invisible {
          graphsAlpha[i] := Max(graphsAlpha[i] - AlphaStep, Invisible);
          changed := true;
        }
      }
    }

    /** The label loop of drawDates for a stride power computed from the selection
        size: which indices get a date label and which of them are drawn opaque. */
    method DrawDates(stepPower: int) returns (labels: seq<DateLabel>)
      requires DataValid()
      ensures labels == DateLabels(selectionStart, selectionEnd, chart.valuesCount, stepPower)
      ensures forall k :: 0 <= k < |labels| ==>
                0 <= labels[k].index < chart.valuesCount && labels[k].index % DateStep(stepPower) == 0
    {
      var step := DateStep(stepPower);
      var start := Max(0, (selectionStart / step) * step - step);
      var end := Min(Int32Of((selectionEnd / step) * step + step), (chart.valuesCount / step) * step);
      var period := Int32Of(step * 2);
      labels := [];
      var i := start;
      while i < end
        invariant labels + LabelsFrom(i, end, step, period) == LabelsFrom(start, end, step, period)
        decreases end - i
      {
        labels := labels + [DateLabel(i, i % period == 0)];
        i := i + step;
      }
      DateLabelsInBounds(selectionStart, selectionEnd, chart.valuesCount, stepPower);
    }
  }
}
