# tgChart chart widget, modelled in Dafny

tgChart is an Android app that draws line charts. The screen has three parts:

- a main chart showing a selected window of the data;
- a compact "bar" below it, showing all the data under a selection frame that can be moved and resized;
- one checkbox per series, which shows or hides that series.

This project models the logic behind that widget and proves properties of it.

It covers two classes:

- **`ChartData`'s constructor.** It decodes the JSON record into per-series arrays. This is module `ChartDataDecoder`: a specification function `Decoded` and an imperative `Decode` over arrays, proved equal to it. Module `ChartDataFacts` proves what the decoded table says about the columns it came from.
- **`ChartView`.** This is class `ChartWidget.ChartView`, whose fields are the Java fields. It models:
  - loading a chart;
  - the bar maximum;
  - layout on a size change;
  - recomputing the selection's maximum and target scale;
  - the touch state machine of `onTouchEvent`;
  - the animation tick;
  - the stride of the date labels.

Supporting modules:

- `Geometry`: the mappings between data indices and pixel x coordinates (`barX`/`barI`, `chartX`/`chartI`) and `Math.round`.
- `Animation`: one step of a fade or of the scale, and how many steps it takes to converge.
- `ChartRules`: the maxima, the target scale, touch classification and the date labels, as functions on values.
- `Common`: Java `int` narrowing and the running-maximum loop idiom.

Modelling choices:

- Java `float` pixel values are Dafny `real`s. `Math.round(x)` is `(x + 0.5).Floor`.
- Java `int` values read from JSON are narrowed to 32 bits explicitly (`Int32Of`).
- `barX(i)` is `left + i * step`. It is modelled as `GridX`, which adds `step` i times; `GridXIsProduct` proves it equals the product.
- The dimensions `init` derives from the display density are constant fields of the class.
- The JSON object is given already split into its parts:
  - the `types`, `names` and `colors` objects, as maps keyed by column label;
  - the `columns` array, as a sequence of labelled columns.
- The constructor's failures on well-typed JSON are error values of `Decoded`: a missing column, an unknown label, a short column, a missing colour or name, or a row index past `graphsCount`. Not modelled, see "Left out": the exceptions of an empty column array, of ill-typed JSON values, and of a colour string that `Color.parseColor` rejects.

Main invariants:

- `ChartView.Valid()` holds after `onSizeChanged` and is kept by every event handler. It says:
  - the data and the per-series arrays agree;
  - the selection is `0 <= selectionStart < selectionEnd <= valuesCount - 1`;
  - the selection spans at least two intervals, or one when the chart has only two points;
  - alphas lie in [0, 255];
  - the frame's pixel positions follow the selected indices;
  - `chartMax` and `newScaleY` describe the current selection.
- `GestureValid()` says a pending checkbox touch names an existing series.

## Model

| member | source | states |
|---|---|---|
| Common.Int32Of | app/src/main/java/com/filenkov/tgchart/ChartData.java:52 | `getInt` narrows a JSON number to a Java int: the result is in int range, congruent to the input modulo 2^32, and equal to it when it already fits |
| Common.RunningMaxIsMax | app/src/main/java/com/filenkov/tgchart/ChartData.java:55-57 | the running maximum "raise m on a strictly greater value" is at least the start value, at least every element, and equal to the start value or to some element |
| Geometry.Round | app/src/main/java/com/filenkov/tgchart/ChartView.java:357 | Math.round returns the integer within half a unit of x, halves rounded up |
| Geometry.GridXIsProduct | app/src/main/java/com/filenkov/tgchart/ChartView.java:346-348 | the grid point of index i is left + i * step, as barX and chartX compute it |
| Geometry.NearestIndex | app/src/main/java/com/filenkov/tgchart/ChartView.java:356-358 | the clamped nearest index always lies in [lo, hi] |
| Geometry.NearestIndexRoundTrip | app/src/main/java/com/filenkov/tgchart/ChartView.java:346-358 | mapping an index to its grid point and back returns the index |
| Geometry.NearestIndexMonotone | app/src/main/java/com/filenkov/tgchart/ChartView.java:356-358 | a point further right never maps to an index further left |
| Geometry.NearestIndexIsNearest | app/src/main/java/com/filenkov/tgchart/ChartView.java:356-358 | inside the grid the chosen index is the rounded fractional position, at most half a step from it |
| Geometry.NearestIndexShiftRange | app/src/main/java/com/filenkov/tgchart/ChartView.java:772-774 | shifting both frame edges by a delta of at least one step, inside the bar, moves both indices by the same nonzero amount in the direction of delta |
| Geometry.NearestIndexBelow | app/src/main/java/com/filenkov/tgchart/ChartView.java:779-783 | a finger more than 2.1 steps left of index j maps to an index at most j - 2 (clamped at 0) |
| Geometry.NearestIndexAbove | app/src/main/java/com/filenkov/tgchart/ChartView.java:786-790 | a finger more than 2.1 steps right of index j maps to an index at least j + 2 (clamped at the last index) |
| Geometry.GridEnd | app/src/main/java/com/filenkov/tgchart/ChartView.java:309 | dividing a width into n equal steps puts grid point n on the right edge |
| Geometry.WindowIndex | app/src/main/java/com/filenkov/tgchart/ChartView.java:461-463 | the clamped window index always lies in [lo, hi] |
| Geometry.WindowIndexRoundTrip | app/src/main/java/com/filenkov/tgchart/ChartView.java:451-463 | chartI(chartX(i)) == i for every index of the window |
| Animation.StepAlpha | app/src/main/java/com/filenkov/tgchart/ChartView.java:837-843 | one fade step keeps alpha in [0, 255], moves it by at most 10 toward 255 (shown) or 0 (hidden), takes 10 off the distance to the target until reached, and changes alpha exactly when it is not at its target |
| Animation.AlphaAfterDistance | app/src/main/java/com/filenkov/tgchart/ChartView.java:836-844 | after n ticks the distance to the target is the start distance less 10n, floored at 0 |
| Animation.AlphaSettles | app/src/main/java/com/filenkov/tgchart/ChartView.java:836-844 | a fade from any alpha in range completes within 26 ticks |
| Animation.StepScale | app/src/main/java/com/filenkov/tgchart/ChartView.java:846-854 | one scale step moves toward the target by at most scaleStep, never overshoots, takes scaleStep off the distance until reached, and changes the scale exactly when it is not at the target |
| Animation.ScaleAfterDistance | app/src/main/java/com/filenkov/tgchart/ChartView.java:846-854 | after n ticks the distance to the target is the start distance less n steps, floored at 0 |
| Animation.ScaleSettles | app/src/main/java/com/filenkov/tgchart/ChartView.java:846-854 | once n steps cover the distance, the scale after n ticks is the target |
| ChartRules.DefaultSelectionAsWrittenUnderflows | app/src/main/java/com/filenkov/tgchart/ChartView.java:273-274 | the written default selection starts at a negative index when there are fewer than 31 points (20 points give [-11, 19]) |
| ChartRules.DefaultSelection | app/src/main/java/com/filenkov/tgchart/ChartView.java:273-274 | the default selection ends at the last index, starts at 0 or later, spans min(30, valuesCount - 1) intervals, and equals the written one whenever that one is in range |
| ChartRules.VisibleMaxIsMax | app/src/main/java/com/filenkov/tgchart/ChartView.java:292-299 | barMax is at least the maximum of every series with alpha > 0, equals one of them or Integer.MIN_VALUE, and is Integer.MIN_VALUE when no series is visible |
| ChartRules.WindowMaxIsMax | app/src/main/java/com/filenkov/tgchart/ChartView.java:415-422 | chartMax is at least every displayed value in the half-open window [selectionStart, selectionEnd), and equals one of them or Integer.MIN_VALUE |
| ChartRules.TargetScale | app/src/main/java/com/filenkov/tgchart/ChartView.java:423 | a nonzero maximum times the target scale is the chart height; with a zero maximum the current scale is kept |
| ChartRules.ScaleStepFor | app/src/main/java/com/filenkov/tgchart/ChartView.java:332 | the scale step is positive, one fifth of the scale fitting barMax to the chart height when barMax > 0, and 1 otherwise |
| ChartRules.ZonesOfWideSelection | app/src/main/java/com/filenkov/tgchart/ChartView.java:723-736 | on a frame wider than both edge bands each edge grabs its band, the centre grabs the body, and exactly the points beyond the bands grab nothing |
| ChartRules.ZonesOfNarrowSelection | app/src/main/java/com/filenkov/tgchart/ChartView.java:723-736 | on a frame no wider than two edge bands the body cannot be grabbed, and the left edge wins where the bands overlap |
| ChartRules.CheckboxRegionsDisjoint | app/src/main/java/com/filenkov/tgchart/ChartView.java:326-328 | with checkboxes spaced further apart than a checkbox plus both margins, the touch regions of two checkboxes never overlap |
| ChartRules.DateStep | app/src/main/java/com/filenkov/tgchart/ChartView.java:577-578 | the label stride is 2^max(1, stepPower), saturated as the int cast saturates, so at least 2 |
| ChartRules.FullAlphaPeriod | app/src/main/java/com/filenkov/tgchart/ChartView.java:584 | the opaque-label period `step * 2` is never zero, and is twice the stride when that fits an int |
| ChartRules.LabelsFromIndices | app/src/main/java/com/filenkov/tgchart/ChartView.java:583-584 | the label loop visits only multiples of the stride in [start, end), and draws opaque exactly the labels on a multiple of the period |
| ChartRules.LabelsFromStride | app/src/main/java/com/filenkov/tgchart/ChartView.java:583 | consecutive labels are one stride apart |
| ChartRules.DateLabelsInBounds | app/src/main/java/com/filenkov/tgchart/ChartView.java:579-585 | every label index is a non-negative multiple of the stride below valuesCount, so `dates[i]` is in bounds, and consecutive labels are one stride apart |
| ChartRules.DateLabelsCoverSelection | app/src/main/java/com/filenkov/tgchart/ChartView.java:579-583 | every multiple of the stride in the selection, below the last multiple under valuesCount, gets a label |
| ChartDataDecoder.LineStep | app/src/main/java/com/filenkov/tgchart/ChartData.java:49-61 | a "line" column keeps the table shaped and leaves skip alone |
| ChartDataDecoder.Step | app/src/main/java/com/filenkov/tgchart/ChartData.java:39-65 | one pass keeps the table shaped, and increments skip exactly for a column that is not a "line" column |
| ChartDataDecoder.Run | app/src/main/java/com/filenkov/tgchart/ChartData.java:37-38 | after n passes skip is the number of non-"line" columns among the first n |
| ChartDataDecoder.Decoded | app/src/main/java/com/filenkov/tgchart/ChartData.java:21-38 | with no columns the constructor throws; on success the table is well formed, graphsCount is the number of names, and valuesCount is the first column's length without its label |
| ChartDataDecoder.FillTimeline | app/src/main/java/com/filenkov/tgchart/ChartData.java:44-46 | the timeline gets the column's values after the label, and the loop throws exactly when the column is too short |
| ChartDataDecoder.FillRow | app/src/main/java/com/filenkov/tgchart/ChartData.java:51-58 | the loop throws exactly as the first failing access does; otherwise row k gets the column narrowed to int, maximums[k] its running maximum, and no other entry changes |
| ChartDataDecoder.DecodedFailsAt | app/src/main/java/com/filenkov/tgchart/ChartData.java:38-39 | an exception in one pass is the constructor's exception |
| ChartDataDecoder.DecodeColumn | app/src/main/java/com/filenkov/tgchart/ChartData.java:39-65 | one pass of the loop over the arrays does what Step says, including the exception it throws |
| ChartDataDecoder.Allocate | app/src/main/java/com/filenkov/tgchart/ChartData.java:27-35 | the new arrays have the decoded sizes and hold zeros and nulls |
| ChartDataDecoder.Decode | app/src/main/java/com/filenkov/tgchart/ChartData.java:21-67 | the constructor over arrays produces exactly the table, or the exception, that Decoded specifies |
| ChartDataFacts.StepRows | app/src/main/java/com/filenkov/tgchart/ChartData.java:49-65 | a "line" column writes only row i - skip, with its values, running maximum, colour and name; every other row is kept |
| ChartDataFacts.RunBlankRows | app/src/main/java/com/filenkov/tgchart/ChartData.java:34-65 | rows past the "line" columns seen so far are untouched, and every maximum is the running maximum of its row from 0 |
| ChartDataFacts.RunFilledRows | app/src/main/java/com/filenkov/tgchart/ChartData.java:49-61 | every "line" column seen so far has filled its own row |
| ChartDataFacts.RunTimeline | app/src/main/java/com/filenkov/tgchart/ChartData.java:42-47 | the timeline is the last "x" column seen so far, or zeros |
| ChartDataFacts.DecodedNeedsColumns | app/src/main/java/com/filenkov/tgchart/ChartData.java:38-39 | with fewer than graphsCount + 1 columns the constructor throws |
| ChartDataFacts.DecodedIgnoresLaterColumns | app/src/main/java/com/filenkov/tgchart/ChartData.java:38 | columns after the first graphsCount + 1 do not affect the result |
| ChartDataFacts.DecodedTimeline | app/src/main/java/com/filenkov/tgchart/ChartData.java:42-47 | `timeline[j]` is item j + 1 of the last "x" column among those read, for all j; with no "x" column it stays all zeros |
| ChartDataFacts.DecodedLineColumn | app/src/main/java/com/filenkov/tgchart/ChartData.java:49-61 | a "line" column i fills row i - skip (skip counting the earlier non-"line" columns): its values narrowed to int, and the colour and name of its label |
| ChartDataFacts.DecodedBlankRows | app/src/main/java/com/filenkov/tgchart/ChartData.java:63-65 | rows beyond the number of "line" columns keep zeros, a zero maximum, colour 0 and a null name: skipped columns write nothing |
| ChartDataFacts.DecodedMaximums | app/src/main/java/com/filenkov/tgchart/ChartData.java:34 | maximums[k] is the largest of 0 and the values of row k |
| ChartWidget.ToggledTwice | app/src/main/java/com/filenkov/tgchart/ChartView.java:802-804 | two toggles of the same checkbox restore the original flags |
| ChartWidget.ScanRow | app/src/main/java/com/filenkov/tgchart/ChartView.java:418-420 | the inner loop returns the running maximum of row[lo..hi], at least m and every scanned value |
| ChartWidget.CheckboxRows | app/src/main/java/com/filenkov/tgchart/ChartView.java:325-330 | one checkbox row per series, the first at the given y, then evenly spaced |
| ChartWidget.ChartView.BarI | app/src/main/java/com/filenkov/tgchart/ChartView.java:356-358 | barI returns an index in [0, valuesCount - 1] for every x |
| ChartWidget.ChartView.BarIInvertsBarX | app/src/main/java/com/filenkov/tgchart/ChartView.java:346-358 | barI(barX(i)) == i for every data index |
| ChartWidget.ChartView.BarIMonotone | app/src/main/java/com/filenkov/tgchart/ChartView.java:356-358 | barI is monotone in x |
| ChartWidget.ChartView.ChartI | app/src/main/java/com/filenkov/tgchart/ChartView.java:461-463 | chartI returns an index in [selectionStart, selectionEnd] for every x |
| ChartWidget.ChartView.ChartIInvertsChartX | app/src/main/java/com/filenkov/tgchart/ChartView.java:451-463 | chartI(chartX(i)) == i for every selected index |
| ChartWidget.ChartView.BarY | app/src/main/java/com/filenkov/tgchart/ChartView.java:366-368 | value 0 sits on the bar's bottom edge and barMax at the top of its graph area |
| ChartWidget.ChartView.ChartY | app/src/main/java/com/filenkov/tgchart/ChartView.java:471-473 | value 0 sits on the chart's bottom edge |
| ChartWidget.ChartView.ChartYMonotone | app/src/main/java/com/filenkov/tgchart/ChartView.java:471-473 | at a positive scale a larger value is drawn higher, that is, at a smaller y |
| ChartWidget.ChartView.WindowMaxReachesTop | app/src/main/java/com/filenkov/tgchart/ChartView.java:423 | once the scale reaches the target of a nonzero window maximum, that maximum is drawn at the top of the chart |
| ChartWidget.ChartView.constructor | app/src/main/java/com/filenkov/tgchart/ChartView.java:117-148 | a new view has no gesture in progress and no checkbox touched (-1) |
| ChartWidget.ChartView.SetChartData | app/src/main/java/com/filenkov/tgchart/ChartView.java:271-287 | loading a chart selects the default window, shows every series fully opaque, and sets barMax to the visible maximum |
| ChartWidget.ChartView.OnGraphsDisplayedChanged | app/src/main/java/com/filenkov/tgchart/ChartView.java:292-299 | barMax becomes the maximum of the series maxima with alpha > 0, or Integer.MIN_VALUE |
| ChartWidget.ChartView.ScanWindow | app/src/main/java/com/filenkov/tgchart/ChartView.java:415-422 | the double loop computes the maximum of the displayed series over the window |
| ChartWidget.ChartView.OnSelectionChanged | app/src/main/java/com/filenkov/tgchart/ChartView.java:401-424 | oldChartMax keeps the previous chartMax; chartXstep spreads the selected intervals over the chart width; the frame sits at barX of the selected indices; chartMax and newScaleY describe the selection; a laid-out view becomes Valid |
| ChartWidget.ChartView.PlaceFrame | app/src/main/java/com/filenkov/tgchart/ChartView.java:403-405 | the chart step puts the last selected index on the right edge, and the frame edges sit on the bar at the selected indices |
| ChartWidget.ChartView.Retarget | app/src/main/java/com/filenkov/tgchart/ChartView.java:409-423 | chartMax becomes barMax for the whole range, otherwise the window maximum; newScaleY is its target scale |
| ChartWidget.ChartView.WholeRangeBranchUnreachable | app/src/main/java/com/filenkov/tgchart/ChartView.java:409-413 | in a valid view the whole-range branch is never the one that fixed chartMax: it is always the window maximum |
| ChartWidget.ChartView.ApplyNewValuesWithAnimation | app/src/main/java/com/filenkov/tgchart/ChartView.java:813-819 | recomputing the selection-dependent values makes a laid-out view Valid |
| ChartWidget.ChartView.OnSizeChanged | app/src/main/java/com/filenkov/tgchart/ChartView.java:302-338 | an unchanged size changes nothing; a real change lays out chart, bar, timeline, dates and checkboxes for the width, makes the view Valid, and jumps the scale to its target |
| ChartWidget.ChartView.Resize | app/src/main/java/com/filenkov/tgchart/ChartView.java:305-334 | the layout for the new width, a Valid view, and a scale at its target |
| ChartWidget.ChartView.SettleSelection | app/src/main/java/com/filenkov/tgchart/ChartView.java:333-334 | onSelectionChanged followed by the jump leaves a Valid view with the scale at its target |
| ChartWidget.ChartView.JumpScale | app/src/main/java/com/filenkov/tgchart/ChartView.java:334 | the current scale becomes the target |
| ChartWidget.ChartView.LayOut | app/src/main/java/com/filenkov/tgchart/ChartView.java:305-332 | the bar spreads the points evenly so the last one is on the right edge, the checkboxes are evenly spaced, and the bounds follow the width |
| ChartWidget.ChartView.FindCheckbox | app/src/main/java/com/filenkov/tgchart/ChartView.java:741-751 | the checkbox loop finds a checkbox exactly when the touch hits one, and then the only one hit |
| ChartWidget.ChartView.GrabFrame | app/src/main/java/com/filenkov/tgchart/ChartView.java:723-736 | DOWN on the bar starts the gesture of the zone it lands in, anchoring a body move at x |
| ChartWidget.ChartView.ArmCheckbox | app/src/main/java/com/filenkov/tgchart/ChartView.java:739-752 | DOWN below the bar is consumed exactly when it hits a checkbox, and then arms that checkbox |
| ChartWidget.ChartView.StartScrub | app/src/main/java/com/filenkov/tgchart/ChartView.java:715-716 | DOWN on the chart starts scrubbing at chartI(x) |
| ChartWidget.ChartView.Scrub | app/src/main/java/com/filenkov/tgchart/ChartView.java:760 | the scrubbed index follows the finger |
| ChartWidget.ChartView.ChartDown | app/src/main/java/com/filenkov/tgchart/ChartView.java:713-718 | the chart band of DOWN, as DownHandled states it |
| ChartWidget.ChartView.BarDown | app/src/main/java/com/filenkov/tgchart/ChartView.java:720-737 | the bar band of DOWN, as DownHandled states it |
| ChartWidget.ChartView.CheckboxDown | app/src/main/java/com/filenkov/tgchart/ChartView.java:739-753 | the checkbox band of DOWN, as DownHandled states it |
| ChartWidget.ChartView.TouchDown | app/src/main/java/com/filenkov/tgchart/ChartView.java:712-753 | DOWN starts at most one gesture, chosen by the band the touch lands in: a bar touch outside the frame's zones, or a touch that misses every checkbox, starts none. It leaves the other gestures alone, and from no gesture leaves at most one in progress. The selection, the values derived from it and the series flags are kept |
| ChartWidget.ChartView.ScrubMove | app/src/main/java/com/filenkov/tgchart/ChartView.java:756-761 | the scrub branch of MOVE, as MoveHandled states it |
| ChartWidget.ChartView.MoveFrame | app/src/main/java/com/filenkov/tgchart/ChartView.java:763-777 | a finger less than one step from the anchor changes nothing; otherwise the anchor follows it, and the frame moves by whole steps keeping its width when both edges stay inside the bar. A move records the previous chartMax in oldChartMax; when the frame stays, oldChartMax is kept |
| ChartWidget.ChartView.ShiftFrame | app/src/main/java/com/filenkov/tgchart/ChartView.java:772-776 | both edges go to barI of their shifted positions, the width is kept, the start moves in the direction of the finger, and oldChartMax records the previous chartMax |
| ChartWidget.ChartView.SetMoveAnchor | app/src/main/java/com/filenkov/tgchart/ChartView.java:777 | the move anchor becomes the finger's x |
| ChartWidget.ChartView.Select | app/src/main/java/com/filenkov/tgchart/ChartView.java:773-774 | the selection becomes the given indices |
| ChartWidget.ChartView.DragLeftEdge | app/src/main/java/com/filenkov/tgchart/ChartView.java:779-784 | the start goes to barI(x), the selection keeps at least two intervals unless it starts at 0, and oldChartMax records the previous chartMax |
| ChartWidget.ChartView.DragRightEdge | app/src/main/java/com/filenkov/tgchart/ChartView.java:786-791 | the end goes to barI(x), the selection keeps at least two intervals unless it ends at the last index, and oldChartMax records the previous chartMax |
| ChartWidget.ChartView.FrameMove | app/src/main/java/com/filenkov/tgchart/ChartView.java:763-777 | the frame-move branch of MOVE, as MoveHandled states it (including oldChartMax); the gesture modes and the series flags are kept |
| ChartWidget.ChartView.LeftEdgeMove | app/src/main/java/com/filenkov/tgchart/ChartView.java:779-784 | the left-edge branch of MOVE, as MoveHandled states it (including oldChartMax); the gesture modes and the series flags are kept |
| ChartWidget.ChartView.RightEdgeMove | app/src/main/java/com/filenkov/tgchart/ChartView.java:786-791 | the right-edge branch of MOVE, as MoveHandled states it (including oldChartMax); the gesture modes and the series flags are kept |
| ChartWidget.ChartView.TouchMove | app/src/main/java/com/filenkov/tgchart/ChartView.java:755-794 | MOVE is always consumed; it scrubs, moves the frame or drags an edge by precedence of the gestures, and otherwise keeps the selection. oldChartMax records the previous chartMax exactly when the selection is recomputed, and is kept otherwise. The gesture modes, the armed checkbox and the series flags are kept |
| ChartWidget.ChartView.EndGestures | app/src/main/java/com/filenkov/tgchart/ChartView.java:798-805 | every gesture ends and the view stays Valid |
| ChartWidget.ChartView.ClearModes | app/src/main/java/com/filenkov/tgchart/ChartView.java:798-805 | all four gesture modes and the checkbox mode are cleared |
| ChartWidget.ChartView.ReleaseCheckbox | app/src/main/java/com/filenkov/tgchart/ChartView.java:802-804 | a checkbox touch ending with UP flips exactly that series; otherwise no series changes |
| ChartWidget.ChartView.TouchUp | app/src/main/java/com/filenkov/tgchart/ChartView.java:796-807 | UP and CANCEL end every gesture, flip the armed series only on UP, keep the view Valid and pass the event on. The selection, the scrub index, the move anchor and the armed index are kept, and oldChartMax records the previous chartMax |
| ChartWidget.ChartView.OnTouchEvent | app/src/main/java/com/filenkov/tgchart/ChartView.java:708-811 | the dispatch keeps the view Valid and does, per action, what TouchDown, TouchMove and TouchUp state, including which fields each action keeps; any other action changes neither the view nor the series flags |
| ChartWidget.ChartView.Tick | app/src/main/java/com/filenkov/tgchart/ChartView.java:834-860 | every alpha takes one fade step, the scale one step toward its target, and the runnable reschedules exactly when something changed, that is, when some alpha or the scale was not yet at its target |
| ChartWidget.ChartView.FadeSeries | app/src/main/java/com/filenkov/tgchart/ChartView.java:836-844 | every alpha takes one fade step, and the loop reports a change exactly when some alpha changed |
| ChartWidget.ChartView.DrawDates | app/src/main/java/com/filenkov/tgchart/ChartView.java:574-586 | the label loop draws exactly the labels DateLabels specifies, each at an in-bounds multiple of the stride |

## Left out

- Drawing is not modelled: Canvas, Paint, Path, `prepareDrawStatic`, `prepareDrawDynamic`, `buildSelectionPathes`, `onDraw` and the draw helpers, and `invalidate`. These only render through library calls.
- Scheduling is not modelled: `Handler.postDelayed`, `removeCallbacksAndMessages`, `lastDrawTimeNs` and `onDestroy`. The tick is a method that returns `repeat`.
- The width of a date label (`measureText`) is a parameter of `OnSizeChanged`. Date strings (`SimpleDateFormat`) and the `dates` array are not modelled.
- `drawDates` computes `stepPower` with `Math.log`/`Math.pow`. It is a parameter of `DrawDates`.
- The label alpha formula of `drawDates` is not modelled, because it is floating point. Only which labels are opaque is modelled.
- Float precision, NaN and Infinity are not modelled. Pixels are exact reals, and Valid excludes zero steps.
- ChartWidget.ChartView.BarY: requires `barMax != 0`. For an all-zero chart Java's `barY` divides `0f` by 0 and yields NaN, which reals cannot represent.
- Geometry.Round: does not model `Math.round`'s saturation at the int range, because pixel positions divided by a positive step stay far inside it.
- `Color.parseColor` and the `org.json` accessors are not modelled, and nor are their type errors. Colours are ints already parsed, so a colour string `Color.parseColor` rejects (for example `"#12"`, ChartData.java:60) and its `IllegalArgumentException` are not modelled. JSON numbers are assumed to be integers: `getInt` and `getLong` (ChartData.java:45, 52) truncate a fractional value such as 1.5, which a column of `int`s cannot hold. JSON longs are unbounded ints.
- Common.Int32Of: JSON integers are assumed to fit a long. Beyond that, `org.json` parses a double and `getInt` saturates instead of wrapping, so the congruence modulo 2^32 does not hold there.
- Empty column arrays are not modelled: a column is a label followed by its values. In Java, an empty first column makes `valuesCount` -1, so `new int[graphsCount][-1]` (ChartData.java:33) throws `NegativeArraySizeException`, since every dimension is checked even when `graphsCount` is 0; an empty later column makes `getString(0)` throw.
- MainActivity is not part of this model. Neither are `onMeasure`, `requestDisallowInterceptTouchEvent`, or the result of `super.onTouchEvent` (it becomes `PassedToSuper`).
- ChartWidget.ChartView.SetChartData: requires at least two points, and installs the corrected default selection of the finding below instead of the written one.
- ChartWidget.ChartView.OnSizeChanged: requires a loaded chart with at least one series and a width wider than both paddings. Before `setChartData` the Java fields are null, and `namesWidthes[0]` throws with no series.
- ChartWidget.ChartView.Tick: requires a Valid view, that is, one laid out by `onSizeChanged`.
- `barMax` is recomputed only by `setChartData`, as written. Toggling a series changes the window maximum but not `barMax` or `scaleStep`.
- The "whole range" branch of `onSelectionChanged` compares `selectionEnd` with `valuesCount`. It is modelled as written, and `WholeRangeBranchUnreachable` shows that a valid view never takes it.
- ChartWidget.ChartView.ApplyNewValuesWithAnimation: models only the call to `onSelectionChanged`; the redraw and the rescheduling are left out as above.
- Each branch of the DOWN, MOVE and UP handlers is its own method, so that every branch is proved on its own. The dispatch order and the conditions are those of `onTouchEvent`.
- ChartRules.DateLabelsInBounds: requires `selectionStart >= 0`, which every valid view guarantees.

## Findings

| source | as written | input that shows it | evidently intended | confidence | as-written member | corrected member |
|---|---|---|---|---|---|---|
| app/src/main/java/com/filenkov/tgchart/ChartView.java:273-274 | `selectionStart = valuesCount - 31` whatever the number of points | a chart of 20 points gives the selection [-11, 19]; `onSelectionChanged` then reads `graphs[i][-11]` and throws | select the last 30 intervals, or the whole chart when it has fewer | not executed | ChartRules.DefaultSelectionAsWrittenUnderflows | ChartRules.DefaultSelection |
