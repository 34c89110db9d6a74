# react-chart-libraries: the sample store and its derived views, in Dafny

The application compares several chart libraries that all plot one stream of
power samples `(timestamp, value)`. Everything the charts plot comes from a
small Redux store and a few derived views. This project models that logic and
proves its properties:

- **The sample log** (`SampleReducer`, `SampleAction`). `ADD_SAMPLE` appends a
  batch. `SET_SAMPLES` replaces the log with its payload, or with the empty log
  when the payload is missing.
- **The settings** (`SettingsReducer`, `SettingsAction`). These are the time
  range in seconds, the page and the curve, with defaults 120, home and
  monotone.
- **The root reducer** (`AppReducer`). It feeds every action to both slices.
  `DispatchAll` replays a sequence of actions. The projections of the settings
  are in `SettingsSelector`.
- **The windowing pipeline** (`SamplesSelector`).
  - It sorts the stored log in place, by timestamp (`ArraySort.SortBy`, a
    stable insertion sort on an `array`).
  - It keeps the samples with `timestamp >= now - range*1000`.
  - It derives the time-axis domain `[max - range*1000, max]`.
- **The zoom/brush state machines** of the two revised charts
  (`RechartRevised`, `VisxRevise`). Both share `ZoomDomain`: the committed zoom
  box, the inclusive time filter and the value extent.
  - Each is a pure transition function per event, plus a class whose fields are
    the chart's state cells. Each handler is proved to move the fields exactly
    as the transition function does, and to keep the zoom well formed.
- **Data shaping in the renderers.**
  - The Apex series: sort a fresh copy, keep the last `MAX_READS` points.
  - The multi-line chart: the series map and the legend toggle.
  - The controls: the populate loop, one-sample append and the select
    fallbacks.
  - The constant tables of `chartOptions.ts`.
- **The numeric and text helpers of `utils.ts`.** These are `clamp`, `map`,
  `clampNumber`, `formatLatestTime`, the text logic of `forcePrecision`,
  `getUnits`, `getSIDisplayUnits` and `format`.

## How the model is built

- **Types.** A `Sample` has an integer timestamp in milliseconds and a real
  value. Values, zoom bounds and the helpers' numbers are `real`. Timestamps,
  time ranges and pixel positions are `int`.
- **Actions.** An action is `Action(kind: string, payload: Payload)`. Each
  slice reducer requires what the TypeScript types promise for its own tags.
  For example, an `ADD_SAMPLE` action carries a sample batch (`SampleAction.Typed`).
- **Redux's "undefined state".** A reducer's default parameter is an
  `Option`. `None` stands for the undefined state Redux starts from.
- **Parameters for what the code cannot compute itself.** The clock
  (`Date.now()`), random draws (`Math.random()`), the d3 scale inversion
  (`xScale.invert`), `Number.prototype.toString` and the trigonometric series
  are all parameters.
- **Selectors** are plain functions and methods of `(log, range, now)`.
  `reselect`'s memoisation is not modelled.
- **The empty window.** When nothing is in range the time-axis domain is
  `[-range*1000, 0]`: `maxTime || 0` falls back to 0 and the minimum is
  recomputed from it (`SamplesSelector.SampleDomain`).

## Model

| member | source | states |
|---|---|---|
| SampleAction.AddSample | src/store/samples.action.ts:14-17 | the action is tagged ADD_SAMPLE and carries the batch unchanged, for every batch including the empty one |
| SampleAction.SaveSamples | src/store/samples.action.ts:24-27 | the action is tagged SET_SAMPLES (not ADD_SAMPLE) and carries the batch unchanged |
| SampleAction.TagsDistinct | src/store/samples.action.ts:5-6 | the append and replace tags differ |
| SampleAction.ConstructorsInjective | src/store/samples.action.ts:14-27 | equal actions come from equal batches, and an append action is never a replace action |
| SampleReducer.Reduce | src/store/samples.reducer.ts:24-33 | `ADD_SAMPLE` keeps the old log (the empty log when undefined) as prefix and the batch behind it; `SET_SAMPLES` gives the payload or the empty log whatever the prior log; any other tag keeps the log |
| SampleReducer.SamplesReducer | src/store/samples.reducer.ts:35-37 | the slice's one field is the log reducer's result, the undefined slice acting as the empty log |
| SampleReducer.AddSample | src/store/samples.reducer.ts:20 | the result is the old log followed by the batch: lengths add, the old log is a prefix, multisets add (duplicates kept) |
| SampleReducer.SetSamples | src/store/samples.reducer.ts:22 | the result is the payload, or the empty log when the payload is absent |
| SampleReducer.AppendExtends | src/store/samples.reducer.ts:24-27 | dispatching ADD_SAMPLE yields `log + batch`, keeps the old log as prefix and adds the multisets |
| SampleReducer.ReplaceIgnoresPriorAndIsIdempotent | src/store/samples.reducer.ts:28-29 | dispatching SET_SAMPLES yields the batch whatever the prior log; doing it twice equals once |
| SampleReducer.OtherActionsKeepLog | src/store/samples.reducer.ts:15-31 | any other tag leaves the log unchanged; the initial log is empty |
| SampleReducer.AppendsAccumulate | src/store/samples.reducer.ts:20 | two single-sample appends store both samples, in order, behind the old log |
| SettingsAction.SetTimeRange | src/store/settings.action.ts:15-18 | tagged SET_TIME_RANGE with the seconds as payload |
| SettingsAction.SetPage | src/store/settings.action.ts:25-28 | tagged SET_PAGE with the page as payload |
| SettingsAction.SetCurve | src/store/settings.action.ts:35-38 | tagged SET_CURVE with the curve as payload |
| SettingsAction.TagsDistinct | src/store/settings.action.ts:5-7 | the three tags are pairwise distinct |
| SettingsReducer.TimeRangeReducer | src/store/settings.reducer.ts:25-32 | `SET_TIME_RANGE` stores its payload; any other tag keeps the state, 120 when undefined |
| SettingsReducer.PageReducer | src/store/settings.reducer.ts:36-43 | `SET_PAGE` stores its payload; any other tag keeps the state, home when undefined |
| SettingsReducer.CurveReducer | src/store/settings.reducer.ts:47-54 | `SET_CURVE` stores its payload; any other tag keeps the state, monotone when undefined |
| SettingsReducer.SettingsReducer | src/store/settings.reducer.ts:56-60 | each setter replaces only its own field of the state (the defaults when undefined); any other tag keeps the state |
| SettingsReducer.SettersChangeOnlyTheirField | src/store/settings.reducer.ts:23-60 | each setter stores its payload verbatim and leaves the other two fields unchanged |
| SettingsReducer.SettersIdempotent | src/store/settings.reducer.ts:23-54 | applying a setter twice equals applying it once |
| SettingsReducer.DefaultsAndOtherActions | src/store/settings.reducer.ts:15-54 | the initial state is (120, home, monotone); another tag leaves the state unchanged |
| AppReducer.Reduce | src/store/store.ts:16-19 | an action that is not a settings action leaves the settings slice unchanged, and one that is not a sample action leaves the samples slice unchanged |
| AppReducer.DispatchAll | src/store/store.ts:16-19 | replaying actions none of which is a settings (sample) action leaves the settings (samples) slice unchanged |
| AppReducer.SlicesIndependent | src/store/store.ts:16-19 | a slice changes only under its own actions |
| AppReducer.InitialState | src/store/store.ts:16-19 | from the undefined state the root state is the empty log with the default settings |
| AppReducer.SampleActionsKeepSettings | src/store/store.ts:16-19 | a sample action leaves the settings slice unchanged and the samples slice is the log reducer's result |
| AppReducer.SettingsActionsKeepSamples | src/store/store.ts:16-19 | a settings action leaves the samples slice unchanged |
| AppReducer.OtherActionsKeepState | src/store/store.ts:16-19 | an unrecognised action leaves the whole state unchanged |
| AppReducer.ClearThenReplace | src/charts/ChartControls.tsx:33-46 | dispatching clear-then-replace leaves exactly the batch, settings untouched |
| AppReducer.AppendOne | src/charts/ChartControls.tsx:15-21 | dispatching a one-sample append grows the log by exactly that sample, settings untouched |
| SettingsSelector.SelectTimeRange | src/store/settings.selector.ts:4 | storing the time range just read back leaves the whole state unchanged |
| SettingsSelector.SelectPage | src/store/settings.selector.ts:6 | storing the page just read back leaves the whole state unchanged |
| SettingsSelector.SelectCurve | src/store/settings.selector.ts:8 | storing the curve just read back leaves the whole state unchanged |
| SettingsSelector.SelectAfterSet | src/store/settings.selector.ts:4-8 | each selector reads back the value its setter stored |
| SettingsSelector.SampleActionsInvisible | src/store/settings.selector.ts:4-8 | no sample action changes what the three selectors return |
| ArraySort.SortBy | src/store/samples.selector.ts:11 | the array ends sorted by the key and is a permutation of its old contents (multiset equal, and each position traced to a distinct old one); elements with equal keys keep their relative order |
| SamplesSelector.SelectSamplesSorted | src/store/samples.selector.ts:9-12 | the stored log is reordered in place, non-decreasing by timestamp, same multiset; samples with equal timestamps keep their order |
| SamplesSelector.InRange | src/store/samples.selector.ts:17 | a sample is kept iff its timestamp is at or after `now - range*1000`; the result is a sub-multiset |
| SamplesSelector.InRangeCounts | src/store/samples.selector.ts:17 | each sample in the window is kept as many times as it occurs in the log; none outside is kept |
| SamplesSelector.InRangeConcat | src/store/samples.selector.ts:17 | filtering a concatenation is concatenating the filtered parts, so the filter keeps the log's order |
| SamplesSelector.InRangeSingle | src/store/samples.selector.ts:17 | a single sample is kept exactly when it is at or after the window start |
| SamplesSelector.InRangeSorted | src/store/samples.selector.ts:14-18 | filtering a sorted log gives a sorted list |
| SamplesSelector.InRangeKeepsAll | src/store/samples.selector.ts:17 | when all samples are inside the window, all are kept, in order |
| SamplesSelector.InRangeOfSortedIsSuffix | src/store/samples.selector.ts:14-18 | on a sorted log the in-range list is a suffix of it, hence an order-preserving subsequence |
| SamplesSelector.WindowBoundary | src/store/samples.selector.ts:17 | the window start is included, one millisecond earlier excluded |
| SamplesSelector.MaxTimestamp | src/store/samples.selector.ts:24 | the upper end of the extent is a timestamp of the list and bounds all of them |
| SamplesSelector.SampleDomain | src/store/samples.selector.ts:20-29 | the domain is always `range*1000` wide; it ends at the largest timestamp, or at 0 (giving `[-range*1000, 0]`) when the list is empty |
| SamplesSelector.DomainEndsAtLast | src/store/samples.selector.ts:24-25 | for a sorted non-empty list the domain ends at its last timestamp |
| SamplesSelector.SelectSamplesInRange | src/store/samples.selector.ts:14-18 | sorts the log in place; the result is the window of the sorted log, sorted, a suffix of it, with membership iff in the old log and in the window |
| SamplesSelector.SelectSampleDomain | src/store/samples.selector.ts:20-29 | sorts the log in place and returns the domain of its window, `range*1000` wide |
| ChartOptions.TimeRangeOptionsOrdered | src/charts/chartOptions.ts:8-45 | the option values are positive and strictly increasing, and include 300 and 120 |
| ChartOptions.AxisAndCapBounds | src/charts/chartOptions.ts:5-7 | `Y_MIN < Y_MAX`, `MAX_READS` is 300 |
| ChartOptions.CurveTypesComplete | src/charts/chartOptions.ts:47 | the curve list holds every curve exactly once |
| ZoomDomain.Between | src/charts/RechartRevised.tsx:34 | a sample is kept iff its timestamp lies in `[fromX, toX]`, both ends included |
| ZoomDomain.BetweenCounts | src/charts/RechartRevised.tsx:34 | each sample inside `[fromX, toX]` is kept as many times as it occurs; none outside is kept |
| ZoomDomain.BetweenConcat | src/charts/RechartRevised.tsx:34 | filtering a concatenation is concatenating the filtered parts, so the filter keeps the input order |
| ZoomDomain.BetweenSingle | src/charts/RechartRevised.tsx:34 | a single sample is kept exactly when its timestamp lies in `[fromX, toX]` |
| ZoomDomain.MinValue | src/charts/RechartRevised.tsx:35 | the lower end of the extent is a value of the list and bounds all of them |
| ZoomDomain.MaxValue | src/charts/RechartRevised.tsx:35 | the upper end of the extent is a value of the list and bounds all of them |
| ZoomDomain.AxisYDomain | src/charts/RechartRevised.tsx:33-37 | `[min, max]` of the values inside `[fromX, toX]`, both attained, `[0, 0]` when none is inside |
| ZoomDomain.Commit | src/charts/RechartRevised.tsx:52-56 | the committed box spans the given time range, and its bottom and top are exactly the value extent over `[fromX, toX]` widened by 20, so it covers every selected value and is at least 40 tall |
| RechartRevised.LabelOf | src/charts/RechartRevised.tsx:76 | `activeLabel \|\| ''`: a label is set iff one is present and non-zero |
| RechartRevised.MouseDown | src/charts/RechartRevised.tsx:76 | mouse-down sets the left end and changes nothing else |
| RechartRevised.MouseMove | src/charts/RechartRevised.tsx:77 | mouse-move sets the right end only while the left end is set |
| RechartRevised.Rejects | src/charts/RechartRevised.tsx:42 | a release is accepted exactly when the right end is set and the left end is strictly before it |
| RechartRevised.Zoom | src/charts/RechartRevised.tsx:39-57 | both ends clear; a rejected drag keeps the zoom; an accepted one commits `[left, right]` and the padded value extent inside it, well formed |
| RechartRevised.ZoomOut | src/charts/RechartRevised.tsx:59-63 | zoom-out returns the initial state |
| RechartRevised.XDomain | src/charts/RechartRevised.tsx:92 | the x domain is the zoom's time range, else the pipeline domain |
| RechartRevised.YDomain | src/charts/RechartRevised.tsx:98 | the y domain is the zoom's value range, else `[Y_MIN, Y_MAX]`; in a valid state it is a proper interval |
| RechartRevised.InvalidReleaseDiscarded | src/charts/RechartRevised.tsx:42-46 | an inverted, equal or right-unset drag clears both ends and keeps the zoom |
| RechartRevised.SwapIsDead | src/charts/RechartRevised.tsx:49 | past the guard the left end is strictly before the right end, so the swap never fires |
| RechartRevised.CommitExample | src/charts/RechartRevised.tsx:33-56 | samples (0,100), (1000,200), (2000,300) dragged over [500,1500] commit bottom 180 and top 220 |
| RechartRevised.UnsetLeftReadsAsZero | src/charts/RechartRevised.tsx:42 | an unset left end with a set right end passes the guard and zooms to `[0, right]` |
| RechartRevised.ShowsReferenceArea | src/charts/RechartRevised.tsx:114 | in a valid state the reference area is drawn exactly when both ends hold a non-zero (truthy) label |
| RechartRevised.ReferenceAreaFollowsDrag | src/charts/RechartRevised.tsx:114 | after a mouse-down and a move the reference area is drawn exactly when both reported labels are present and non-zero; a release and a zoom-out hide it |
| RechartRevised.ZoomOutIdempotent | src/charts/RechartRevised.tsx:59-63 | zooming out twice equals once |
| RechartRevised.RechartRevisedChart.constructor | src/charts/RechartRevised.tsx:29-31 | the state cells start unset, with no zoom |
| RechartRevised.RechartRevisedChart.OnMouseDown | src/charts/RechartRevised.tsx:76 | the fields move as `MouseDown` says; validity is kept |
| RechartRevised.RechartRevisedChart.OnMouseMove | src/charts/RechartRevised.tsx:77 | the fields move as `MouseMove` says; validity is kept |
| RechartRevised.RechartRevisedChart.OnMouseUp | src/charts/RechartRevised.tsx:39-57 | the fields move as `Zoom` says; validity is kept |
| RechartRevised.RechartRevisedChart.OnZoomOut | src/charts/RechartRevised.tsx:59-63 | the fields return to the initial state |
| VisxRevise.MouseDown | src/charts/VisxRevise.tsx:147 | mouse-down sets the left end to `clientX \|\| 0` and nothing else |
| VisxRevise.MouseMove | src/charts/VisxRevise.tsx:148 | mouse-move sets the right end only while the left end is not -1 |
| VisxRevise.Rejects | src/charts/VisxRevise.tsx:104 | a release is accepted exactly when the inverted left end is strictly before the inverted right end and the latter is not -1 |
| VisxRevise.Release | src/charts/VisxRevise.tsx:100-129 | both ends reset to -1; a rejected drag changes nothing else; an accepted one commits the inverted range with the extent over the given range, scales matching |
| VisxRevise.ZoomAsWritten | src/charts/VisxRevise.tsx:114 | as written, the committed value range is the extent over the raw pixel positions, padded by 20 |
| VisxRevise.Zoom | src/charts/VisxRevise.tsx:100-129 | a rejected drag (`inv(left) >= inv(right)` or `inv(right) == -1`) resets the ends and keeps the zoom; an accepted one commits `[inv(left), inv(right)]`, its bottom and top exactly the value extent over that range widened by 20 (so -20/20 when no sample is inside) |
| VisxRevise.ZoomOut | src/charts/VisxRevise.tsx:131-135 | the ends reset to -1 and the zoom to null; the zoomed scales keep their values |
| VisxRevise.ZoomedData | src/charts/VisxRevise.tsx:175 | while zoomed, a sample is plotted iff it lies in the zoom's time range; otherwise all samples are |
| VisxRevise.YAxisDomain | src/charts/VisxRevise.tsx:153 | the value axis is the zoomed scale while zoomed, else `[Y_MIN, Y_MAX]`; in a valid state a proper interval |
| VisxRevise.ShowsSelection | src/charts/VisxRevise.tsx:182 | the selection rectangle is drawn exactly when both ends are set (not -1) and it has positive width |
| VisxRevise.SelectionFollowsDrag | src/charts/VisxRevise.tsx:147-148 | after a mouse-down at a set position and a move, the rectangle is drawn exactly when the move lands at a set position right of the start; a release (as written or corrected) and a zoom-out hide it |
| VisxRevise.SwapIsDead | src/charts/VisxRevise.tsx:111 | past the guard the inverted left end is strictly before the right one, and the x scale spans exactly them |
| VisxRevise.PixelExtentMissesSelection | src/charts/VisxRevise.tsx:114 | a 500 W sample inside the selected times gives value range [-20, 20] as written and [480, 520] corrected |
| VisxRevise.VisxReviseChart.constructor | src/charts/VisxRevise.tsx:36-40 | the state cells start at -1, with no zoom and no zoomed scales |
| VisxRevise.VisxReviseChart.OnMouseDown | src/charts/VisxRevise.tsx:147 | the fields move as `MouseDown` says; validity is kept |
| VisxRevise.VisxReviseChart.OnMouseMove | src/charts/VisxRevise.tsx:148 | the fields move as `MouseMove` says; validity is kept |
| VisxRevise.VisxReviseChart.OnMouseUp | src/charts/VisxRevise.tsx:100-129 | the fields move as the corrected `Zoom` says; validity is kept |
| VisxRevise.VisxReviseChart.OnZoomOut | src/charts/VisxRevise.tsx:131-135 | the fields move as `ZoomOut` says; validity is kept |
| ApexChart.Points | src/charts/ApexChart.tsx:114 | one point per sample, in order, `x` the timestamp and `y` the value |
| ApexChart.SortedSuffixIsLatest | src/charts/ApexChart.tsx:118 | a suffix of a sorted list is drawn from it and no point before it is later than a point in it |
| ApexChart.SortedCopy | src/charts/ApexChart.tsx:115 | the copy is sorted by x, has the points' multiset, and is a stable rearrangement of them |
| ApexChart.MostRecentSorted | src/charts/ApexChart.tsx:114-118 | the result is sorted by x, `min(n, MAX_READS)` long, drawn from the points, and no dropped point is later than a kept one; it is the tail of the stable sort, so among equal x the later points are kept |
| ApexChart.XAxisTitle | src/charts/ApexChart.tsx:33 | the title starts with "Last ", reads back as the range, and ends in " Minutes" exactly when the range divides by 60; it is exactly the `formatLatestTime` text |
| ApexChart.ApexChartView.constructor | src/charts/ApexChart.tsx:99 | the series starts as "Real Power" with no data |
| ApexChart.ApexChartView.OnSamplesChanged | src/charts/ApexChart.tsx:108-122 | an empty list leaves the series unchanged; otherwise the name is kept and the data are the most recent `MAX_READS` points, sorted |
| MultiLineRechart.InitialConfigsShape | src/charts/MultiLineRechart.tsx:30-49 | three configs, distinct types, all active |
| MultiLineRechart.GenerateMultiSamplesFromPower | src/charts/MultiLineRechart.tsx:64-76 | same length and timestamps in order, `realPower` the sample value, the synthetic series from the given functions |
| MultiLineRechart.ToggleLegend | src/charts/MultiLineRechart.tsx:87 | `active` flips exactly on configs of the clicked type; length, order, type, name and stroke are kept |
| MultiLineRechart.ToggleTwiceRestores | src/charts/MultiLineRechart.tsx:87 | clicking the same entry twice restores the configs |
| MultiLineRechart.MultiLineRechartView.constructor | src/charts/MultiLineRechart.tsx:53-57 | no points, the initial configs |
| MultiLineRechart.MultiLineRechartView.OnSamplesChanged | src/charts/MultiLineRechart.tsx:78-83 | the points are the generated series, empty for an empty list; configs unchanged |
| MultiLineRechart.MultiLineRechartView.HandleLegendClick | src/charts/MultiLineRechart.tsx:85-88 | the configs become the toggled configs; points unchanged |
| ChartControls.PopulateChart | src/charts/ChartControls.tsx:33-46 | dispatches the empty replace, then a replace whose batch has `ceil(range/2)` samples, sample `i` at `time - 2000*i` with the `i`-th draw |
| ChartControls.PopulatedBatchInWindow | src/charts/ChartControls.tsx:38-41 | the generated timestamps strictly decrease and all lie in `(time - range*1000, time]` |
| ChartControls.PopulatedLogIsInRange | src/charts/ChartControls.tsx:33-46 | after the two dispatches the log is exactly the batch, settings untouched, and the window at `time` keeps all of it |
| ChartControls.PointCount | src/charts/ChartControls.tsx:38 | the loop runs the least number of times `n` with `2n >= range`: `ceil(range/2)`, none for a non-positive range |
| ChartControls.PopulateCountExample | src/charts/ChartControls.tsx:38 | 300 seconds give 150 samples, 301 give 151, 0 give none |
| ChartControls.AddSample | src/charts/ChartControls.tsx:15-21 | an append action carrying exactly one sample, stamped with the current time |
| ChartControls.TimeRangeFromSelect | src/charts/ChartControls.tsx:72 | NaN and 0 fall back to 300; every other number passes, negatives included |
| ChartControls.OptionsPassThrough | src/charts/ChartControls.tsx:72-73 | every listed option passes the fallback unchanged |
| ChartControls.CurveFromSelect | src/charts/ChartControls.tsx:88 | a text that is not a curve name falls back to monotone |
| ChartControls.CurveRoundTrip | src/charts/ChartControls.tsx:83-89 | each curve's option text selects that same curve |
| Utils.Clamp | src/charts/utils.ts:4-6 | the result is `min` when the input is below `min`, `max` when it is not below `min` but above `max`, else the input; with `min <= max` it lies in `[min, max]` |
| Utils.ClampIdempotent | src/charts/utils.ts:4-6 | clamping twice equals clamping once |
| Utils.Map | src/charts/utils.ts:8-11 | the linear rescale passed through `clamp`: the mapped value when it lies in `[out_min, out_max]`, otherwise the bound `clamp` picks; with `out_min <= out_max` the result lies in that interval |
| Utils.ClampNumber | src/charts/utils.ts:93-95 | the result lies between `min(a,b)` and `max(a,b)`, with the bounds defaulting to `∓MAX_VALUE`: the number (small ones forced to 0) when inside, the lower bound below, the upper bound above |
| Utils.ClampNumberSymmetric | src/charts/utils.ts:93-95 | the argument order of the bounds does not matter |
| Utils.FormatLatestTime | src/charts/utils.ts:43 | "Last ", then the number of minutes and " Minutes" when the seconds divide by 60, else the seconds and " Seconds" |
| Utils.LatestTimeRoundTrip | src/charts/utils.ts:43 | the label reads back as the seconds, and ends in "Minutes" iff the seconds divide by 60 |
| Utils.LatestTimeExamples | src/charts/utils.ts:43 | 120 gives "Last 2 Minutes", 90 gives "Last 90 Seconds" |
| Utils.Repeat | src/charts/utils.ts:70 | `'0'.repeat(n)`: n copies of the character |
| Utils.LastIndexOf | src/charts/utils.ts:74 | the last position of the character, or -1 when it does not occur |
| Utils.WithPoint | src/charts/utils.ts:74-79 | the text gains a '.' at its end only when it has none |
| Utils.ForcePrecisionText | src/charts/utils.ts:74-90 | exactly `precision` characters follow the last '.'; the result is a prefix of the dotted text or it padded with '0's, and keeps it up to the '.' |
| Utils.ForcePrecisionTextIdempotent | src/charts/utils.ts:74-90 | forcing the same precision twice equals once |
| Utils.ForcePrecision | src/charts/utils.ts:68-91 | zero gives "0" or "0." and `precision` zeros; any other number gives `ForcePrecisionText` of its text; with `precision > 0` exactly that many digits follow the '.' |
| Utils.PrecisionZeroKeepsPoint | src/charts/utils.ts:68-91 | precision 0 gives "0" for zero but "5." for 5; truncation does not round ("2.75" to "2.7") and padding adds zeros |
| Utils.IsSimilarFloat | src/charts/utils.ts:97-99 | true exactly when the absolute difference is at most `EPSILON`; symmetric in its arguments |
| Utils.ForceSmallToZero | src/charts/utils.ts:101-103 | the result is 0 exactly for numbers within `EPSILON` of 0; any other number is returned unchanged |
| Utils.Factor | src/charts/utils.ts:44-49 | every prefix factor is positive |
| Utils.Convert | src/charts/utils.ts:64-66 | the converted value times the current factor equals the value times the desired factor |
| Utils.GetSIDisplayUnits | src/charts/utils.ts:126-136 | a symbol of at most one character, empty exactly for no prefix |
| Utils.GetUnits | src/charts/utils.ts:119-124 | empty iff the units are absent or empty; otherwise the space (unless `spaceBeforeUnit` is false), then the SI symbol of the desired prefix (none by default), then the units |
| Utils.PrecisionOf | src/charts/utils.ts:116 | a missing or zero precision gives the default 2; any other precision is used as given |
| Utils.Format | src/charts/utils.ts:109-118 | undefined gives "-"; any value gives the forced-precision text of the converted, clamped number, followed by `getUnits` of the options |
| Utils.ZeroPrecisionIsDefault | src/charts/utils.ts:116 | precision 0 formats exactly as the default precision 2 |
| Utils.WattsToKiloUnits | src/charts/utils.ts:105 | `formatWattsToKilo` ends in " kW", and undefined gives "-" |

## Left out

- Rendering: every chart library, the JSX trees, tooltips, hover handlers,
  animation and area/dot toggles, chart sizes and margins. These are calls
  into libraries whose code is not part of this model.
- `App.tsx`: the localStorage load and save, `JSON.parse`, page navigation and
  the save throttle. This is I/O. `resetSamples` writes localStorage and then
  dispatches the same empty replace that `SampleReducer.ReplaceIgnoresPriorAndIsIdempotent`
  covers; its storage write is not modelled.
- Timers: automatic sampling (`setInterval` / `clearInterval`) and the tooltip
  timeout. They belong to the event loop.
- `SamplesSelector.InRange`: reads the clock once per filter (`now` is a
  parameter). The source calls `Date.now()` inside the filter callback, once
  per sample; if the clock ticks mid-filter a later sample can be judged
  against a later window start, so the result need not be the suffix that
  `InRangeOfSortedIsSuffix` and `SelectSamplesInRange` state.
- `Date.now()`, `Math.random()`, `xScale.invert`, `Number.prototype.toString`
  and the trigonometry of the synthetic series are parameters, not computed.
- Luxon and `Date` time formatting (`getAsTimeWithSeconds`, `unixToLocaleTime`).
  These are library calls.
- d3's "nice" rounding of scale domains. The zoomed scales are kept as their
  exact domains.
- `reselect` memoisation and `useSelector`. Selectors are plain functions.
- `SampleReducer.Reduce`, `SettingsReducer.SettingsReducer`: they require the
  payload the TypeScript types promise. A JavaScript caller could pass
  `ADD_SAMPLE` with no batch, which would throw; that case is not modelled.
- `RechartRevised.LabelOf`: Recharts labels are taken to be integer
  timestamps. The source types them as strings and compares them with `>=`,
  which for strings of equal length orders as numbers.
- `ChartControls.CurveFromSelect`: texts that name members every JavaScript
  object inherits (such as "toString") are read as any other unknown text. In
  the source the lookup would return that inherited member.
- `ChartControls.TimeRangeFromSelect`: the input is a parsed integer or NaN;
  fractional numbers from `Number(...)` are not modelled.
- `Utils.Map`: requires `in_min != in_max`. With equal bounds JavaScript divides
  by zero and yields an infinity or NaN, which reals cannot express.
- `Utils.ForcePrecision`: takes the number's text as a parameter and a
  non-negative precision. `repeat` with a negative count throws, and the
  exponent form that `toString` uses for very large or small numbers is not
  modelled. The zero test uses `EPSILON` over exact reals.
- `Utils.Format`: the number text comes from the `toString` parameter, so its
  digits are stated only as `Utils.ForcePrecision` of that text.
- `Utils.ClampNumber`, `Utils.Convert`: exact real arithmetic, with no
  floating-point rounding.
- `VisxRevise.ZoomedData`: states membership in its own contract. The order
  and multiplicity of the plotted samples are stated about `ZoomDomain.Between`
  (`BetweenConcat`, `BetweenCounts`).

## Findings

| source | as written | input that shows it | evidently intended | confidence | as-written member | corrected member |
|---|---|---|---|---|---|---|
| src/charts/VisxRevise.tsx:114 | the value extent of a new zoom filters the samples by the raw pixel positions of the drag, comparing them with epoch-millisecond timestamps, so no sample matches and every zoom gets value range [-20, 20] | one sample (1700000000000, 500 W), drag from pixel 100 to 300, `invert(p) = 1699999800000 + 1000p`: committed bottom/top -20/20, though the sample lies inside the selected times | filter by the inverted times `[inv(left), inv(right)]`, as the Recharts variant does with its labels, giving 480/520 | high (not executed) | VisxRevise.ZoomAsWritten, VisxRevise.PixelExtentMissesSelection | VisxRevise.Zoom |
