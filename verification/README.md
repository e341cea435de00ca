# Wind-turbine power dashboard: selection, chart and range-sum gesture

This project models the client-side core of the WPI wind-power dashboard
(`WPI-MVP/js/main.js`). A user picks wind turbines on a map, either by clicking
or by drawing a polygon (the select-by-rectangle button). The page then asks a feature service for the
predicted output of those turbines, summed per `prediction_time`, and draws a line chart.
Every category tick of the chart carries a checkbox. Checking two ticks reports
the total output between them.

The model has five modules:

- `Text` covers the JavaScript built-ins the code relies on:
  - printing a whole number in decimal
  - `parseInt` on a run of digits
  - `indexOf` on arrays and strings
  - `substring` with its clamping and swapping of ends
  - `join`
  - the first match of `/(\d+)/`

  It also defines `Split`. The code never splits anything; `Split` stands in
  for the feature service reading back the id list that `join` wrote into
  the filter, and is the round-trip partner of that `join`.
- `Charts` covers what `createChart` builds. That is the title carrying the
  turbine count, the category labels `%m/%d/%Y %H:00`, the label formatter
  under each checkbox, and the series aligned with the categories.
- `RangeSum` covers `handleCheckboxClick`:
  - collecting the checked labels
  - resolving two labels to positions
  - the inclusive sum
  - the "too many ticks" error
  - unchecking every box
  - the runtime errors that abort the handler half-way
- `Query` covers the `turbine_id in (...)` filter sent with the aggregation
  query, and how it reads back.
- `Selection` is a state machine over the page state the handlers touch. Its
  events are:
  - `deselect`
  - `highlightAndCalculate`
  - the select-by-rectangle button, which starts a polygon sketch
  - the sketch completion
  - the close button
  - the aggregation response, or its failure
  - checkbox changes

Three behaviours of the code shape the model:

- **Turbine count.** The count in the title is the number of picked graphics.
  Repeats are counted; they are not removed.
- **Several queries in flight.** Nothing tags a query with the selection it
  belongs to. Several queries can be in flight, and each response is applied
  when it arrives. A late response therefore overwrites the chart of a newer
  selection (`Selection.LateResponseWins`). Closing the panel does not cancel
  a query either: its response opens the panel again
  (`Selection.CloseThenResponse`).
- **Query failure.** A failed query has no handler, so the loading indicator
  stays visible (`Selection.FailureLeavesLoadingVisible`).

## Model

| member | source | states |
|---|---|---|
| Text.NatToDecimal | WPI-MVP/js/main.js:236 | a count prints as a non-empty run of decimal digits with no leading zero unless it is 0 |
| Text.ParseNatToDecimal | WPI-MVP/js/main.js:216 | `parseInt` of a printed count gives the count back |
| Text.IndexOf | WPI-MVP/js/main.js:200-207 | `indexOf` returns -1 exactly when the item is absent, otherwise the position of its first occurrence |
| Text.IndexOfSub | WPI-MVP/js/main.js:256 | `indexOf` with a string needle returns -1 exactly when the needle does not occur, otherwise its first position |
| Text.ParseDecimal | WPI-MVP/js/main.js:216 | `parseInt` of a digit run is 0 exactly when every digit is 0 |
| Text.Substring | WPI-MVP/js/main.js:257-263 | `substring` gives the slice between its two ends in either order; an end past the text stops at the end, and a negative end counts as 0 |
| Text.Join | WPI-MVP/js/main.js:133 | `join` of no pieces is empty; otherwise it starts with the first piece, and with separator-free pieces it holds exactly one separator fewer than pieces |
| Text.Split | WPI-MVP/js/main.js:131-133 | the reading of the joined id list, partner of the `join` at line 133: at least one piece, no piece contains the separator, and joining the pieces restores the string |
| Text.SplitJoin | WPI-MVP/js/main.js:131-133 | splitting a join on a separator that no piece contains gives back the list, in order and with repeats |
| Text.FirstDigitRun | WPI-MVP/js/main.js:214 | the match of `/(\d+)/` is absent exactly when the text has no digit, otherwise it is the leftmost maximal digit run |
| Text.FirstRunAfterPrefix | WPI-MVP/js/main.js:214 | behind a digit-free prefix and before a non-digit, a digit run is what `/(\d+)/` finds |
| Charts.Title | WPI-MVP/js/main.js:236-238 | the first digit run of the title is the printed turbine count |
| Charts.TitleRoundTrip | WPI-MVP/js/main.js:214-216 | the first digit run of the title is the printed turbine count, and `parseInt` reads it back as the count |
| Charts.TitlePlural | WPI-MVP/js/main.js:236-238 | the title ends in "Turbines" exactly when more than one turbine is selected, otherwise in "Turbine" |
| Charts.Pad2 | WPI-MVP/js/main.js:277 | a two-digit zero-padded field reads back as its number |
| Charts.Pad4 | WPI-MVP/js/main.js:277 | a four-digit year field reads back as the year |
| Charts.CategoryLabel | WPI-MVP/js/main.js:275-280 | every category label is 16 characters long |
| Charts.LabelFields | WPI-MVP/js/main.js:277 | month, day, year and hour each read back from their place in the label |
| Charts.CategoryLabelInjective | WPI-MVP/js/main.js:275-280 | two hours get the same label exactly when they are the same hour |
| Charts.FormatLabel | WPI-MVP/js/main.js:256-263 | with "00:00" present the formatter shows the text before the first space, otherwise the text after it; each branch also covers a label with no space |
| Charts.LabelMidnight | WPI-MVP/js/main.js:256 | a category label contains "00:00" exactly when its hour is 0 |
| Charts.FormatCategoryLabel | WPI-MVP/js/main.js:252-280 | the formatter shows the date under midnight ticks and the hour under every other tick |
| Charts.Categories | WPI-MVP/js/main.js:275-280 | one label per response record, label k formatted from record k's time |
| Charts.Energies | WPI-MVP/js/main.js:302-304 | one value per response record, value k being record k's `total_energy` |
| Charts.BuildChart | WPI-MVP/js/main.js:275-304 | there are as many categories as values; category k and value k come from the same response record; the title carries the count |
| RangeSum.CountTrue | WPI-MVP/js/main.js:189-195 | the number of checked boxes never exceeds the number of boxes |
| RangeSum.CheckedValues | WPI-MVP/js/main.js:186-195 | the collected labels are as many as the checked boxes, and each is a box label |
| RangeSum.SumRange | WPI-MVP/js/main.js:208-211 | the loop adds the data values from the lower to the upper position, both included |
| RangeSum.ResolvePair | WPI-MVP/js/main.js:200-224 | the outcome is a report or a runtime error, and a runtime error exactly when a label is missing, the range runs past the data, or the title has no digit; a report carries the title's count and says "turbines" exactly when that count exceeds 1 |
| RangeSum.ResolveRange | WPI-MVP/js/main.js:200-211 | a report names the label at the lower first position and the one at the higher, and sums the values between them with both ends included |
| RangeSum.ResolveLabels | WPI-MVP/js/main.js:200-224 | a report names the two checked labels, in one order or the other |
| RangeSum.ResolveAtPositions | WPI-MVP/js/main.js:200-224 | when the labels at positions i and j each occur once, the report runs from the lower of i and j to the higher and sums the values between, both included |
| RangeSum.ChartRange | WPI-MVP/js/main.js:200-224 | on a chart built from a response whose records fall in distinct hours, checking records i and j reports the count and the total of the records from the lower to the higher, both included |
| RangeSum.HandleCheckboxClick | WPI-MVP/js/main.js:185-231 | fewer than two checked: nothing; more than two: the usage error; exactly two: a sum or a runtime error. Every box is cleared unless nothing was reported or a runtime error cut the handler short |
| RangeSum.ResolveSymmetric | WPI-MVP/js/main.js:200-207 | swapping the two checked labels changes nothing |
| RangeSum.CheckedTwo | WPI-MVP/js/main.js:189-195 | with exactly boxes i < j checked, the handler sees their two labels in page order |
| RangeSum.ResolveFound | WPI-MVP/js/main.js:200-224 | for two labels on a well-formed chart, the sum covers their first positions, both ends included |
| RangeSum.TwoChecked | WPI-MVP/js/main.js:196-229 | with two boxes checked, the handler resolves their labels and unchecks every box |
| RangeSum.FourBucketExample | WPI-MVP/js/main.js:200-211 | values 10, 20, 30 and 40 with ticks 2 and 4 checked give 90, from "b" to "d" |
| RangeSum.Toggle | WPI-MVP/js/main.js:167-169 | a change flips one box and runs the handler: unchecking one of at most two checked boxes, or checking the first box, reports nothing and keeps the flip; checking a second box gives a sum or a runtime error; checking a third gives the usage error and clears every box |
| RangeSum.CountTrueUpdate | WPI-MVP/js/main.js:167-169 | flipping one box changes the checked count by exactly that box |
| RangeSum.ToggleKeepsAtMostOne | WPI-MVP/js/main.js:185-231 | on a well-formed chart, one change at a time never leaves two boxes checked and never reaches the usage error or a runtime error |
| RangeSum.FirstClick | WPI-MVP/js/main.js:196 | the first click with nothing checked reports nothing and checks only that box |
| RangeSum.SecondClick | WPI-MVP/js/main.js:196-229 | a second click on another box resolves the two labels, in either click order, and clears every box |
| RangeSum.ReportMatchesTitle | WPI-MVP/js/main.js:213-218 | on a chart built for n turbines, the report quotes n and says "turbines" exactly when n > 1, as the title does |
| Query.Decimals | WPI-MVP/js/main.js:131-133 | each id is printed in decimal, in pick order |
| Query.ParseDecimals | WPI-MVP/js/main.js:131-133 | the printed ids read back as the ids |
| Query.WhereRoundTrip | WPI-MVP/js/main.js:131-133 | the filter for a non-empty pick names exactly the picked ids, in order and with repeats |
| Query.WhereClause | WPI-MVP/js/main.js:131-133 | the filter for a non-empty pick reads back as exactly the picked ids; the filter for no ids would be `turbine_id in ()`, which names no id |
| Selection.Deselect | WPI-MVP/js/main.js:178-183 | the highlight and polygons are gone; the panel is closed if asked or if it already was; nothing else changes |
| Selection.DeselectRepeated | WPI-MVP/js/main.js:171-175 | any number of repeated `deselect` calls, as the close listeners added for each chart make, act as one |
| Selection.DeselectWhenIdle | WPI-MVP/js/main.js:178-183 | with nothing selected and the panel closed, `deselect(true)` changes nothing |
| Selection.Pick | WPI-MVP/js/main.js:119-153 | an empty pick is `deselect(true)`; a non-empty pick highlights exactly the ids, shows loading and issues one more query; the panel and the chart stay as they were |
| Selection.EmptyPickIsClose | WPI-MVP/js/main.js:150-152 | a pick that hits no turbine acts as the close button |
| Selection.PickSendsWhere | WPI-MVP/js/main.js:128-133 | the query issued by a pick names exactly the picked ids |
| Selection.StartRectangle | WPI-MVP/js/main.js:69-72 | the select button closes the panel, clears highlight and polygons, and starts drawing; queries, loading and chart are untouched |
| Selection.SketchComplete | WPI-MVP/js/main.js:74-75 | a completed sketch adds one polygon and ends drawing; panel, highlight, loading, queries, chart and boxes are untouched |
| Selection.RectangleGesture | WPI-MVP/js/main.js:69-126 | button, sketch, then pick: the drawn polygon is erased by the pick, the ids are highlighted, and the panel stays closed while loading |
| Selection.QueryComplete | WPI-MVP/js/main.js:144-149 | a response opens the panel, shows the chart built for the number of ids it was issued for, with no box checked, hides loading and retires that query |
| Selection.QueryFailed | WPI-MVP/js/main.js:144-149 | a failed query leaves the queries in flight one fewer, the others kept with their repeats; loading, panel, chart, highlight, boxes, polygons and drawing are untouched |
| Selection.CheckboxChange | WPI-MVP/js/main.js:166-169 | a checkbox change only alters the box states |
| Selection.InitialValid | WPI-MVP/js/main.js:116 | the page after start-up satisfies the invariant |
| Selection.PickKeepsValid | WPI-MVP/js/main.js:119-153 | a pick keeps the invariant; the query it issues is for a non-empty id list |
| Selection.CompleteKeepsValid | WPI-MVP/js/main.js:144-149 | a response keeps the invariant: the new chart is well-formed with no box checked |
| Selection.CheckboxKeepsValid | WPI-MVP/js/main.js:166-169 | a checkbox change keeps at most one box checked |
| Selection.ApplyPreservesValid | WPI-MVP/js/main.js:119-183 | every event except a failed query keeps the invariant: a highlight is never empty, each query was issued for a non-empty pick, loading shows only while a query is in flight, and the chart is well-formed with at most one box checked |
| Selection.CheckboxNeverRejected | WPI-MVP/js/main.js:196-198 | under the invariant, a checkbox change never triggers the usage error or a runtime error |
| Selection.PickThenComplete | WPI-MVP/js/main.js:144-148 | after a pick and its response, the title's count is the number of picked ids with repeats counted, and the panel is open with loading hidden |
| Selection.LateResponseWins | WPI-MVP/js/main.js:144-149 | pick {1,2}, pick {3}, and receive the responses in reverse order: the chart for two turbines stays on screen while turbine 3 is highlighted |
| Selection.CloseThenResponse | WPI-MVP/js/main.js:144-147 | closing the panel does not cancel the query; its response reopens the panel with nothing highlighted |
| Selection.FailureLeavesLoadingVisible | WPI-MVP/js/main.js:127-149 | after a failed query, loading stays visible with nothing in flight, and the invariant is broken |

## Left out

- **Map operations.** The ArcGIS map, layer views, hit test, spatial query and
  highlight handles are left out because they are foreign calls. The picked
  turbine ids arrive as the parameter of `Selection.Pick`, and the polygon's
  spatial query is the step between `SketchComplete` and `Pick`.
- **Server-side aggregation.** The feature service's sum grouped by
  `prediction_time` and ordered by it is remote. Its response is the
  `features` parameter of `Selection.QueryComplete`.
- **Chart rendering.** Highcharts' rendering and `Highcharts.dateFormat` are
  a foreign library. A time bucket is given as already-split calendar fields
  (`Charts.DateHour`), with years from 1000 to 9999.
- **Minutes and seconds of `prediction_time`.** A time bucket is modelled at
  hour precision; the minutes and seconds that `%H:00` drops are not
  modelled. Two buckets in one hour (10:00 and 10:30, say) are two features
  with equal `DateHour`, so they share a label, and `indexOf` resolves that
  label to the first of them. `Charts.CategoryLabelInjective` and
  `RangeSum.ChartRange` speak of distinct hours, not of distinct
  `prediction_time` values.
- **The `?week` query parameter.** It sets the label step to 3, and at that
  step not every category has a checkbox. The session model gives every
  category a checkbox (step 1). `RangeSum.HandleCheckboxClick` itself takes
  any list of box labels.
- **DOM and user messages.** The alert text, the DOM class lists and the
  console log are left out. The report is the `RangeSum.Report` datatype, and
  the panel and loading indicator are booleans.
- **Number representation.** Energy values are JavaScript floating-point
  numbers; the model uses unbounded integers. Ids are non-negative whole
  numbers, and `parseInt`'s loss of precision above 2^53 is not modelled.
- **Event ordering.** The order in which promises resolve is not modelled.
  Any query in flight may complete next, and the event is chosen by the caller.
- Selection.CheckboxChange: it states only the frame. The report and the new
  box states are those of `RangeSum.HandleCheckboxClick`, whose contract
  carries them.
