/** The selection controller: `deselect`, `highlightAndCalculate`, the
    select-by-rectangle button (which starts a polygon sketch), the sketch
    completion, the arrival (or failure) of the aggregation query, the close
    button and the checkbox change events, as one state machine over the
    page state they touch. */
module Selection {
  import opened Text
  import opened Charts
  import opened RangeSum
  import opened Query

  /** The page state the handlers read and write. `pending` lists the
      aggregation queries in flight, by the ids each was issued for, oldest
      first; nothing cancels or supersedes them. `marks` are the states of
      the chart's category checkboxes. */
  datatype State = State(
    chartClosed: bool,
    highlight: Option<seq<Id>>,
    polygons: nat,
    drawing: bool,
    loadingVisible: bool,
    pending: seq<seq<Id>>,
    chart: Option<Chart>,
    marks: seq<bool>)

  /** The page once the map view is ready: the chart panel closed and the
      loading indicator hidden. */
  const Initial := State(true, None, 0, false, false, [], None, [])

  /** `deselect(closeChart)`: close the panel if asked, drop the highlight,
      erase the drawn polygons. */
  function Deselect(s: State, closeChart: bool): (r: State)
    ensures r.highlight.None? && r.polygons == 0
    ensures r.chartClosed == (s.chartClosed || closeChart)
    ensures r == s.(chartClosed := r.chartClosed, highlight := None, polygons := 0)
  {
    s.(chartClosed := s.chartClosed || closeChart, highlight := None, polygons := 0)
  }

  /** `highlightAndCalculate(graphics)` for the picked turbine ids. */
  function Pick(s: State, ids: seq<Id>): (r: State)
    ensures |ids| == 0 ==> r == Deselect(s, true)
    ensures |ids| > 0 ==>
              && r.chartClosed == s.chartClosed
              && r.highlight == Some(ids)
              && r.polygons == 0
              && r.loadingVisible
              && r.pending == s.pending + [ids]
              && r.chart == s.chart && r.marks == s.marks && r.drawing == s.drawing
  {
    var cleared := Deselect(s, false);
    if |ids| > 0 then
      cleared.(highlight := Some(ids), loadingVisible := true, pending := cleared.pending + [ids])
    else
      Deselect(cleared, true)
  }

  /** The select button: deselect and close, then start drawing a polygon. */
  function StartRectangle(s: State): (r: State)
    ensures r.drawing && r.chartClosed && r.highlight.None? && r.polygons == 0
    ensures r.pending == s.pending && r.loadingVisible == s.loadingVisible
    ensures r.chart == s.chart && r.marks == s.marks
  {
    Deselect(s, true).(drawing := true)
  }

  /** The sketch tool reports the polygon complete: it is now on the
      graphics layer, and the spatial query that follows ends in `Pick`. */
  function SketchComplete(s: State): (r: State)
    requires s.drawing
    ensures !r.drawing && r.polygons == s.polygons + 1
    ensures r.chartClosed == s.chartClosed && r.highlight == s.highlight
    ensures r.loadingVisible == s.loadingVisible && r.pending == s.pending
    ensures r.chart == s.chart && r.marks == s.marks
  {
    s.(drawing := false, polygons := s.polygons + 1)
  }

  function RemoveAt<T>(xs: seq<T>, k: nat): (r: seq<T>)
    requires k < |xs|
    ensures |r| == |xs| - 1
    ensures forall m :: 0 <= m < k ==> r[m] == xs[m]
    ensures forall m :: k <= m < |r| ==> r[m] == xs[m + 1]
  {
    xs[..k] + xs[k + 1..]
  }

  /** The response to the `k`-th query in flight arrives: open the panel,
      build the chart for as many turbines as were picked, hide the loading
      indicator. Nothing checks that the query is still the current one. */
  function QueryComplete(s: State, k: nat, features: seq<Feature>): (r: State)
    requires k < |s.pending|
    requires forall m :: 0 <= m < |features| ==> ValidDateHour(features[m].predictionTime)
    ensures !r.chartClosed && !r.loadingVisible
    ensures r.chart == Some(BuildChart(|s.pending[k]|, features))
    ensures |r.marks| == |features| && CountTrue(r.marks) == 0
    ensures r.pending == RemoveAt(s.pending, k)
    ensures r.highlight == s.highlight && r.polygons == s.polygons && r.drawing == s.drawing
  {
    var chart := BuildChart(|s.pending[k]|, features);
    CountTrueNone(AllFalse(|features|));
    s.(chartClosed := false, chart := Some(chart), loadingVisible := false,
       pending := RemoveAt(s.pending, k), marks := AllFalse(|features|))
  }

  /** The `k`-th query fails. No handler is attached, so only the query
      itself goes away. */
  function QueryFailed(s: State, k: nat): (r: State)
    requires k < |s.pending|
    ensures r.loadingVisible == s.loadingVisible && r.chartClosed == s.chartClosed
    ensures r.chart == s.chart && r.highlight == s.highlight && r.marks == s.marks
    ensures r.polygons == s.polygons && r.drawing == s.drawing
    ensures |r.pending| == |s.pending| - 1
    ensures multiset(r.pending) + multiset{s.pending[k]} == multiset(s.pending)
  {
    assert s.pending == s.pending[..k] + [s.pending[k]] + s.pending[k + 1..];
    s.(pending := RemoveAt(s.pending, k))
  }

  /** A change of the `k`-th category checkbox, handled on the current chart. */
  function CheckboxChange(s: State, k: nat): (r: (State, Report))
    requires s.chart.Some? && |s.marks| == |s.chart.value.categories| && k < |s.marks|
    ensures |r.0.marks| == |s.marks|
    ensures r.0 == s.(marks := r.0.marks)
  {
    var out := Toggle(s.chart.value, s.chart.value.categories, s.marks, k);
    (s.(marks := out.checked), out.report)
  }

  datatype Event =
    | CloseButton
    | SelectButton
    | SketchDone
    | Picked(ids: seq<Id>)
    | QueryResolved(k: nat, features: seq<Feature>)
    | QueryRejected(k: nat)
    | CheckboxChanged(k: nat)

  predicate Enabled(s: State, e: Event) {
    match e
    case SketchDone => s.drawing
    case QueryResolved(k, features) =>
      k < |s.pending| && forall m :: 0 <= m < |features| ==> ValidDateHour(features[m].predictionTime)
    case QueryRejected(k) => k < |s.pending|
    case CheckboxChanged(k) => s.chart.Some? && |s.marks| == |s.chart.value.categories| && k < |s.marks|
    case _ => true
  }

  function Apply(s: State, e: Event): State
    requires Enabled(s, e)
  {
    match e
    case CloseButton => Deselect(s, true)
    case SelectButton => StartRectangle(s)
    case SketchDone => SketchComplete(s)
    case Picked(ids) => Pick(s, ids)
    case QueryResolved(k, features) => QueryComplete(s, k, features)
    case QueryRejected(k) => QueryFailed(s, k)
    case CheckboxChanged(k) => CheckboxChange(s, k).0
  }

  /** What the handlers keep true as long as no query fails: a highlight is
      never empty, every query in flight was issued for a non-empty pick,
      the loading indicator shows only while a query is in flight, and the
      chart on screen is well-formed with at most one box checked. */
  predicate Valid(s: State) {
    && (s.highlight.Some? ==> |s.highlight.value| > 0)
    && (forall k :: 0 <= k < |s.pending| ==> |s.pending[k]| > 0)
    && (s.loadingVisible ==> |s.pending| > 0)
    && (s.chart.Some? ==>
          && Wellformed(s.chart.value)
          && |s.marks| == |s.chart.value.categories|
          && CountTrue(s.marks) <= 1)
  }

  lemma InitialValid()
    ensures Valid(Initial)
  {
  }

  lemma PickKeepsValid(s: State, ids: seq<Id>)
    requires Valid(s)
    ensures Valid(Pick(s, ids))
  {
    var r := Pick(s, ids);
    if |ids| > 0 {
      assert forall k :: 0 <= k < |r.pending| ==> (k < |s.pending| && r.pending[k] == s.pending[k]) || r.pending[k] == ids;
    }
  }

  lemma CompleteKeepsValid(s: State, k: nat, features: seq<Feature>)
    requires Valid(s) && Enabled(s, QueryResolved(k, features))
    ensures Valid(QueryComplete(s, k, features))
  {
    var r := QueryComplete(s, k, features);
    assert forall m :: 0 <= m < |r.pending| ==> r.pending[m] == s.pending[if m < k then m else m + 1];
  }

  lemma CheckboxKeepsValid(s: State, k: nat)
    requires Valid(s) && Enabled(s, CheckboxChanged(k))
    ensures Valid(CheckboxChange(s, k).0)
  {
    ToggleKeepsAtMostOne(s.chart.value, s.marks, k);
  }

  /** Every event except a failed query keeps the state valid. */
  lemma ApplyPreservesValid(s: State, e: Event)
    requires Valid(s) && Enabled(s, e) && !e.QueryRejected?
    ensures Valid(Apply(s, e))
  {
    match e
    case CheckboxChanged(k) => CheckboxKeepsValid(s, k);
    case QueryResolved(k, features) => CompleteKeepsValid(s, k, features);
    case Picked(ids) => PickKeepsValid(s, ids);
    case _ =>
  }

  /** With the chart of a valid state on screen, a checkbox change never
      hits the "only select the starting and ending ticks" error nor a
      runtime error. */
  lemma CheckboxNeverRejected(s: State, k: nat)
    requires Valid(s) && Enabled(s, CheckboxChanged(k))
    ensures var r := CheckboxChange(s, k).1;
            !r.TooMany? && !r.Aborted?
  {
    ToggleKeepsAtMostOne(s.chart.value, s.marks, k);
  }

  /** `deselect` twice is `deselect` once; so the close button's repeated
      listeners, one per chart built, act as one. */
  lemma {:induction false} DeselectRepeated(s: State, closeChart: bool, n: nat)
    requires n >= 1
    ensures Repeat(s, closeChart, n) == Deselect(s, closeChart)
    decreases n
  {
    if n > 1 {
      DeselectRepeated(s, closeChart, n - 1);
    }
  }

  function Repeat(s: State, closeChart: bool, n: nat): State
    decreases n
  {
    if n == 0 then s else Deselect(Repeat(s, closeChart, n - 1), closeChart)
  }

  /** With nothing selected and the panel closed, `deselect(true)` changes nothing. */
  lemma DeselectWhenIdle(s: State)
    requires s.chartClosed && s.highlight.None? && s.polygons == 0
    ensures Deselect(s, true) == s
  {
  }

  /** A pick that hits no turbine leaves the page as the close button does. */
  lemma EmptyPickIsClose(s: State)
    ensures Pick(s, []) == Apply(s, CloseButton)
  {
  }

  /** The query sent for a pick names exactly the picked ids. */
  lemma PickSendsWhere(s: State, ids: seq<Id>)
    requires |ids| > 0
    ensures var r := Pick(s, ids);
            ParseWhere(WhereClause(r.pending[|r.pending| - 1])) == Some(ids)
  {
  }

  /** After a pick and the arrival of its response, the chart title names
      the number of picked ids, duplicates counted, and the new chart has
      no box checked. */
  lemma PickThenComplete(s: State, ids: seq<Id>, features: seq<Feature>)
    requires |ids| > 0
    requires forall m :: 0 <= m < |features| ==> ValidDateHour(features[m].predictionTime)
    ensures var p := Pick(s, ids);
            var r := QueryComplete(p, |p.pending| - 1, features);
            && !r.chartClosed && !r.loadingVisible && r.highlight == Some(ids)
            && FirstDigitRun(r.chart.value.title) == Some(NatToDecimal(|ids|))
            && ParseDecimal(NatToDecimal(|ids|)) == |ids|
            && r.pending == s.pending
  {
    ParseNatToDecimal(|ids|);
    var p := Pick(s, ids);
    assert RemoveAt(p.pending, |p.pending| - 1) == s.pending;
  }

  /** Nothing guards against a late response: picking {1, 2}, then {3},
      and receiving the answer for {3} before the one for {1, 2} leaves the
      chart for two turbines on screen while turbine 3 is highlighted. */
  lemma LateResponseWins(fa: seq<Feature>, fb: seq<Feature>)
    requires forall m :: 0 <= m < |fa| ==> ValidDateHour(fa[m].predictionTime)
    requires forall m :: 0 <= m < |fb| ==> ValidDateHour(fb[m].predictionTime)
    ensures var s1 := Pick(Initial, [1, 2]);
            var s2 := Pick(s1, [3]);
            var s3 := QueryComplete(s2, 1, fb);
            var s4 := QueryComplete(s3, 0, fa);
            && s4.highlight == Some([3])
            && s4.chart == Some(BuildChart(2, fa))
            && s4.pending == []
  {
    var s1 := Pick(Initial, [1, 2]);
    assert s1.pending == [[1, 2]];
    var s2 := Pick(s1, [3]);
    assert s2.pending == [[1, 2], [3]] && s2.highlight == Some([3]);
    var s3 := QueryComplete(s2, 1, fb);
    assert s3.pending == [[1, 2]] && s3.highlight == Some([3]);
    assert |s3.pending[0]| == 2;
  }

  /** The selection gesture: the select button closes the panel, the sketch
      adds one polygon, and the pick that follows erases it again (its
      `deselect()` clears the graphics layer) while highlighting the picked
      turbines; the panel stays closed until the response arrives. */
  lemma RectangleGesture(s: State, ids: seq<Id>)
    requires |ids| > 0
    ensures var drawn := SketchComplete(StartRectangle(s));
            var r := Pick(drawn, ids);
            && drawn.polygons == 1 && !drawn.drawing
            && r.polygons == 0 && r.highlight == Some(ids) && r.chartClosed && r.loadingVisible
  {
  }

  /** Closing the panel does not cancel the query in flight: its response
      opens the panel again, with no highlight on the map. */
  lemma CloseThenResponse(ids: seq<Id>, features: seq<Feature>)
    requires |ids| > 0
    requires forall m :: 0 <= m < |features| ==> ValidDateHour(features[m].predictionTime)
    ensures var s := Deselect(Pick(Initial, ids), true);
            var r := QueryComplete(s, 0, features);
            s.chartClosed && !r.chartClosed && r.highlight.None?
  {
  }

  /** A failed query leaves the loading indicator on with nothing in flight:
      the one event `Valid` does not survive. */
  lemma FailureLeavesLoadingVisible(ids: seq<Id>)
    requires |ids| > 0
    ensures var r := QueryFailed(Pick(Initial, ids), 0);
            r.loadingVisible && |r.pending| == 0 && !Valid(r)
  {
  }
}
