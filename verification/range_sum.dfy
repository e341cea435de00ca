/** The two-tick range-sum gesture of `handleCheckboxClick`: every change of
    a category checkbox collects the checked labels in page order; two of
    them are resolved to positions on the category axis and the values
    between those positions, both ends included, are summed; more than two
    is a usage error. Once two or more are checked, every box is unchecked. */
module RangeSum {
  import opened Text
  import opened Charts

  /** What the handler tells the user. */
  datatype Report =
    | NoReport
      /** "Please only select the starting and ending ticks" */
    | TooMany
      /** The total over the inclusive range, with the count text taken from
          the title and whether "turbine" is pluralised. */
    | SumReport(countText: string, plural: bool, startLabel: string, endLabel: string, sum: int)
      /** A runtime error escaped the handler: nothing is shown and the boxes
          keep their state. */
    | Aborted

  datatype Outcome = Outcome(report: Report, checked: seq<bool>)

  function CountTrue(b: seq<bool>): (n: nat)
    ensures n <= |b|
  {
    if |b| == 0 then 0 else CountTrue(b[..|b| - 1]) + (if b[|b| - 1] then 1 else 0)
  }

  /** Every box unchecked. */
  function AllFalse(n: nat): (b: seq<bool>)
    ensures |b| == n
  {
    seq(n, _ => false)
  }

  lemma {:induction false} CountTrueNone(b: seq<bool>)
    requires forall k :: 0 <= k < |b| ==> !b[k]
    ensures CountTrue(b) == 0
    decreases |b|
  {
    if |b| > 0 {
      CountTrueNone(b[..|b| - 1]);
    }
  }

  /** The values of the checked boxes, in page order. */
  function CheckedValues(values: seq<string>, checked: seq<bool>): (sel: seq<string>)
    requires |values| == |checked|
    ensures |sel| == CountTrue(checked)
    ensures forall x :: x in sel ==> x in values
  {
    if |values| == 0 then []
    else
      var n := |values| - 1;
      var init := CheckedValues(values[..n], checked[..n]);
      assert forall x :: x in values[..n] ==> x in values;
      if checked[n] then init + [values[n]] else init
  }

  /** Sum of `values[lo..hi]`, the positions from `lo` up to but excluding `hi`. */
  function Sum(values: seq<int>, lo: nat, hi: nat): int
    requires lo <= hi <= |values|
    decreases hi - lo
  {
    if lo == hi then 0 else Sum(values, lo, hi - 1) + values[hi - 1]
  }

  /** The summing loop of the handler, over positions `lo` to `hi` inclusive. */
  method SumRange(values: seq<int>, lo: nat, hi: nat) returns (sum: int)
    requires lo <= hi < |values|
    ensures sum == Sum(values, lo, hi + 1)
  {
    sum := 0;
    var i := lo;
    while i <= hi
      invariant lo <= i <= hi + 1
      invariant sum == Sum(values, lo, i)
    {
      sum := sum + values[i];
      i := i + 1;
    }
  }

  function Min(a: int, b: int): int { if a <= b then a else b }
  function Max(a: int, b: int): int { if a <= b then b else a }

  /** Resolves the two checked labels `x` and `y` against the chart. Each is
      looked up by its first occurrence on the category axis; the smaller
      position starts the range. A label missing from the axis, a range that
      runs past the data, or a title without a number is a runtime error. */
  function ResolvePair(chart: Chart, x: string, y: string): (r: Report)
    ensures r.SumReport? || r.Aborted?
    ensures r.SumReport? <==>
              x in chart.categories && y in chart.categories
              && Max(IndexOf(chart.categories, x), IndexOf(chart.categories, y)) < |chart.values|
              && FirstDigitRun(chart.title).Some?
    ensures r.SumReport? ==>
              && Some(r.countText) == FirstDigitRun(chart.title)
              && r.plural == (ParseDecimal(r.countText) > 1)
  {
    var a := IndexOf(chart.categories, x);
    var b := IndexOf(chart.categories, y);
    if a < 0 || b < 0 || Max(a, b) >= |chart.values| then Aborted
    else if FirstDigitRun(chart.title).None? then Aborted
    else
      var count := FirstDigitRun(chart.title).value;
      var lo: nat, hi: nat := Min(a, b), Max(a, b);
      SumReport(count, ParseDecimal(count) > 1,
                chart.categories[lo], chart.categories[hi],
                Sum(chart.values, lo, hi + 1))
  }

  /** `handleCheckboxClick`: `boxes` are the checkbox values in page order and
      `checked` their state after the change that fired the handler. */
  function HandleCheckboxClick(chart: Chart, boxes: seq<string>, checked: seq<bool>): (out: Outcome)
    requires |boxes| == |checked|
    ensures |out.checked| == |checked|
    ensures CountTrue(checked) < 2 <==> out.report.NoReport?
    ensures CountTrue(checked) > 2 <==> out.report.TooMany?
    ensures CountTrue(checked) == 2 <==> out.report.SumReport? || out.report.Aborted?
    ensures out.report.NoReport? || out.report.Aborted? ==> out.checked == checked
    ensures out.report.TooMany? || out.report.SumReport? ==> out.checked == AllFalse(|checked|)
    ensures out.report.SumReport? ==>
              var selected := CheckedValues(boxes, checked);
              out.report.startLabel in selected && out.report.endLabel in selected
  {
    var selected := CheckedValues(boxes, checked);
    if |selected| < 2 then Outcome(NoReport, checked)
    else if |selected| > 2 then Outcome(TooMany, AllFalse(|checked|))
    else
      var r := ResolvePair(chart, selected[0], selected[1]);
      if r.Aborted? then Outcome(r, checked) else Outcome(r, AllFalse(|checked|))
  }

  /** A report covers the range between the first positions of the two
      labels: it names the label at the lower position first and sums the
      values from there to the higher position, both ends included. */
  lemma ResolveRange(chart: Chart, x: string, y: string)
    ensures var r := ResolvePair(chart, x, y);
            var p := IndexOf(chart.categories, x);
            var q := IndexOf(chart.categories, y);
            r.SumReport? ==>
              && 0 <= Min(p, q) <= Max(p, q) < |chart.values|
              && r.startLabel == chart.categories[Min(p, q)]
              && r.endLabel == chart.categories[Max(p, q)]
              && r.sum == Sum(chart.values, Min(p, q), Max(p, q) + 1)
  {
  }

  /** The report names the two checked labels, in one order or the other. */
  lemma ResolveLabels(chart: Chart, x: string, y: string)
    ensures var r := ResolvePair(chart, x, y);
            r.SumReport? ==> (r.startLabel == x && r.endLabel == y) || (r.startLabel == y && r.endLabel == x)
  {
  }

  /** Which two labels are checked does not depend on their order. */
  lemma ResolveSymmetric(chart: Chart, x: string, y: string)
    ensures ResolvePair(chart, x, y) == ResolvePair(chart, y, x)
  {
  }

  /** Exactly positions `i` and `j` are checked. */
  predicate OnlyAt(checked: seq<bool>, i: int, j: int) {
    forall k :: 0 <= k < |checked| ==> (checked[k] <==> k == i || k == j)
  }

  lemma {:induction false} CheckedNone(values: seq<string>, checked: seq<bool>)
    requires |values| == |checked|
    requires forall k :: 0 <= k < |checked| ==> !checked[k]
    ensures CheckedValues(values, checked) == []
    decreases |values|
  {
    if |values| > 0 {
      var n := |values| - 1;
      CheckedNone(values[..n], checked[..n]);
    }
  }

  lemma {:induction false} CheckedOne(values: seq<string>, checked: seq<bool>, i: nat)
    requires |values| == |checked| && i < |checked|
    requires OnlyAt(checked, i, i)
    ensures CheckedValues(values, checked) == [values[i]]
    decreases |values|
  {
    var n := |values| - 1;
    if n == i {
      CheckedNone(values[..n], checked[..n]);
    } else {
      CheckedOne(values[..n], checked[..n], i);
    }
  }

  /** With exactly boxes `i < j` checked, the handler sees their two values,
      the earlier box first. */
  lemma {:induction false} CheckedTwo(values: seq<string>, checked: seq<bool>, i: nat, j: nat)
    requires |values| == |checked| && i < j < |checked|
    requires OnlyAt(checked, i, j)
    ensures CheckedValues(values, checked) == [values[i], values[j]]
    decreases |values|
  {
    var n := |values| - 1;
    if n == j {
      CheckedOne(values[..n], checked[..n], i);
    } else {
      CheckedTwo(values[..n], checked[..n], i, j);
    }
  }

  /** Two labels that are both on the axis of a well-formed chart: the
      report sums the values between their first positions, both ends
      included, names the label at the lower position first, and carries the
      count found in the title. */
  lemma ResolveFound(chart: Chart, x: string, y: string)
    requires Wellformed(chart)
    requires x in chart.categories && y in chart.categories
    ensures var p := IndexOf(chart.categories, x);
            var q := IndexOf(chart.categories, y);
            var r := ResolvePair(chart, x, y);
            && 0 <= Min(p, q) <= Max(p, q) < |chart.values|
            && r.SumReport?
            && Some(r.countText) == FirstDigitRun(chart.title)
            && r.startLabel == chart.categories[Min(p, q)]
            && r.endLabel == chart.categories[Max(p, q)]
            && r.sum == Sum(chart.values, Min(p, q), Max(p, q) + 1)
  {
    var p := IndexOf(chart.categories, x);
    var q := IndexOf(chart.categories, y);
    assert 0 <= p < |chart.values| && 0 <= q < |chart.values|;
    ResolveRange(chart, x, y);
  }

  /** Exactly two boxes checked, the boxes `i < j` in page order: the
      handler resolves their two labels and unchecks every box. */
  lemma TwoChecked(chart: Chart, boxes: seq<string>, checked: seq<bool>, i: nat, j: nat)
    requires |boxes| == |checked| && i < j < |checked|
    requires OnlyAt(checked, i, j)
    requires Wellformed(chart)
    requires boxes[i] in chart.categories && boxes[j] in chart.categories
    ensures HandleCheckboxClick(chart, boxes, checked) ==
            Outcome(ResolvePair(chart, boxes[i], boxes[j]), AllFalse(|checked|))
  {
    CheckedTwo(boxes, checked, i, j);
    ResolveFound(chart, boxes[i], boxes[j]);
  }

  lemma FourBucketResolve(chart: Chart)
    requires Wellformed(chart)
    requires chart.categories == ["a", "b", "c", "d"] && chart.values == [10, 20, 30, 40]
    ensures var r := ResolvePair(chart, "b", "d");
            r.SumReport? && r.startLabel == "b" && r.endLabel == "d" && r.sum == 90
  {
    ResolveFound(chart, "b", "d");
    assert IndexOf(chart.categories, "b") == 1;
    assert IndexOf(chart.categories, "d") == 3;
    assert Sum(chart.values, 1, 2) == 20;
    assert Sum(chart.values, 1, 3) == 50;
  }

  /** Four buckets valued 10, 20, 30 and 40 with the second and fourth
      ticks checked report 20 + 30 + 40. */
  lemma FourBucketExample(chart: Chart)
    requires Wellformed(chart)
    requires chart.categories == ["a", "b", "c", "d"] && chart.values == [10, 20, 30, 40]
    ensures var out := HandleCheckboxClick(chart, chart.categories, [false, true, false, true]);
            out.report.SumReport? && out.report.startLabel == "b" && out.report.endLabel == "d" && out.report.sum == 90
  {
    var checked := [false, true, false, true];
    assert OnlyAt(checked, 1, 3);
    TwoChecked(chart, chart.categories, checked, 1, 3);
    FourBucketResolve(chart);
  }

  lemma {:induction false} CountTrueUpdate(b: seq<bool>, k: nat, v: bool)
    requires k < |b|
    ensures CountTrue(b[k := v]) == CountTrue(b) - (if b[k] then 1 else 0) + (if v then 1 else 0)
    decreases |b|
  {
    var n := |b| - 1;
    if k < n {
      assert b[k := v][..n] == b[..n][k := v];
      CountTrueUpdate(b[..n], k, v);
    } else {
      assert b[k := v][..n] == b[..n];
    }
  }

  /** Flipping box `k` and running the handler, as one change event does. */
  function Toggle(chart: Chart, boxes: seq<string>, checked: seq<bool>, k: nat): (out: Outcome)
    requires |boxes| == |checked| && k < |checked|
    ensures |out.checked| == |checked|
    ensures checked[k] && CountTrue(checked) <= 2 ==> out == Outcome(NoReport, checked[k := false])
    ensures !checked[k] && CountTrue(checked) == 0 ==> out == Outcome(NoReport, checked[k := true])
    ensures !checked[k] && CountTrue(checked) == 1 ==> out.report.SumReport? || out.report.Aborted?
    ensures !checked[k] && CountTrue(checked) >= 2 ==> out == Outcome(TooMany, AllFalse(|checked|))
  {
    CountTrueUpdate(checked, k, !checked[k]);
    HandleCheckboxClick(chart, boxes, checked[k := !checked[k]])
  }

  /** On a well-formed chart whose checkboxes carry its category labels,
      one change at a time never leaves more than one box checked, so the
      "only select the starting and ending ticks" error cannot be reached
      and no runtime error occurs. */
  lemma ToggleKeepsAtMostOne(chart: Chart, checked: seq<bool>, k: nat)
    requires Wellformed(chart) && |checked| == |chart.categories| && k < |checked|
    requires CountTrue(checked) <= 1
    ensures var out := Toggle(chart, chart.categories, checked, k);
            && CountTrue(out.checked) <= 1
            && !out.report.TooMany? && !out.report.Aborted?
  {
    CountTrueUpdate(checked, k, !checked[k]);
    var c := checked[k := !checked[k]];
    var sel := CheckedValues(chart.categories, c);
    var out := HandleCheckboxClick(chart, chart.categories, c);
    if |sel| == 2 {
      assert sel[0] in sel && sel[1] in sel;
      assert !out.report.Aborted?;
      CountTrueNone(out.checked);
    }
  }

  /** The first click on a chart with no box checked checks that box and
      reports nothing. */
  lemma FirstClick(chart: Chart, boxes: seq<string>, checked: seq<bool>, i: nat)
    requires |boxes| == |checked| && i < |checked|
    requires forall k :: 0 <= k < |checked| ==> !checked[k]
    ensures var out := Toggle(chart, boxes, checked, i);
            out.report == NoReport && OnlyAt(out.checked, i, i)
  {
    CountTrueNone(checked);
    CountTrueUpdate(checked, i, true);
  }

  /** A second click, on another box, completes the gesture: the two labels
      are resolved, in whichever order the boxes were clicked, and every box
      is unchecked again. */
  lemma SecondClick(chart: Chart, checked: seq<bool>, i: nat, j: nat)
    requires Wellformed(chart) && |checked| == |chart.categories|
    requires i < |checked| && j < |checked| && i != j
    requires OnlyAt(checked, i, i)
    ensures Toggle(chart, chart.categories, checked, j) ==
            Outcome(ResolvePair(chart, chart.categories[i], chart.categories[j]), AllFalse(|checked|))
  {
    var c := checked[j := true];
    assert Toggle(chart, chart.categories, checked, j) == HandleCheckboxClick(chart, chart.categories, c);
    if i < j {
      assert OnlyAt(c, i, j);
      TwoChecked(chart, chart.categories, c, i, j);
    } else {
      assert OnlyAt(c, j, i);
      TwoChecked(chart, chart.categories, c, j, i);
      ResolveSymmetric(chart, chart.categories[i], chart.categories[j]);
    }
  }

  /** On a chart built for `n` turbines, a report quotes the count `n` as
      printed in the title and pluralises "turbine" exactly when `n > 1`,
      the rule the title itself follows. */
  lemma ReportMatchesTitle(n: nat, features: seq<Feature>, x: string, y: string)
    requires forall k :: 0 <= k < |features| ==> ValidDateHour(features[k].predictionTime)
    ensures var r := ResolvePair(BuildChart(n, features), x, y);
            r.SumReport? ==> r.countText == NatToDecimal(n) && (r.plural <==> n > 1)
  {
    ParseNatToDecimal(n);
  }

  /** When the two clicked labels each appear once on the axis, the range is
      exactly the one between the clicked positions: the report names the
      label at the lower position first and sums the values from there to
      the higher position, both ends included. */
  lemma ResolveAtPositions(chart: Chart, i: nat, j: nat)
    requires Wellformed(chart) && i < |chart.categories| && j < |chart.categories|
    requires forall m :: 0 <= m < |chart.categories| && chart.categories[m] == chart.categories[i] ==> m == i
    requires forall m :: 0 <= m < |chart.categories| && chart.categories[m] == chart.categories[j] ==> m == j
    ensures var r := ResolvePair(chart, chart.categories[i], chart.categories[j]);
            && r.SumReport?
            && r.startLabel == chart.categories[Min(i, j)]
            && r.endLabel == chart.categories[Max(i, j)]
            && r.sum == Sum(chart.values, Min(i, j), Max(i, j) + 1)
  {
    assert IndexOf(chart.categories, chart.categories[i]) == i;
    assert IndexOf(chart.categories, chart.categories[j]) == j;
    ResolveFound(chart, chart.categories[i], chart.categories[j]);
  }

  /** On a chart built from a response whose records fall in distinct
      hours, clicking the checkboxes of records `i` and `j` reports the
      total energy of the records between them, both ends included. */
  lemma ChartRange(n: nat, features: seq<Feature>, i: nat, j: nat)
    requires forall k :: 0 <= k < |features| ==> ValidDateHour(features[k].predictionTime)
    requires forall k, m :: 0 <= k < m < |features| ==> features[k].predictionTime != features[m].predictionTime
    requires i < |features| && j < |features|
    ensures var lo, hi := Min(i, j), Max(i, j);
            var c := BuildChart(n, features);
            var r := ResolvePair(c, c.categories[i], c.categories[j]);
            && lo <= hi < |features| == |c.values|
            && r.SumReport?
            && r.countText == NatToDecimal(n)
            && r.startLabel == CategoryLabel(features[lo].predictionTime)
            && r.endLabel == CategoryLabel(features[hi].predictionTime)
            && r.sum == Sum(c.values, lo, hi + 1)
  {
    var c := BuildChart(n, features);
    forall m | 0 <= m < |c.categories| && c.categories[m] == c.categories[i]
      ensures m == i
    {
      CategoryLabelInjective(features[m].predictionTime, features[i].predictionTime);
    }
    forall m | 0 <= m < |c.categories| && c.categories[m] == c.categories[j]
      ensures m == j
    {
      CategoryLabelInjective(features[m].predictionTime, features[j].predictionTime);
    }
    ResolveAtPositions(c, i, j);
  }
}
