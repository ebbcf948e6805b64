/** The daily hook: bags, items and profit per day as three bar series, each positive
    bar labelled just above its top; only profit is written as euros. */
module DailyChart {
  import opened Values
  import opened ChartModel
  import opened Canvas
  import opened BarLabels

  const BagsColor: Color := "rgb(60, 100, 170)"
  const ItemsColor: Color := "rgb(140, 175, 210)"

  /** The dataset index of the profit series. */
  const ProfitIndex := 2

  /** How far above the bar's top the label sits, in canvas units. */
  const LabelOffset := 8.0

  /** The parsed `data-chart-data` payload. */
  datatype Payload = Payload(labels: seq<string>, bags: seq<Value>, items: seq<Value>, profit: seq<Value>)

  function DailyBars(name: string, data: seq<Value>, color: Color, axis: AxisId): Dataset {
    Series(data).(legendLabel := Some(name), background := Some(Uniform(color)),
                  borderRadius := Some(4), axis := Some(axis))
  }

  /** `mounted`: Bags and Items on the count axis, Profit on the euro axis. */
  function Mount(p: Payload): (c: Chart)
    ensures c.kind == BarType && c.labels == p.labels && |c.datasets| == 3
    ensures c.datasets[0].legendLabel == Some("Bags") && c.datasets[0].data == p.bags
    ensures c.datasets[1].legendLabel == Some("Items") && c.datasets[1].data == p.items
    ensures c.datasets[ProfitIndex].legendLabel == Some("Profit (€)") && c.datasets[ProfitIndex].data == p.profit
    ensures forall k :: 0 <= k < |c.datasets| ==> (c.datasets[k].axis == Some(Y1) <==> k == ProfitIndex)
    ensures forall k :: 0 <= k < |c.datasets| ==> (c.datasets[k].axis == Some(Y) <==> k != ProfitIndex)
  {
    Chart(BarType, p.labels, [
      DailyBars("Bags", p.bags, BagsColor, Y),
      DailyBars("Items", p.items, ItemsColor, Y),
      DailyBars("Profit (€)", p.profit, Green, Y1)])
  }

  /** The text of a label: euros for the profit dataset, the bare number otherwise. */
  function DailyCaption(datasetIndex: nat, value: real): (cap: Caption)
    ensures cap.Text? <==> datasetIndex == ProfitIndex
    ensures cap.Text? ==> cap == Text(EuroText(Round(value)))
    ensures cap.Text? ==> ParseEuro(cap.s) == Some(Round(value))
    ensures cap.Number? ==> cap.v == value
  {
    EuroTextRoundTrip(Round(value));
    if datasetIndex == ProfitIndex then Text(EuroText(Round(value))) else Number(value)
  }

  /** The label of one bar of dataset `datasetIndex`: centred on it, just above its top. */
  function DailyLabel(datasetIndex: nat, bar: Bar, value: real): (d: Draw)
    ensures d.x == bar.x && d.y + LabelOffset == bar.y
    ensures d.caption == DailyCaption(datasetIndex, value)
  {
    Draw(DailyCaption(datasetIndex, value), bar.x, bar.y - LabelOffset)
  }

  function LabelerFor(datasetIndex: nat): (Bar, real) -> Draw {
    (bar, value) => DailyLabel(datasetIndex, bar, value)
  }

  /** The labels of the first `n` datasets, dataset by dataset; `geometry[k]` holds
      the bars the renderer laid out for dataset `k`. */
  function LabelsOfDatasets(datasets: seq<Dataset>, geometry: seq<seq<Bar>>, n: nat): seq<Draw>
    requires n <= |datasets| == |geometry|
  {
    if n == 0 then []
    else
      LabelsOfDatasets(datasets, geometry, n - 1)
      + DrawnUpTo(datasets[n - 1].data, geometry[n - 1], LabelerFor(n - 1), |geometry[n - 1]|)
  }

  /** Bar `i` of dataset `k` holds a positive value and `d` is its label. */
  predicate IsLabelOf(datasets: seq<Dataset>, geometry: seq<seq<Bar>>, k: nat, i: nat, d: Draw) {
    && k < |datasets| && k < |geometry| && i < |geometry[k]|
    && IsPositive(Lookup(datasets[k].data, i))
    && d == DailyLabel(k, geometry[k][i], Lookup(datasets[k].data, i).n)
  }

  /** `afterDatasetsDraw` of the bar label plugin; the renderer keeps one list of
      bars per dataset. */
  method AfterDatasetsDraw(c: Chart, geometry: seq<seq<Bar>>) returns (drawn: seq<Draw>)
    requires |geometry| == |c.datasets|
    ensures drawn == LabelsOfDatasets(c.datasets, geometry, |c.datasets|)
    ensures forall d :: d in drawn <==> exists k: nat, i: nat :: IsLabelOf(c.datasets, geometry, k, i, d)
  {
    drawn := [];
    var k := 0;
    while k < |c.datasets|
      invariant 0 <= k <= |c.datasets|
      invariant drawn == LabelsOfDatasets(c.datasets, geometry, k)
    {
      var more := DrawBarLabels(c.datasets[k].data, geometry[k], LabelerFor(k));
      drawn := drawn + more;
      k := k + 1;
    }
    LabelsExactlyForPositiveBars(c.datasets, geometry, |c.datasets|);
  }

  /** Across all datasets, a label is drawn exactly for each bar holding a positive value. */
  lemma {:induction false} LabelsExactlyForPositiveBars(datasets: seq<Dataset>, geometry: seq<seq<Bar>>, n: nat)
    requires n <= |datasets| == |geometry|
    ensures forall d :: d in LabelsOfDatasets(datasets, geometry, n) <==>
      exists k: nat, i: nat :: k < n && IsLabelOf(datasets, geometry, k, i, d)
  {
    if n > 0 {
      var last := n - 1;
      var before := LabelsOfDatasets(datasets, geometry, last);
      var bars := geometry[last];
      var data := datasets[last].data;
      var mine := DrawnUpTo(data, bars, LabelerFor(last), |bars|);
      assert LabelsOfDatasets(datasets, geometry, n) == before + mine;
      LabelsExactlyForPositiveBars(datasets, geometry, last);
      DrawnExactlyForPositiveBars(data, bars, LabelerFor(last), |bars|);
      forall d | d in mine
        ensures exists k: nat, i: nat :: k < n && IsLabelOf(datasets, geometry, k, i, d)
      {
        var i :| 0 <= i < |bars| && IsPositive(Lookup(data, i)) && d == LabelerFor(last)(bars[i], Lookup(data, i).n);
        assert IsLabelOf(datasets, geometry, last, i, d);
      }
      forall d, k: nat, i: nat | k < n && IsLabelOf(datasets, geometry, k, i, d)
        ensures d in before + mine
      {
        if k == last {
          assert d == LabelerFor(last)(bars[i], Lookup(data, i).n);
          assert d in mine;
        } else {
          assert d in before;
        }
      }
    }
  }

  /** On a mounted chart the euro labels are exactly the labels of the positive profit
      bars; bags and items are never written as money. */
  lemma {:induction false} EuroLabelsAreProfit(p: Payload, geometry: seq<seq<Bar>>, d: Draw)
    requires |geometry| == 3
    ensures d in LabelsOfDatasets(Mount(p).datasets, geometry, 3) && d.caption.Text? <==>
      exists i: nat :: && i < |geometry[ProfitIndex]| && IsPositive(Lookup(p.profit, i))
                       && d == DailyLabel(ProfitIndex, geometry[ProfitIndex][i], Lookup(p.profit, i).n)
  {
    var c := Mount(p);
    LabelsExactlyForPositiveBars(c.datasets, geometry, 3);
    if d in LabelsOfDatasets(c.datasets, geometry, 3) && d.caption.Text? {
      var k: nat, i: nat :| k < 3 && IsLabelOf(c.datasets, geometry, k, i, d);
      assert k == ProfitIndex;
    }
    if exists i: nat :: && i < |geometry[ProfitIndex]| && IsPositive(Lookup(p.profit, i))
                        && d == DailyLabel(ProfitIndex, geometry[ProfitIndex][i], Lookup(p.profit, i).n) {
      var i: nat :| && i < |geometry[ProfitIndex]| && IsPositive(Lookup(p.profit, i))
                    && d == DailyLabel(ProfitIndex, geometry[ProfitIndex][i], Lookup(p.profit, i).n);
      assert IsLabelOf(c.datasets, geometry, ProfitIndex, i, d);
    }
  }
}
