/** The dashboard hook: two bar series of item counts plus a variable number of
    monthly burndown lines and an optional "last month" ghost line. */
module DashboardChart {
  import opened Values
  import opened ChartModel

  const GoalLabel := "Goal Remaining (€)"
  const GhostLabel := "Last Month"
  const DashPattern: seq<nat> := [5, 5]

  /** A calendar month with a 1-based `month`, as the server keys burndown lines. */
  datatype YearMonth = YearMonth(year: int, month: int)

  /** What `Date.prototype.getMonth` can return. */
  type MonthIndex = m: int | 0 <= m < 12

  /** The clock reading the hook takes with `new Date()`; `monthIndex` is 0-based. */
  datatype Today = Today(fullYear: int, monthIndex: MonthIndex)

  function CurrentMonth(t: Today): YearMonth {
    YearMonth(t.fullYear, t.monthIndex + 1)
  }

  /** One entry `[[year, month], values]` of `burndown_lines`. */
  datatype BurndownLine = BurndownLine(key: YearMonth, values: seq<Value>)

  /** The parsed `data-chart-data` payload; `ghostLine` is `None` when `ghost_line`
      is `null` or missing. An empty array is truthy in JavaScript and is `Some([])`. */
  datatype Payload = Payload(
    labels: seq<string>,
    itemsCreated: seq<Value>,
    itemsSold: seq<Value>,
    burndownLines: seq<BurndownLine>,
    ghostLine: Option<seq<Value>>)

  /** The options every burndown line shares. */
  predicate IsBurndownLine(d: Dataset) {
    && d.kind == Some(LineType)
    && d.axis == Some(Y1)
    && d.order == Some(0)
    && d.fill == Some(false)
    && d.background == Some(Uniform(Transparent))
  }

  /** The current month's line: solid and opaque. */
  predicate IsSolid(d: Dataset) {
    d.border == Some(Green) && d.dash == Some([])
  }

  /** A past month's line: dashed and translucent. */
  predicate IsDashed(d: Dataset) {
    d.border == Some(GreenHalf) && d.dash == Some(DashPattern)
  }

  function BurndownDataset(line: BurndownLine, index: nat, t: Today): Dataset {
    var isCurrent := line.key == CurrentMonth(t);
    Dataset(
      legendLabel := Some(if index == 0 then GoalLabel else ""),
      data := line.values,
      kind := Some(LineType),
      axis := Some(Y1),
      order := Some(0),
      fill := Some(false),
      border := Some(if isCurrent then Green else GreenHalf),
      background := Some(Uniform(Transparent)),
      dash := Some(if isCurrent then [] else DashPattern),
      borderWidth := None,
      borderRadius := None,
      barThickness := None,
      tension := Some(0.3),
      spanGaps := Some(false),
      pointRadius := None)
  }

  /** `buildBurndownDatasets`, with the clock passed in. */
  function BuildBurndownDatasets(lines: seq<BurndownLine>, t: Today): (r: seq<Dataset>)
    ensures |r| == |lines|
    ensures forall i :: 0 <= i < |r| ==> r[i].data == lines[i].values
    ensures forall i :: 0 <= i < |r| ==> IsBurndownLine(r[i])
    ensures forall i :: 0 <= i < |r| ==> (r[i].legendLabel == Some(GoalLabel) <==> i == 0)
    ensures forall i :: 0 < i < |r| ==> r[i].legendLabel == Some("")
    ensures forall i :: 0 <= i < |r| ==> (IsSolid(r[i]) <==> lines[i].key == CurrentMonth(t))
    ensures forall i :: 0 <= i < |r| ==> (IsDashed(r[i]) <==> lines[i].key != CurrentMonth(t))
  {
    seq(|lines|, i requires 0 <= i < |lines| => BurndownDataset(lines[i], i, t))
  }

  /** `buildGhostDataset`: a dataset only when `ghost_line` is truthy. */
  function BuildGhostDataset(ghostLine: Option<seq<Value>>): (r: Option<Dataset>)
    ensures r.None? <==> ghostLine.None?
    ensures r.Some? ==> && r.value.data == ghostLine.value
                        && r.value.legendLabel == Some(GhostLabel)
                        && r.value.kind == Some(LineType)
                        && r.value.axis == Some(Y1)
                        && r.value.order == Some(1)
                        && r.value.fill == Some(false)
                        && r.value.border == Some(GreenFaint)
                        && r.value.dash == Some(DashPattern)
  {
    match ghostLine
    case None => None
    case Some(g) => Some(Dataset(
      legendLabel := Some(GhostLabel),
      data := g,
      kind := Some(LineType),
      axis := Some(Y1),
      order := Some(1),
      fill := Some(false),
      border := Some(GreenFaint),
      background := Some(Uniform(Transparent)),
      dash := Some(DashPattern),
      borderWidth := None,
      borderRadius := None,
      barThickness := None,
      tension := Some(0.3),
      spanGaps := Some(false),
      pointRadius := Some(0)))
  }

  /** The "Items Created" bars as built on mount. */
  function ItemsCreatedDataset(data: seq<Value>): Dataset {
    Series(data).(legendLabel := Some("Items Created"), background := Some(Uniform(BlueBar)),
                  border := Some(Blue), borderWidth := Some(1), order := Some(1))
  }

  /** The "Items Sold" bars as built on mount. */
  function ItemsSoldDataset(data: seq<Value>): Dataset {
    Series(data).(legendLabel := Some("Items Sold"), background := Some(Uniform(GreenBar)),
                  border := Some(Green), borderWidth := Some(1), order := Some(2))
  }

  /** The variable part of the dataset list: the burndown lines, then the ghost line if any. */
  function LineDatasets(p: Payload, t: Today): seq<Dataset> {
    BuildBurndownDatasets(p.burndownLines, t)
      + (match BuildGhostDataset(p.ghostLine) case None => [] case Some(g) => [g])
  }

  function GhostCount(p: Payload): nat {
    if p.ghostLine.Some? then 1 else 0
  }

  /** `mounted`: the chart as first configured from a payload. */
  function Mount(p: Payload, t: Today): (c: Chart)
    ensures c.kind == BarType && c.labels == p.labels
    ensures |c.datasets| == 2 + |p.burndownLines| + GhostCount(p)
    ensures c.datasets[0].legendLabel == Some("Items Created") && c.datasets[0].data == p.itemsCreated
    ensures c.datasets[1].legendLabel == Some("Items Sold") && c.datasets[1].data == p.itemsSold
    ensures c.datasets[2..] == LineDatasets(p, t)
  {
    Chart(BarType, p.labels, [ItemsCreatedDataset(p.itemsCreated), ItemsSoldDataset(p.itemsSold)] + LineDatasets(p, t))
  }

  /** `updated`: new labels, new data in the two fixed bar datasets (their styling kept),
      and a freshly built variable tail in place of the old one. */
  function Update(c: Chart, p: Payload, t: Today): (r: Chart)
    requires |c.datasets| >= 2
    ensures r.kind == c.kind && r.labels == p.labels
    ensures |r.datasets| == 2 + |p.burndownLines| + GhostCount(p)
    ensures r.datasets[0].data == p.itemsCreated && r.datasets[0].(data := c.datasets[0].data) == c.datasets[0]
    ensures r.datasets[1].data == p.itemsSold && r.datasets[1].(data := c.datasets[1].data) == c.datasets[1]
    ensures r.datasets[2..] == LineDatasets(p, t)
  {
    var created := c.datasets[0].(data := p.itemsCreated);
    var sold := c.datasets[1].(data := p.itemsSold);
    c.(labels := p.labels, datasets := [created, sold] + LineDatasets(p, t))
  }

  /** Updating a mounted chart gives the chart a fresh mount of the new payload would give:
      the in-place update and the initial build agree on shape, order and styling. */
  lemma UpdateOfMountIsMount(p0: Payload, t0: Today, p: Payload, t: Today)
    ensures Update(Mount(p0, t0), p, t) == Mount(p, t)
  {
  }

  /** Repeating an update with the same payload and clock changes nothing. */
  lemma UpdateIdempotent(c: Chart, p: Payload, t: Today)
    requires |c.datasets| >= 2
    ensures Update(Update(c, p, t), p, t) == Update(c, p, t)
  {
  }

  /** What a payload shows on the chart, as far as a reader of the datasets can tell:
      the series, and which burndown lines are the current month's. */
  datatype View = View(
    labels: seq<string>,
    itemsCreated: seq<Value>,
    itemsSold: seq<Value>,
    burndown: seq<seq<Value>>,
    current: seq<bool>,
    ghostLine: Option<seq<Value>>)

  function Shown(p: Payload, t: Today): View {
    var lines := p.burndownLines;
    View(p.labels, p.itemsCreated, p.itemsSold,
         seq(|lines|, i requires 0 <= i < |lines| => lines[i].values),
         seq(|lines|, i requires 0 <= i < |lines| => lines[i].key == CurrentMonth(t)),
         p.ghostLine)
  }

  /** Reads the view back off a chart: the ghost line, when present, is the last
      dataset and the only line drawn with order 1. */
  function ReadBack(c: Chart): View
    requires |c.datasets| >= 2
  {
    var tail := c.datasets[2..];
    var hasGhost := |tail| > 0 && tail[|tail| - 1].order == Some(1);
    var lines := if hasGhost then tail[..|tail| - 1] else tail;
    View(c.labels, c.datasets[0].data, c.datasets[1].data,
         seq(|lines|, i requires 0 <= i < |lines| => lines[i].data),
         seq(|lines|, i requires 0 <= i < |lines| => lines[i].border == Some(Green)),
         if hasGhost then Some(tail[|tail| - 1].data) else None)
  }

  /** Every update shows exactly the new payload: nothing of the old burndown lines
      survives, and none of the payload's series is lost or reordered. */
  lemma {:induction false} ReadBackAfterUpdate(c: Chart, p: Payload, t: Today)
    requires |c.datasets| >= 2
    ensures ReadBack(Update(c, p, t)) == Shown(p, t)
  {
    var r := Update(c, p, t);
    var burn := BuildBurndownDatasets(p.burndownLines, t);
    var tail := r.datasets[2..];
    assert tail == LineDatasets(p, t);
    if p.ghostLine.Some? {
      assert tail[..|tail| - 1] == burn;
    } else {
      assert tail == burn;
      assert |tail| > 0 ==> tail[|tail| - 1].order == Some(0);
    }
  }
}
