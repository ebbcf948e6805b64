/** The configuration objects the hooks hand to the chart renderer, as records. */
module ChartModel {
  import opened Values

  /** Colours are CSS colour strings the renderer interprets; the model only compares them. */
  type Color = string

  const Green: Color := "rgb(34, 197, 94)"
  const GreenHalf: Color := "rgba(34, 197, 94, 0.5)"
  const GreenFaint: Color := "rgba(34, 197, 94, 0.3)"
  const GreenBar: Color := "rgba(34, 197, 94, 0.6)"
  const Blue: Color := "rgb(59, 130, 246)"
  const BlueBar: Color := "rgba(59, 130, 246, 0.6)"
  const Transparent: Color := "transparent"

  /** The `type` of a chart or of one dataset. */
  datatype ChartKind = BarType | LineType

  /** The `yAxisID` of a dataset: the left axis "y" or the right axis "y1". */
  datatype AxisId = Y | Y1

  /** A `backgroundColor`: one colour for the whole dataset, or one per bar. */
  datatype Paint = Uniform(color: Color) | PerBar(colors: seq<Color>)

  /** One dataset object. Every option is `None` unless the object literal sets it;
      `legendLabel` is the `label` option. */
  datatype Dataset = Dataset(
    legendLabel: Option<string>,
    data: seq<Value>,
    kind: Option<ChartKind>,
    axis: Option<AxisId>,
    order: Option<int>,
    fill: Option<bool>,
    border: Option<Color>,
    background: Option<Paint>,
    dash: Option<seq<nat>>,
    borderWidth: Option<nat>,
    borderRadius: Option<nat>,
    barThickness: Option<nat>,
    tension: Option<real>,
    spanGaps: Option<bool>,
    pointRadius: Option<nat>)

  /** A dataset object that sets `data` and nothing else. */
  function Series(data: seq<Value>): Dataset {
    Dataset(None, data, None, None, None, None, None, None, None, None, None, None, None, None, None)
  }

  /** The `data` part of a chart: category labels on the x axis and the datasets. */
  datatype Chart = Chart(kind: ChartKind, labels: seq<string>, datasets: seq<Dataset>)
}
