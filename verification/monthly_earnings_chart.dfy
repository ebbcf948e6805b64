/** The monthly earnings hook: one bar per month, the latest month highlighted,
    each positive bar labelled with its amount in euros at its vertical middle. */
module MonthlyEarningsChart {
  import opened Values
  import opened ChartModel
  import opened Canvas
  import opened BarLabels

  const Highlight: Color := Green
  const Dim: Color := GreenHalf

  /** The parsed `data-chart-data` payload. */
  datatype Payload = Payload(labels: seq<string>, values: seq<Value>)

  /** The `backgroundColor` array: one colour per value, the last one highlighted. */
  function BarColors(values: seq<Value>): (r: seq<Color>)
    ensures |r| == |values|
    ensures forall i :: 0 <= i < |r| ==> (r[i] == Highlight <==> i == |values| - 1)
    ensures forall i :: 0 <= i < |r| ==> (r[i] == Dim <==> i != |values| - 1)
  {
    seq(|values|, i requires 0 <= i < |values| => if i == |values| - 1 then Highlight else Dim)
  }

  function Occurrences(s: seq<Color>, c: Color): nat {
    if |s| == 0 then 0 else Occurrences(s[..|s| - 1], c) + (if s[|s| - 1] == c then 1 else 0)
  }

  lemma {:induction false} NoOccurrences(s: seq<Color>, c: Color)
    requires forall i :: 0 <= i < |s| ==> s[i] != c
    ensures Occurrences(s, c) == 0
  {
    if |s| > 0 {
      NoOccurrences(s[..|s| - 1], c);
    }
  }

  /** Exactly one bar is highlighted when there is any bar, and none otherwise. */
  lemma {:induction false} OneHighlightedBar(values: seq<Value>)
    ensures Occurrences(BarColors(values), Highlight) == if |values| == 0 then 0 else 1
  {
    var r := BarColors(values);
    if |r| > 0 {
      NoOccurrences(r[..|r| - 1], Highlight);
    }
  }

  /** `mounted`: a single unlabelled bar dataset coloured by `BarColors`. */
  function Mount(p: Payload): (c: Chart)
    ensures c.kind == BarType && c.labels == p.labels && |c.datasets| == 1
    ensures c.datasets[0].data == p.values
    ensures c.datasets[0].background == Some(PerBar(BarColors(p.values)))
  {
    var d := Series(p.values).(background := Some(PerBar(BarColors(p.values))),
                               borderRadius := Some(8), barThickness := Some(60));
    Chart(BarType, p.labels, [d])
  }

  /** `updated`: replaces the labels, the data and the colours of dataset 0;
      every other option and every other dataset stay as they were. */
  function Update(c: Chart, p: Payload): (r: Chart)
    requires |c.datasets| >= 1
    ensures r.kind == c.kind && r.labels == p.labels && |r.datasets| == |c.datasets|
    ensures r.datasets[0].data == p.values
    ensures r.datasets[0].background == Some(PerBar(BarColors(p.values)))
    ensures r.datasets[0].(data := c.datasets[0].data, background := c.datasets[0].background) == c.datasets[0]
    ensures r.datasets[1..] == c.datasets[1..]
  {
    var d := c.datasets[0].(data := p.values, background := Some(PerBar(BarColors(p.values))));
    c.(labels := p.labels, datasets := [d] + c.datasets[1..])
  }

  /** Updating a mounted chart gives the chart mounting the new payload gives,
      so the update recolours with the same rule as the mount. */
  lemma UpdateOfMountIsMount(p0: Payload, p: Payload)
    ensures Update(Mount(p0), p) == Mount(p)
  {
  }

  lemma UpdateIdempotent(c: Chart, p: Payload)
    requires |c.datasets| >= 1
    ensures Update(Update(c, p), p) == Update(c, p)
  {
  }

  /** The label's y: half way from the bar's top down to its base. */
  function LabelY(bar: Bar): (y: real)
    ensures y - bar.y == bar.base - y
    ensures bar.y <= bar.base ==> bar.y <= y <= bar.base
    ensures bar.base <= bar.y ==> bar.base <= y <= bar.y
  {
    bar.y + (bar.base - bar.y) / 2.0
  }

  /** The label of one bar holding `value`. */
  function EarningsLabel(bar: Bar, value: real): (d: Draw)
    ensures d.x == bar.x && d.y == LabelY(bar)
    ensures d.caption == Text(EuroText(Round(value)))
    ensures ParseEuro(d.caption.s) == Some(Round(value))
  {
    EuroTextRoundTrip(Round(value));
    Draw(Text(EuroText(Round(value))), bar.x, LabelY(bar))
  }

  /** `afterDraw` of the bar label plugin: only dataset 0 is read, against the bars
      the renderer laid out for it. */
  method AfterDraw(c: Chart, bars: seq<Bar>) returns (drawn: seq<Draw>)
    requires |c.datasets| >= 1
    ensures var idx := PositiveIndices(c.datasets[0].data, |bars|);
      && |drawn| == |idx|
      && forall j :: 0 <= j < |drawn| ==>
           drawn[j] == EarningsLabel(bars[idx[j]], Lookup(c.datasets[0].data, idx[j]).n)
    ensures forall d :: d in drawn <==>
      exists i :: 0 <= i < |bars| && IsPositive(Lookup(c.datasets[0].data, i))
               && d == EarningsLabel(bars[i], Lookup(c.datasets[0].data, i).n)
  {
    drawn := DrawBarLabels(c.datasets[0].data, bars, EarningsLabel);
    DrawnExactlyForPositiveBars(c.datasets[0].data, bars, EarningsLabel, |bars|);
  }
}
