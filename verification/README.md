# Chart hooks of the bag/item dashboard, in Dafny

This project models the data-reshaping logic of three client-side chart hooks. The hooks
take a JSON payload from the server and turn it into the dataset list of a bar/line chart.
Two of them also draw value labels onto the rendered bars.

- **Dashboard chart** (`assets/js/hooks/dashboard_chart.js`). Two fixed bar series,
  "Items Created" and "Items Sold". After them come one line per `burndown_lines` entry and
  an optional "Last Month" ghost line. The current month's line is solid and opaque; every
  other month's line is dashed `[5, 5]` and translucent. Only the first line carries the
  legend label "Goal Remaining (€)". On update, datasets 0 and 1 keep their styling and get
  new data. The whole variable tail is rebuilt.
- **Monthly earnings chart** (`assets/js/hooks/monthly_earnings_chart.js`). One bar per month
  with one colour per value; only the last bar is highlighted. Each bar of dataset 0 with a
  positive value is labelled `€<rounded value>`, half way between the bar's top and its base.
- **Daily chart** (`assets/js/hooks/daily_chart.js`). Three bar series in the order Bags,
  Items, Profit. Bags and Items use the count axis `y`; Profit uses the euro axis `y1`. Every
  bar of every dataset with a positive value is labelled 8 units above its top. Profit
  labels (dataset index 2) read `€<rounded value>`; the other datasets show the raw number.

Modules:

- `Values`: JSON values. A series entry is a number (`real`) or `null`. An index past the
  end of `data` reads as `undefined`, which fails `> 0` like `null` does.
- `ChartModel`: dataset and chart records. Colours are opaque CSS strings.
- `Canvas`: bar geometry, `fillText` calls, `Math.round`, and the decimal text of a
  template literal.
- `BarLabels`: the loop both label plugins share.
- `DashboardChart`, `MonthlyEarningsChart`, `DailyChart`: one module per hook.

Injected inputs: the clock (`new Date()`) is a `Today(fullYear, monthIndex)` parameter, and
`monthIndex` is 0-based as `getMonth` returns it. The renderer's bar geometry (`x`, `y`,
`base` of each element of `getDatasetMeta(k).data`) is an input sequence. Payloads arrive
already parsed.

The label plugins skip every value that is not strictly positive: zero, negative, null
and missing values all draw nothing. The dashboard update builds a new dataset array. That
array keeps the two existing bar dataset objects, with new data, and appends freshly built
burndown and ghost lines.

`Math.round` is modelled exactly on reals as floor(v + 1/2). Its contract is the ECMAScript
definition: the nearest integer, with halves going up. A currency label is the text `€`
followed by the decimal digits of the rounded amount. For amounts up to 2^53 in magnitude,
these digits carry no leading zeros, exactly as JavaScript prints integers. A round-trip lemma shows that the amount can always be read
back from the label, and a uniqueness lemma shows that no other zero-free digit string
denotes the same amount.

## Model

| member | source | states |
|---|---|---|
| `DashboardChart.BuildBurndownDatasets` | assets/js/hooks/dashboard_chart.js:1-22 | one dataset per burndown line, in order, with `data` equal to that line's values; the label is "Goal Remaining (€)" exactly at index 0 and "" elsewhere; solid green exactly when (year, month) is the current year and the 1-based current month, dashed [5,5] translucent exactly otherwise; every line is type line, axis y1, order 0, fill false |
| `DashboardChart.BuildGhostDataset` | assets/js/hooks/dashboard_chart.js:24-40 | no dataset exactly when `ghost_line` is null or missing; otherwise a "Last Month" line whose data is the ghost line, on axis y1 with order 1, dashed and faint |
| `DashboardChart.Mount` | assets/js/hooks/dashboard_chart.js:43-73 | bar chart with the payload's labels; Items Created and Items Sold carry the payload's series in positions 0 and 1, followed by the burndown and ghost lines; length 2 + number of burndown lines + (1 if ghost) |
| `DashboardChart.Update` | assets/js/hooks/dashboard_chart.js:116-131 | labels replaced; datasets 0 and 1 get the new `items_created` / `items_sold` and keep every other option; the tail is exactly the new burndown lines and ghost line; length 2 + lines + ghost |
| `DashboardChart.UpdateOfMountIsMount` | assets/js/hooks/dashboard_chart.js:116-130 | updating a mounted chart yields the chart a fresh mount of the new payload would build (same shape, order and styling) |
| `DashboardChart.UpdateIdempotent` | assets/js/hooks/dashboard_chart.js:116-130 | applying the same update twice equals applying it once |
| `DashboardChart.ReadBackAfterUpdate` | assets/js/hooks/dashboard_chart.js:118-130 | after an update, the datasets show exactly the new payload: its labels, both bar series, every burndown series in order with its current-month flag, and the ghost line iff present; nothing of the old tail survives |
| `MonthlyEarningsChart.BarColors` | assets/js/hooks/monthly_earnings_chart.js:37-39 | one colour per value; entry i is the highlight colour iff i is the last index, and the dim colour otherwise |
| `MonthlyEarningsChart.OneHighlightedBar` | assets/js/hooks/monthly_earnings_chart.js:37-39 | the highlight colour occurs exactly once when there are values and never when there are none |
| `MonthlyEarningsChart.Mount` | assets/js/hooks/monthly_earnings_chart.js:31-43 | a bar chart with the payload's labels and a single dataset holding the values, coloured per bar by the highlight rule |
| `MonthlyEarningsChart.Update` | assets/js/hooks/monthly_earnings_chart.js:80-88 | labels, dataset 0's data and its per-bar colours are replaced wholesale (colours by the mount rule); every other option of dataset 0 and every other dataset is unchanged |
| `MonthlyEarningsChart.UpdateOfMountIsMount` | assets/js/hooks/monthly_earnings_chart.js:82-86 | updating a mounted chart yields exactly the chart mounting the new payload builds, so update and mount colour bars alike |
| `MonthlyEarningsChart.UpdateIdempotent` | assets/js/hooks/monthly_earnings_chart.js:82-86 | applying the same update twice equals applying it once |
| `MonthlyEarningsChart.LabelY` | assets/js/hooks/monthly_earnings_chart.js:16 | the label's y is equidistant from the bar's top and base, hence between them |
| `MonthlyEarningsChart.EarningsLabel` | assets/js/hooks/monthly_earnings_chart.js:16-17 | the label sits at the bar's x and its vertical midpoint; its text is exactly `€` followed by the canonical decimal of round(value), and reads back as round(value) |
| `MonthlyEarningsChart.AfterDraw` | assets/js/hooks/monthly_earnings_chart.js:3-22 | only dataset 0 is read; one label per rendered bar whose value is a positive number, in bar order; a label is drawn iff it belongs to such a bar; zero, negative, null and missing values draw nothing |
| `DailyChart.Mount` | assets/js/hooks/daily_chart.js:31-58 | exactly three datasets in the order Bags, Items, Profit (€), carrying the payload's series; a dataset is on axis y1 iff it is Profit (index 2), and on y otherwise |
| `DailyChart.DailyCaption` | assets/js/hooks/daily_chart.js:16 | the text is a euro string iff the dataset index is 2; that string is exactly `€` followed by the canonical decimal of round(value) and reads back as round(value); otherwise the caption is the raw value itself |
| `DailyChart.DailyLabel` | assets/js/hooks/daily_chart.js:16-17 | the label is at the bar's x, 8 units above the bar's top, with the caption of its dataset |
| `DailyChart.AfterDatasetsDraw` | assets/js/hooks/daily_chart.js:3-24 | labels dataset by dataset, bar by bar; a label is drawn iff it belongs to some bar of some dataset whose value is a positive number |
| `DailyChart.LabelsExactlyForPositiveBars` | assets/js/hooks/daily_chart.js:11-20 | over any number of datasets, a label is drawn exactly for each bar whose value is positive |
| `DailyChart.EuroLabelsAreProfit` | assets/js/hooks/daily_chart.js:11-17 | on a mounted chart, a drawn label is a euro string iff it is the label of a profit bar with a positive value; bags and items never get euro labels |
| `BarLabels.PositiveIndices` | assets/js/hooks/daily_chart.js:13-15 | the bar indices passing `value > 0`, strictly increasing: every index listed is in range and positive, and every positive index in range is listed |
| `BarLabels.DrawnUpTo` | assets/js/hooks/monthly_earnings_chart.js:13-19 | the forEach over the bars emits exactly one label per positive index, in increasing index order, built from that bar and its value |
| `BarLabels.DrawBarLabels` | assets/js/hooks/daily_chart.js:13-19 | the loop over one dataset's bars emits exactly the labels of the positive bars, in bar order |
| `BarLabels.DrawnExactlyForPositiveBars` | assets/js/hooks/monthly_earnings_chart.js:13-19 | a label is among those drawn iff some rendered bar with a positive value produces it |
| `Canvas.Round` | assets/js/hooks/monthly_earnings_chart.js:17 | `Math.round`: the result is within one half of the value, with halves rounding up |
| `Canvas.IntTextRoundTrip` | assets/js/hooks/daily_chart.js:16 | the decimal text of an integer inside a template literal reads back as that integer |
| `Canvas.EuroTextRoundTrip` | assets/js/hooks/monthly_earnings_chart.js:17 | the text `€<n>` reads back as n, so different rounded amounts give different labels |
| `Canvas.EuroTextExamples` | assets/js/hooks/monthly_earnings_chart.js:15-17 | 12.5 is labelled "€13" (halves round up); 0.4 passes the positive-value guard and is labelled "€0" |
| `Canvas.Digits` | assets/js/hooks/monthly_earnings_chart.js:17 | the decimal text of a rounded amount is a non-empty run of digits with no leading zero, unless it is the single digit "0" |
| `Canvas.DigitsCanonical` | assets/js/hooks/daily_chart.js:16 | any digit string without a leading zero that parses to n is exactly `Digits(n)`, so the printed amount is unique |

## Left out

- `assets/js/hooks/camera.js`: it is camera access, video and canvas drawing, asynchronous
  JPEG encoding and event pushing. All of that is I/O with no data logic to model.
- The renderer itself: `new Chart`, `chart.update()`, `chart.destroy()` and the `destroyed`
  hooks only call into the charting library. `getDatasetMeta` is replaced by bar geometry
  passed in as input.
- `JSON.parse` of `data-chart-data`: payloads are taken as already-parsed records. A payload
  with missing fields is not modelled. In the source, a missing `burndown_lines` makes
  `.map` throw in the dashboard hook. A missing `values` makes `data.values.map` throw in
  the monthly hook: on mount before the chart is built, and on update after `data` has
  already been set to undefined. A missing dashboard or daily bar series only leaves that
  dataset's `data` undefined.
- The scale, legend, tooltip, interaction, hover, animation and responsiveness option
  objects, plus the canvas font, alignment and fill style. They are static configuration.
  Chart-level `options` are therefore not part of `ChartModel.Chart`.
- `DashboardChart.Update` and `MonthlyEarningsChart.Update` require the chart to already have
  the datasets they index. The source would throw on a chart without them, but every chart
  built by `Mount` has them.
- `MonthlyEarningsChart.AfterDraw` requires at least one dataset. In the source, a chart
  with no datasets gets an empty `getDatasetMeta(0).data`, so the plugin draws nothing. The
  hook's chart always has exactly one dataset, so every call meets the requirement.
- `DailyChart.AfterDatasetsDraw` requires one bar list per dataset. The renderer always
  keeps a meta entry for every dataset.
- `DailyChart.DailyCaption`: a non-profit label is the number itself (`Number(v)`).
  JavaScript's number-to-string conversion, done by `fillText`, is not modelled.
- `DailyChart.DailyCaption`: euro texts of rounded amounts above 2^53 in magnitude are not
  modelled. Past 2^53, JavaScript prints the shortest digits that read back as the same
  double and pads them with zeros: 2^64 prints as "18446744073709552000", whereas the model
  writes every digit. From 10^21 upward it switches to exponent form, which is one case of
  the same gap.
- `MonthlyEarningsChart.EarningsLabel`: the same gap for its euro text. Rounded amounts
  above 2^53 in magnitude, including the exponent form from 10^21, are not modelled.
- Series values and bar geometry are exact reals, not IEEE doubles. Double rounding of the
  label positions is not modelled. The `value > 0` guard and `Math.round` are exact on
  doubles, so they need no such caveat.
- `MonthlyEarningsChart.LabelY`: its equal distances to the bar's top and base hold over
  reals only. In doubles, `bar.y + (bar.base - bar.y) / 2` can sit one rounding step off
  centre.
- `DailyChart.DailyLabel`: its `y + 8 == bar.y` holds over reals only. In doubles,
  `bar.y - 8` can lose low-order bits of `bar.y`.
- Non-numeric entries in a series (strings, NaN, infinities) are not modelled. Entries are
  numbers or null.
- The daily hook has no `updated` callback in the source, so there is no daily update
  to model.
