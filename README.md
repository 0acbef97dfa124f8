# OEE chart hook

A model of `OEEChart`, the LiveView hook that draws a Chart.js line chart of
OEE (Overall Equipment Effectiveness) metrics and keeps it current. On every
refresh the hook does three things:

- it normalises a list of interval records into one timestamp axis and four
  series (OEE, availability, performance, quality);
- it picks the x-axis time unit from the span between the first and the last
  timestamp;
- it mutates the one Chart.js object in place and asks for a redraw without
  animation.

Modules:

- `Wrappers` (wrappers.dfy): `Option`.
- `Series` (series.dfy): the interval record, the series set, and the normaliser
  `Normalise`, built from an order-keeping `MapSeq` (JavaScript's `Array.map`).
- `TimeAxis` (time_axis.dfy): `SelectUnit`. It compares whole milliseconds.
  `SelectUnitMatchesDays` proves that this agrees with `updateChart`'s
  days-based if-chain.
- `Chart` (chart.dfy): `ChartState` is a class for the Chart.js object, with the
  fields the hook touches. `OeeChartHook` is a class for the hook, with a nullable
  `chart` field and the methods `UpdateChart`, `HandleUpdate`, `Mounted`, `Updated`
  and `Destroyed`. Each method's new chart state is stated through the pure
  functions `ApplyUpdate` (one `updateChart`) and `Refresh` (one `handleUpdate`).
  The lemmas about those functions carry the properties.

External inputs become parameters:

- The element's `data-intervals` attribute is taken already decoded, as
  `Option<seq<IntervalRecord>>`. `None` means the attribute is absent or empty,
  which the hook replaces by `"[]"`.
- The `data-type` attribute is a string. `""` means absent or empty, which the
  hook replaces by `"line"`.
- Timestamps are integer epoch milliseconds.

Edge cases, as the hook handles them:

- Zero or one record gives `Minute`. The span is NaN or 0, both comparisons
  are false, and no earlier unit is kept.
- `destroyed` never clears the `chart` field. A second `destroyed` destroys
  again, and a later `updated` still mutates the chart; nothing guards either.
- Undecodable `data-intervals` makes `JSON.parse` throw; nothing recovers.
  This model has no decoding step (see below).

## Model

| member | source | states |
|---|---|---|
| `Series.MapSeq` | assets/js/hooks/oee_chart.js:21-25 | the mapped sequence has the input's length, and element i is f applied to input element i |
| `Series.Normalise` | assets/js/hooks/oee_chart.js:21-25 | timestamps and all four series have length \|intervals\|, and entry i of each is the matching field of intervals[i] (order kept, nothing sorted) |
| `Series.AlignedIsNormalise` | assets/js/hooks/oee_chart.js:21-25 | any series set aligned with the records equals the normaliser's output, so alignment fully specifies it |
| `Series.NormaliseEmpty` | assets/js/hooks/oee_chart.js:18-25 | an empty record list gives five empty sequences |
| `Series.MapSeqAppend` | assets/js/hooks/oee_chart.js:21-25 | mapping a concatenation is concatenating the mapped parts, so map keeps the input order |
| `Series.NormaliseAppend` | assets/js/hooks/oee_chart.js:21-25 | normalising a concatenation is the concatenation of the normalised parts (record-by-record, order-preserving) |
| `TimeAxis.Span` | assets/js/hooks/oee_chart.js:123 | the span is undefined (NaN) exactly when there is no timestamp; otherwise first + span is the last timestamp, and a single record has span 0 |
| `TimeAxis.SelectUnit` | assets/js/hooks/oee_chart.js:121-132 | Day iff span > 7 days; Hour iff 1 day < span <= 7 days; Minute iff there is no timestamp or span <= 1 day (strict comparisons) |
| `TimeAxis.SpanInDays` | assets/js/hooks/oee_chart.js:123-124 | the span in days is NaN exactly when there is no timestamp; otherwise days times 86400000 is the millisecond span |
| `TimeAxis.UnitForDays` | assets/js/hooks/oee_chart.js:126-132 | Day iff days > 7; Hour iff 1 < days <= 7; Minute iff days is NaN or days <= 1 |
| `TimeAxis.SelectUnitMatchesDays` | assets/js/hooks/oee_chart.js:123-132 | the millisecond comparisons give the same unit as the source's `days > 7` / `days > 1` chain on range / 86400000, with NaN for an empty list |
| `TimeAxis.UnitDependsOnlyOnEnds` | assets/js/hooks/oee_chart.js:123 | two timestamp lists with the same first and last element get the same unit |
| `TimeAxis.SevenDaysIsHour` | assets/js/hooks/oee_chart.js:126-129 | a span of exactly 7 days gives Hour, not Day |
| `TimeAxis.OneDayIsMinute` | assets/js/hooks/oee_chart.js:128-131 | a span of exactly 1 day gives Minute, not Hour |
| `TimeAxis.DegenerateSpansAreMinute` | assets/js/hooks/oee_chart.js:122-132 | an empty list, a single record, or a last timestamp not after the first all give Minute |
| `TimeAxis.UnitMonotone` | assets/js/hooks/oee_chart.js:126-132 | a longer span never gets a finer unit |
| `Chart.InitialView` | assets/js/hooks/oee_chart.js:33-104 | the configuration createChart builds already has four labelled datasets, the 0..100 y-scale and equal-length (empty) labels and data |
| `Chart.IntervalsOf` | assets/js/hooks/oee_chart.js:18 | an absent or empty intervals attribute means no records; otherwise the decoded records are used as they are |
| `Chart.ChartTypeOf` | assets/js/hooks/oee_chart.js:19 | the chart type is never empty: a set type attribute is used as it is, an absent or empty one gives "line" |
| `Chart.ApplyUpdate` | assets/js/hooks/oee_chart.js:122-150 | after an update: type is chartType, x unit is SelectUnit(timestamps), labels and the four data arrays are the supplied sequences, and dataset labels, y-scale and destroy count are unchanged; the last redraw mode is 'none' |
| `Chart.Refresh` | assets/js/hooks/oee_chart.js:17-27 | after handleUpdate the type is the attribute's (line by default), the labels are the records' timestamps in order, the unit is chosen from those labels, and the last redraw mode is 'none' |
| `Chart.InitialViewShape` | assets/js/hooks/oee_chart.js:33-104 | a fresh chart is line typed, unit hour, no labels, four datasets OEE, Availability, Performance, Quality with empty data, y-scale from zero with max 100 |
| `Chart.ApplyUpdateKeepsWellFormed` | assets/js/hooks/oee_chart.js:143-147 | an update keeps the four labelled datasets and the 0..100 y-scale |
| `Chart.ApplyUpdateIdempotent` | assets/js/hooks/oee_chart.js:140-150 | a second identical update leaves the state of the first (replace, not append) |
| `Chart.RefreshAligned` | assets/js/hooks/oee_chart.js:17-27 | after handleUpdate, labels and the four data arrays all have length \|intervals\| and entry i comes from intervals[i] |
| `Chart.RefreshDefaults` | assets/js/hooks/oee_chart.js:18-19 | with both attributes absent the chart gets type line, no labels, empty data and unit Minute |
| `Chart.ChartState.constructor` | assets/js/hooks/oee_chart.js:30-116 | the new chart object is exactly the initial view (type line, unit hour, four empty labelled datasets, 0..100 y-scale, no redraw, never destroyed) |
| `Chart.ChartState.Redraw` | assets/js/hooks/oee_chart.js:150 | records the requested mode and changes nothing else |
| `Chart.ChartState.Destroy` | assets/js/hooks/oee_chart.js:13 | counts one more destroy call and changes nothing else |
| `Chart.OeeChartHook.constructor` | assets/js/hooks/oee_chart.js:1-3 | before mounting the hook holds no chart and has created none |
| `Chart.OeeChartHook.UpdateChart` | assets/js/hooks/oee_chart.js:118-151 | with no chart nothing changes and no redraw happens; otherwise the chart's new state is ApplyUpdate of its old state |
| `Chart.OeeChartHook.HandleUpdate` | assets/js/hooks/oee_chart.js:17-28 | the chart's new state is Refresh of its old state with the attribute defaults applied |
| `Chart.OeeChartHook.Mounted` | assets/js/hooks/oee_chart.js:2-5 | creates exactly one fresh chart, then applies the first refresh to the initial state |
| `Chart.OeeChartHook.Updated` | assets/js/hooks/oee_chart.js:7-9 | keeps the same chart object and creation count and refreshes it in place |
| `Chart.OeeChartHook.Destroyed` | assets/js/hooks/oee_chart.js:11-15 | destroys the chart whenever there is one, without clearing the field |
| `Chart.KindSwitchScenario` | assets/js/hooks/oee_chart.js:2-9 | mount with no type, then update with type bar: the one chart object goes from line to bar in place, and exactly one chart is created |

## Left out

- Chart.js itself, the canvas and `getContext('2d')`: these are foreign library calls. `update(mode)` is modelled as recording the last requested mode, and `destroy()` as a call counter.
- `JSON.parse` of `data-intervals` and `new Date(...)`: these are library parsing. The records arrive decoded, with integer millisecond timestamps. Malformed JSON, which throws in the hook, and invalid dates, which become NaN, are not modelled.
- Record fields are modelled as `real`. Missing or non-numeric JSON values, which the hook passes through unchanged, are not modelled.
- TimeAxis.SelectUnit: compares exact integer milliseconds instead of `updateChart`'s floating-point `range / 86400000`. The two agree for every span below 2^53 ms. Float rounding is not modelled.
- Styling options (colours, border widths, tension, fill, legend, tooltip, interaction mode, display formats, axis titles): constant configuration that no operation reads or changes. Only the dataset labels and the y-scale are kept, to state that nothing else changes.
- The LiveView host lifecycle and event scheduling: framework plumbing. The model takes the hook methods as called one at a time.
