/** The chart controller of the OEE chart hook: the long-lived Chart.js
    object and the LiveView hook that creates it, updates it in place and
    destroys it. */
module Chart {
  import opened Wrappers
  import opened Series
  import opened TimeAxis

  /** One Chart.js dataset: its legend label (Chart.js `label`; `label` is a Dafny keyword, so `name` here) and its data points. */
  datatype Dataset = Dataset(name: string, data: seq<real>)

  /** The dataset labels `createChart` gives, in order. */
  const DatasetLabels: seq<string> := ["OEE", "Availability", "Performance", "Quality"]

  /** The redraw mode `updateChart` asks for: no animation. */
  const RedrawNone: string := "none"

  /** The chart type used when the element carries none. */
  const DefaultType: string := "line"

  /** The parts of a Chart.js chart this hook reads or writes: `config.type`,
      `options.scales.x.time.unit`, `data.labels`, `data.datasets`, the
      y-scale's `beginAtZero` and `max`, the last redraw mode requested with
      `update(mode)` and how often `destroy()` was called. */
  datatype ChartView = ChartView(
    kind: string,
    xUnit: TimeUnit,
    labels: seq<int>,
    datasets: seq<Dataset>,
    yBeginAtZero: bool,
    yMax: int,
    lastRedraw: Option<string>,
    destroyCalls: nat)

  /** The chart `createChart` builds: it already has the shape every later
      update keeps, with all five arrays empty. */
  function InitialView(): (v: ChartView)
    ensures Consistent(v) && v.labels == []
  {
    ChartView(
      DefaultType, Hour, [],
      [Dataset("OEE", []), Dataset("Availability", []), Dataset("Performance", []), Dataset("Quality", [])],
      true, 100, None, 0)
  }

  /** The shape every chart of this hook keeps: four datasets with the fixed
      labels in order and a 0..100 y-scale. */
  predicate WellFormed(v: ChartView) {
    && |v.datasets| == |DatasetLabels|
    && (forall k :: 0 <= k < |DatasetLabels| ==> v.datasets[k].name == DatasetLabels[k])
    && v.yBeginAtZero
    && v.yMax == 100
  }

  /** Labels and all four data arrays have the same length. */
  predicate Consistent(v: ChartView) {
    && WellFormed(v)
    && forall k :: 0 <= k < |v.datasets| ==> |v.datasets[k].data| == |v.labels|
  }

  /** The data arrays of the first four datasets. */
  function DataOf(v: ChartView): (r: seq<seq<real>>)
    requires 4 <= |v.datasets|
  {
    [v.datasets[0].data, v.datasets[1].data, v.datasets[2].data, v.datasets[3].data]
  }

  /** What one call of `updateChart` on an existing chart leaves behind. */
  function ApplyUpdate(v: ChartView, timestamps: seq<int>, oee: seq<real>, availability: seq<real>,
                       performance: seq<real>, quality: seq<real>, chartType: string): (r: ChartView)
    requires 4 <= |v.datasets|
    ensures r.kind == chartType
    ensures r.xUnit == SelectUnit(timestamps)
    ensures r.labels == timestamps
    ensures |r.datasets| == |v.datasets|
    ensures DataOf(r) == [oee, availability, performance, quality]
    ensures forall k :: 4 <= k < |v.datasets| ==> r.datasets[k] == v.datasets[k]
    ensures forall k :: 0 <= k < |v.datasets| ==> r.datasets[k].name == v.datasets[k].name
    ensures r.yBeginAtZero == v.yBeginAtZero && r.yMax == v.yMax && r.destroyCalls == v.destroyCalls
    ensures r.lastRedraw == Some(RedrawNone)
  {
    var ds := v.datasets;
    var ds := ds[0 := ds[0].(data := oee)];
    var ds := ds[1 := ds[1].(data := availability)];
    var ds := ds[2 := ds[2].(data := performance)];
    var ds := ds[3 := ds[3].(data := quality)];
    v.(kind := chartType, xUnit := SelectUnit(timestamps), labels := timestamps, datasets := ds,
       lastRedraw := Some(RedrawNone))
  }

  /** `this.el.dataset.intervals || "[]"`, already decoded: None stands for an
      absent or empty attribute. */
  function IntervalsOf(attr: Option<seq<IntervalRecord>>): (xs: seq<IntervalRecord>)
    ensures attr.None? ==> xs == []
    ensures attr.Some? ==> xs == attr.value
  {
    attr.GetOr([])
  }

  /** `this.el.dataset.type || "line"`: the empty string stands for an absent
      or empty attribute. */
  function ChartTypeOf(attr: string): (t: string)
    ensures t != ""
    ensures attr != "" ==> t == attr
    ensures attr == "" ==> t == "line"
  {
    if attr == "" then DefaultType else attr
  }

  /** What one call of `handleUpdate` does to an existing chart: the type
      from the attribute (line by default), the records' timestamps as labels
      and the unit chosen from them. */
  function Refresh(v: ChartView, intervalsAttr: Option<seq<IntervalRecord>>, typeAttr: string): (r: ChartView)
    requires 4 <= |v.datasets|
    ensures r.kind == ChartTypeOf(typeAttr)
    ensures |r.labels| == |IntervalsOf(intervalsAttr)|
    ensures forall i :: 0 <= i < |r.labels| ==> r.labels[i] == IntervalsOf(intervalsAttr)[i].timestamp
    ensures r.xUnit == SelectUnit(r.labels)
    ensures |r.datasets| == |v.datasets| && r.lastRedraw == Some(RedrawNone)
  {
    var s := Normalise(IntervalsOf(intervalsAttr));
    ApplyUpdate(v, s.timestamps, s.oee, s.availability, s.performance, s.quality, ChartTypeOf(typeAttr))
  }

  /** A fresh chart has type line, unit hour, no labels, and the four labelled
      datasets empty over a 0..100 y-scale. */
  lemma InitialViewShape()
    ensures WellFormed(InitialView()) && Consistent(InitialView())
    ensures InitialView().kind == "line" && InitialView().xUnit == Hour && InitialView().labels == []
    ensures forall k :: 0 <= k < |InitialView().datasets| ==> InitialView().datasets[k] == Dataset(DatasetLabels[k], [])
  {
  }

  /** Updating keeps the four labelled datasets and the y-scale. */
  lemma ApplyUpdateKeepsWellFormed(v: ChartView, timestamps: seq<int>, oee: seq<real>, availability: seq<real>,
                                   performance: seq<real>, quality: seq<real>, chartType: string)
    requires WellFormed(v)
    ensures WellFormed(ApplyUpdate(v, timestamps, oee, availability, performance, quality, chartType))
  {
  }

  /** `updateChart` replaces rather than appends: a second identical call
      changes nothing. */
  lemma ApplyUpdateIdempotent(v: ChartView, timestamps: seq<int>, oee: seq<real>, availability: seq<real>,
                              performance: seq<real>, quality: seq<real>, chartType: string)
    requires 4 <= |v.datasets|
    ensures var once := ApplyUpdate(v, timestamps, oee, availability, performance, quality, chartType);
            ApplyUpdate(once, timestamps, oee, availability, performance, quality, chartType) == once
  {
  }

  /** After `handleUpdate` the labels and the four data arrays all have one
      entry per record, each taken from the record at the same index. */
  lemma RefreshAligned(v: ChartView, intervalsAttr: Option<seq<IntervalRecord>>, typeAttr: string)
    requires WellFormed(v)
    ensures var r := Refresh(v, intervalsAttr, typeAttr);
            var xs := IntervalsOf(intervalsAttr);
            && Consistent(r)
            && |r.labels| == |xs|
            && forall i :: 0 <= i < |xs| ==>
                 && r.labels[i] == xs[i].timestamp
                 && r.datasets[0].data[i] == xs[i].oee
                 && r.datasets[1].data[i] == xs[i].availability
                 && r.datasets[2].data[i] == xs[i].performance
                 && r.datasets[3].data[i] == xs[i].quality
  {
    var xs := IntervalsOf(intervalsAttr);
    var s := Normalise(xs);
    var r := ApplyUpdate(v, s.timestamps, s.oee, s.availability, s.performance, s.quality, ChartTypeOf(typeAttr));
    assert r == Refresh(v, intervalsAttr, typeAttr);
    assert DataOf(r) == [s.oee, s.availability, s.performance, s.quality];
    assert r.datasets[0].data == s.oee && r.datasets[1].data == s.availability;
    assert r.datasets[2].data == s.performance && r.datasets[3].data == s.quality;
    assert Consistent(r);
    forall i | 0 <= i < |xs|
      ensures r.labels[i] == xs[i].timestamp && r.datasets[0].data[i] == xs[i].oee
      ensures r.datasets[1].data[i] == xs[i].availability && r.datasets[2].data[i] == xs[i].performance
      ensures r.datasets[3].data[i] == xs[i].quality
    {
    }
  }

  /** Absent attributes give empty series and the line type. */
  lemma RefreshDefaults(v: ChartView)
    requires WellFormed(v)
    ensures var r := Refresh(v, None, "");
            && r.kind == "line" && r.labels == [] && r.xUnit == Minute
            && forall k :: 0 <= k < |r.datasets| ==> r.datasets[k].data == []
  {
    var r := Refresh(v, None, "");
    NormaliseEmpty();
    assert DataOf(r) == [[], [], [], []];
    forall k | 0 <= k < |r.datasets| ensures r.datasets[k].data == [] {
      assert r.datasets[k].data == DataOf(r)[k];
    }
  }

  /** The long-lived Chart.js object, mutated in place by the hook. */
  class ChartState {
    var kind: string
    var xUnit: TimeUnit
    var labels: seq<int>
    var datasets: seq<Dataset>
    var yBeginAtZero: bool
    var yMax: int
    var lastRedraw: Option<string>
    var destroyCalls: nat

    /** The chart's current fields as a value. */
    function View(): ChartView
      reads this
    {
      ChartView(kind, xUnit, labels, datasets, yBeginAtZero, yMax, lastRedraw, destroyCalls)
    }

    ghost predicate Valid()
      reads this
    {
      WellFormed(View())
    }

    /** `new Chart(ctx, {...})` with the configuration of `createChart`. */
    constructor ()
      ensures Valid()
      ensures View() == InitialView()
    {
      kind := DefaultType;
      xUnit := Hour;
      labels := [];
      datasets := [Dataset("OEE", []), Dataset("Availability", []), Dataset("Performance", []), Dataset("Quality", [])];
      yBeginAtZero := true;
      yMax := 100;
      lastRedraw := None;
      destroyCalls := 0;
    }

    /** `chart.update(mode)`: record the requested redraw mode. */
    method Redraw(mode: string)
      modifies this
      ensures View() == old(View()).(lastRedraw := Some(mode))
    {
      lastRedraw := Some(mode);
    }

    /** `chart.destroy()`: count the call; the fields stay readable. */
    method Destroy()
      modifies this
      ensures View() == old(View()).(destroyCalls := old(destroyCalls) + 1)
    {
      destroyCalls := destroyCalls + 1;
    }
  }

  /** The `OEEChart` LiveView hook: one nullable chart field; the element's
      `data-intervals` and `data-type` attributes are passed in. */
  class OeeChartHook {
    var chart: ChartState?
    /** How many charts `mounted` has created. */
    ghost var creations: nat

    ghost predicate Valid()
      reads this, chart
    {
      chart != null ==> chart.Valid()
    }

    /** The hook before `mounted`: no chart. */
    constructor ()
      ensures Valid() && chart == null && creations == 0
    {
      chart := null;
      creations := 0;
    }

    /** `updateChart`: nothing without a chart; otherwise set the type, the
        x unit, the labels and the four data arrays, then redraw with 'none'. */
    method UpdateChart(timestamps: seq<int>, oee: seq<real>, availability: seq<real>,
                       performance: seq<real>, quality: seq<real>, chartType: string)
      requires Valid()
      modifies chart
      ensures Valid()
      ensures chart != null ==>
        chart.View() == ApplyUpdate(old(chart.View()), timestamps, oee, availability, performance, quality, chartType)
    {
      if chart == null {
        return;
      }
      var timeUnit := SelectUnit(timestamps);
      if chart.kind != chartType {
        chart.kind := chartType;
      }
      chart.xUnit := timeUnit;
      chart.labels := timestamps;
      chart.datasets := chart.datasets[0 := chart.datasets[0].(data := oee)];
      chart.datasets := chart.datasets[1 := chart.datasets[1].(data := availability)];
      chart.datasets := chart.datasets[2 := chart.datasets[2].(data := performance)];
      chart.datasets := chart.datasets[3 := chart.datasets[3].(data := quality)];
      chart.Redraw(RedrawNone);
    }

    /** `handleUpdate`: read the attributes with their defaults, normalise
        the records and update the chart. */
    method HandleUpdate(intervalsAttr: Option<seq<IntervalRecord>>, typeAttr: string)
      requires Valid()
      modifies chart
      ensures Valid()
      ensures chart != null ==> chart.View() == Refresh(old(chart.View()), intervalsAttr, typeAttr)
    {
      var intervals := IntervalsOf(intervalsAttr);
      var chartType := ChartTypeOf(typeAttr);
      var s := Normalise(intervals);
      UpdateChart(s.timestamps, s.oee, s.availability, s.performance, s.quality, chartType);
    }

    /** `mounted`: create the chart, then run the first update. */
    method Mounted(intervalsAttr: Option<seq<IntervalRecord>>, typeAttr: string)
      requires Valid()
      modifies this
      ensures Valid() && chart != null && fresh(chart)
      ensures chart.View() == Refresh(InitialView(), intervalsAttr, typeAttr)
      ensures creations == old(creations) + 1
    {
      chart := new ChartState();
      creations := creations + 1;
      HandleUpdate(intervalsAttr, typeAttr);
    }

    /** `updated`: update the existing chart, never create one. */
    method Updated(intervalsAttr: Option<seq<IntervalRecord>>, typeAttr: string)
      requires Valid()
      modifies chart
      ensures Valid() && chart == old(chart) && creations == old(creations)
      ensures chart != null ==> chart.View() == Refresh(old(chart.View()), intervalsAttr, typeAttr)
    {
      HandleUpdate(intervalsAttr, typeAttr);
    }

    /** `destroyed`: destroy the chart whenever there is one; the field is
        not cleared. */
    method Destroyed()
      requires Valid()
      modifies chart
      ensures Valid() && chart == old(chart) && creations == old(creations)
      ensures chart != null ==> chart.View() == old(chart.View()).(destroyCalls := old(chart.destroyCalls) + 1)
    {
      if chart != null {
        chart.Destroy();
      }
    }
  }

  /** A mount followed by an update that switches the type from line to bar:
      one chart object is created and its type changes in place. */
  method KindSwitchScenario(xs: seq<IntervalRecord>) returns (firstKind: string, secondKind: string, sameChart: bool, ghost creations: nat)
    ensures firstKind == "line" && secondKind == "bar" && sameChart && creations == 1
  {
    var hook := new OeeChartHook();
    hook.Mounted(Some(xs), "");
    var mountedChart := hook.chart;
    firstKind := hook.chart.kind;
    hook.Updated(Some(xs), "bar");
    secondKind := hook.chart.kind;
    sameChart := hook.chart == mountedChart;
    creations := hook.creations;
  }
}
