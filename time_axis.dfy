/** The x-axis time unit that `updateChart` picks from the span between the
    first and the last timestamp. */
module TimeAxis {
  import opened Wrappers

  /** The Chart.js time units the hook uses: 'minute', 'hour' and 'day'. */
  datatype TimeUnit = Minute | Hour | Day

  /** Milliseconds in one day: 1000 * 60 * 60 * 24. */
  const MsPerDay: int := 1000 * 60 * 60 * 24

  /** `last - first` in milliseconds, or None (NaN in the hook) when there
      is no timestamp at all. No sorting: the ends are taken as given. */
  function Span(ts: seq<int>): (r: Option<int>)
    ensures r.None? <==> |ts| == 0
    ensures r.Some? ==> ts[0] + r.value == ts[|ts| - 1]
    ensures |ts| == 1 ==> r == Some(0)
  {
    if |ts| == 0 then None else Some(ts[|ts| - 1] - ts[0])
  }

  /** The unit for the span, compared in whole milliseconds; every comparison
      with NaN is false, so a missing span falls through to Minute. */
  function SelectUnit(ts: seq<int>): (u: TimeUnit)
    ensures u == Day <==> Span(ts).Some? && Span(ts).value > 7 * MsPerDay
    ensures u == Hour <==> Span(ts).Some? && MsPerDay < Span(ts).value <= 7 * MsPerDay
    ensures u == Minute <==> Span(ts).None? || Span(ts).value <= MsPerDay
  {
    match Span(ts)
    case None => Minute
    case Some(range) =>
      if range > 7 * MsPerDay then Day
      else if range > MsPerDay then Hour
      else Minute
  }

  /** The span as `updateChart` computes it: `range / (1000 * 60 * 60 * 24)`
      days (exact division), with None standing for NaN. */
  function SpanInDays(ts: seq<int>): (r: Option<real>)
    ensures r.None? <==> |ts| == 0
    ensures r.Some? ==> r.value * MsPerDay as real == (ts[|ts| - 1] - ts[0]) as real
  {
    match Span(ts)
    case None => None
    case Some(range) => Some(range as real / MsPerDay as real)
  }

  /** `updateChart`'s if-chain on days, where `NaN > 7` and `NaN > 1` are false. */
  function UnitForDays(days: Option<real>): (u: TimeUnit)
    ensures u == Day <==> days.Some? && days.value > 7.0
    ensures u == Hour <==> days.Some? && 1.0 < days.value <= 7.0
    ensures u == Minute <==> days.None? || days.value <= 1.0
  {
    if days.Some? && days.value > 7.0 then Day
    else if days.Some? && days.value > 1.0 then Hour
    else Minute
  }

  /** Comparing whole milliseconds gives the same unit as comparing days. */
  lemma SelectUnitMatchesDays(ts: seq<int>)
    ensures SelectUnit(ts) == UnitForDays(SpanInDays(ts))
  {
  }

  /** Only the two ends matter: sequences with the same first and last
      timestamp get the same unit whatever lies between. */
  lemma UnitDependsOnlyOnEnds(a: seq<int>, b: seq<int>)
    requires |a| > 0 && |b| > 0
    requires a[0] == b[0] && a[|a| - 1] == b[|b| - 1]
    ensures SelectUnit(a) == SelectUnit(b)
  {
  }

  /** Exactly seven days is not more than seven days: the unit is Hour. */
  lemma SevenDaysIsHour(first: int)
    ensures SelectUnit([first, first + 7 * MsPerDay]) == Hour
  {
  }

  /** Exactly one day is not more than one day: the unit is Minute. */
  lemma OneDayIsMinute(first: int)
    ensures SelectUnit([first, first + MsPerDay]) == Minute
  {
  }

  /** Zero or one record, or a last timestamp before the first, all give Minute. */
  lemma DegenerateSpansAreMinute(ts: seq<int>)
    requires |ts| <= 1 || ts[|ts| - 1] <= ts[0]
    ensures SelectUnit(ts) == Minute
  {
  }

  /** Coarseness of a unit, for stating monotonicity. */
  function Rank(u: TimeUnit): (r: nat) {
    match u
    case Minute => 0
    case Hour => 1
    case Day => 2
  }

  /** A longer span never gets a finer unit. */
  lemma UnitMonotone(a: seq<int>, b: seq<int>)
    requires |a| > 0 && |b| > 0
    requires Span(a).value <= Span(b).value
    ensures Rank(SelectUnit(a)) <= Rank(SelectUnit(b))
  {
  }
}
