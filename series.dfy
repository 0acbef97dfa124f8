/** The data normaliser of the OEE chart hook: a list of interval records
    becomes one timestamp axis and four metric series, index by index. */
module Series {

  /** One interval record, already decoded: the timestamp in epoch
      milliseconds and the four percentages, passed through unvalidated. */
  datatype IntervalRecord = IntervalRecord(
    timestamp: int,
    oee: real,
    availability: real,
    performance: real,
    quality: real)

  /** The five sequences handed to the chart: the x-axis labels and the
      OEE, availability, performance and quality series. */
  datatype SeriesSet = SeriesSet(
    timestamps: seq<int>,
    oee: seq<real>,
    availability: seq<real>,
    performance: seq<real>,
    quality: seq<real>)

  /** `Array.prototype.map`: apply `f` to every element, keeping the order. */
  function MapSeq<T, U>(s: seq<T>, f: T -> U): (r: seq<U>)
    ensures |r| == |s|
    ensures forall i :: 0 <= i < |s| ==> r[i] == f(s[i])
  {
    if s == [] then [] else [f(s[0])] + MapSeq(s[1..], f)
  }

  /** All five sequences have the same length. */
  predicate EqualLengths(s: SeriesSet) {
    && |s.oee| == |s.timestamps|
    && |s.availability| == |s.timestamps|
    && |s.performance| == |s.timestamps|
    && |s.quality| == |s.timestamps|
  }

  /** `s` has one entry per record of `xs`, and entry `i` of every sequence
      is the matching field of `xs[i]`: same order, nothing sorted or dropped. */
  ghost predicate AlignedWith(s: SeriesSet, xs: seq<IntervalRecord>) {
    && |s.timestamps| == |xs|
    && EqualLengths(s)
    && forall i :: 0 <= i < |xs| ==>
         && s.timestamps[i] == xs[i].timestamp
         && s.oee[i] == xs[i].oee
         && s.availability[i] == xs[i].availability
         && s.performance[i] == xs[i].performance
         && s.quality[i] == xs[i].quality
  }

  /** The five `map` calls of `handleUpdate`. */
  function Normalise(xs: seq<IntervalRecord>): (s: SeriesSet)
    ensures AlignedWith(s, xs)
  {
    SeriesSet(
      MapSeq(xs, (r: IntervalRecord) => r.timestamp),
      MapSeq(xs, (r: IntervalRecord) => r.oee),
      MapSeq(xs, (r: IntervalRecord) => r.availability),
      MapSeq(xs, (r: IntervalRecord) => r.performance),
      MapSeq(xs, (r: IntervalRecord) => r.quality))
  }

  /** Sequence-wise concatenation of two series sets. */
  function Concat(a: SeriesSet, b: SeriesSet): (r: SeriesSet) {
    SeriesSet(
      a.timestamps + b.timestamps,
      a.oee + b.oee,
      a.availability + b.availability,
      a.performance + b.performance,
      a.quality + b.quality)
  }

  /** Alignment pins the series set down: `Normalise` is the only result it allows. */
  lemma AlignedIsNormalise(s: SeriesSet, xs: seq<IntervalRecord>)
    requires AlignedWith(s, xs)
    ensures s == Normalise(xs)
  {
  }

  /** No records, no points: all five sequences are empty. */
  lemma NormaliseEmpty()
    ensures Normalise([]) == SeriesSet([], [], [], [], [])
  {
  }

  /** `map` distributes over concatenation. */
  lemma {:induction false} MapSeqAppend<T, U>(a: seq<T>, b: seq<T>, f: T -> U)
    ensures MapSeq(a + b, f) == MapSeq(a, f) + MapSeq(b, f)
  {
    if a == [] {
      assert a + b == b;
    } else {
      assert (a + b)[1..] == a[1..] + b;
      MapSeqAppend(a[1..], b, f);
    }
  }

  /** The normaliser works record by record: normalising a concatenation is
      concatenating the normalised parts, so the input order is kept. */
  lemma NormaliseAppend(a: seq<IntervalRecord>, b: seq<IntervalRecord>)
    ensures Normalise(a + b) == Concat(Normalise(a), Normalise(b))
  {
    MapSeqAppend(a, b, (r: IntervalRecord) => r.timestamp);
    MapSeqAppend(a, b, (r: IntervalRecord) => r.oee);
    MapSeqAppend(a, b, (r: IntervalRecord) => r.availability);
    MapSeqAppend(a, b, (r: IntervalRecord) => r.performance);
    MapSeqAppend(a, b, (r: IntervalRecord) => r.quality);
  }
}
