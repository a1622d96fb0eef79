/** The chart's incremental bucketing of live points, against a partition of the whole stream. */
module ChartBuckets {
  import opened Wrappers

  datatype DataPoint = DataPoint(timestamp: int, packetsIn: real, bytesIn: real, packetsOut: real, bytesOut: real,
                                 isActive: bool, windowMs: int, complete: bool)

  // ---- Averages ----

  function Sum(points: seq<DataPoint>, f: DataPoint -> real): real {
    if points == [] then 0.0 else Sum(points[..|points| - 1], f) + f(points[|points| - 1])
  }

  function PacketsIn(): DataPoint -> real { (p: DataPoint) => p.packetsIn }
  function BytesIn(): DataPoint -> real { (p: DataPoint) => p.bytesIn }
  function PacketsOut(): DataPoint -> real { (p: DataPoint) => p.packetsOut }
  function BytesOut(): DataPoint -> real { (p: DataPoint) => p.bytesOut }

  function Average(points: seq<DataPoint>, size: int): DataPoint
    requires points != []
  {
    var n := |points| as real;
    DataPoint(points[|points| - 1].timestamp, Sum(points, PacketsIn()) / n, Sum(points, BytesIn()) / n,
              Sum(points, PacketsOut()) / n, Sum(points, BytesOut()) / n,
              exists p :: p in points && p.isActive, size, false)
  }

  // ---- The specification: cut the whole stream into buckets ----

  /** Where the bucket ends that has point 0 and then every point before `limit`. */
  function Cut(limit: int, raw: seq<DataPoint>, i: nat): (n: nat)
    requires i <= |raw|
    ensures i <= n <= |raw|
    decreases |raw| - i
  {
    if i == |raw| || raw[i].timestamp >= limit then i else Cut(limit, raw, i + 1)
  }

  predicate NoneEmpty(buckets: seq<seq<DataPoint>>) { forall i :: 0 <= i < |buckets| ==> buckets[i] != [] }

  /** Each bucket takes its first point whatever its time; the next starts at the first point it does not take. */
  function Split(start: int, size: int, raw: seq<DataPoint>): (buckets: seq<seq<DataPoint>>)
    ensures raw == [] <==> buckets == []
    ensures NoneEmpty(buckets)
    decreases |raw|
  {
    if raw == [] then [] else
    var n := Cut(start + size, raw, 1);
    [raw[..n]] + if n == |raw| then [] else Split(raw[n].timestamp, size, raw[n..])
  }

  function LastStart(start: int, size: int, raw: seq<DataPoint>): int
    requires raw != []
    decreases |raw|
  {
    var n := Cut(start + size, raw, 1);
    if n == |raw| then start else LastStart(raw[n].timestamp, size, raw[n..])
  }

  function Averages(buckets: seq<seq<DataPoint>>, size: int): seq<DataPoint>
    requires NoneEmpty(buckets)
  {
    if buckets == [] then [] else
    Averages(buckets[..|buckets| - 1], size) + [Average(buckets[|buckets| - 1], size).(complete := true)]
  }

  /** A completed point per closed bucket, an incomplete one for the bucket still open. */
  function LivePoints(start: int, size: int, raw: seq<DataPoint>): seq<DataPoint> {
    var buckets := Split(start, size, raw);
    if buckets == [] then [] else
    var open := buckets[|buckets| - 1];
    Averages(buckets[..|buckets| - 1], size) + [Average(open, size)]
  }

  function Completed(points: seq<DataPoint>): seq<DataPoint> {
    if points == [] then [] else Completed(points[..|points| - 1]) + [points[|points| - 1].(complete := true)]
  }

  /** The first live bucket counts from the last point of the history, if there is one. */
  function FirstStart(history: seq<DataPoint>, raw: seq<DataPoint>): int
    requires raw != []
  {
    if history != [] then history[|history| - 1].timestamp else raw[0].timestamp
  }

  function Expected(history: seq<DataPoint>, size: int, raw: seq<DataPoint>): seq<DataPoint> {
    Completed(history) + if raw == [] then [] else LivePoints(FirstStart(history, raw), size, raw)
  }

  function Newest<T>(limit: Option<nat>, s: seq<T>): seq<T> {
    if limit.None? || limit.value >= |s| then s else s[|s| - limit.value..]
  }

  // ---- What the cut means ----

  function Flatten(buckets: seq<seq<DataPoint>>): seq<DataPoint> {
    if buckets == [] then [] else buckets[0] + Flatten(buckets[1..])
  }

  /** Every raw point lies in exactly one bucket, in order. */
  lemma {:induction false} SplitPartitions(start: int, size: int, raw: seq<DataPoint>)
    ensures Flatten(Split(start, size, raw)) == raw
    decreases |raw|
  {
    if raw == [] {
    } else {
      var n := Cut(start + size, raw, 1);
      if n < |raw| {
        SplitPartitions(raw[n].timestamp, size, raw[n..]);
        assert raw == raw[..n] + raw[n..];
        assert Split(start, size, raw)[1..] == Split(raw[n].timestamp, size, raw[n..]);
      } else {
        assert raw[..n] == raw && Split(start, size, raw)[1..] == [];
      }
    }
  }

  lemma {:induction false} CutSnoc(limit: int, raw: seq<DataPoint>, p: DataPoint, i: nat)
    requires i <= |raw|
    ensures Cut(limit, raw + [p], i)
            == if Cut(limit, raw, i) == |raw| && p.timestamp < limit then |raw| + 1 else Cut(limit, raw, i)
    decreases |raw| - i
  {
    if i < |raw| && raw[i].timestamp < limit {
      CutSnoc(limit, raw, p, i + 1);
    }
  }

  /** The next point either joins the last bucket or starts a new one; earlier buckets stay as they are. */
  function Grown(buckets: seq<seq<DataPoint>>, limit: int, p: DataPoint): seq<seq<DataPoint>>
    requires buckets != []
  {
    var n := |buckets| - 1;
    if p.timestamp >= limit then buckets + [[p]] else buckets[..n] + [buckets[n] + [p]]
  }

  lemma GrownTail(first: seq<DataPoint>, rest: seq<seq<DataPoint>>, limit: int, p: DataPoint)
    requires rest != []
    ensures [first] + Grown(rest, limit, p) == Grown([first] + rest, limit, p)
  {}

  lemma SplitUnfold(start: int, size: int, head: seq<DataPoint>, tail: seq<DataPoint>)
    requires head != [] && Cut(start + size, head + tail, 1) == |head|
    ensures Split(start, size, head + tail) == [head] + if tail == [] then [] else Split(tail[0].timestamp, size, tail)
  {}

  lemma SplitSnocShort(start: int, size: int, head: seq<DataPoint>, p: DataPoint)
    requires head != [] && Cut(start + size, head, 1) == |head|
    ensures Split(start, size, head + [p]) == Grown([head], start + size, p)
  {
    CutSnoc(start + size, head, p, 1);
    if p.timestamp >= start + size {
      SplitUnfold(start, size, head, [p]);
      SplitOne(p.timestamp, size, p);
    } else {
      assert head + [p] + [] == head + [p];
      SplitUnfold(start, size, head + [p], []);
      assert Split(start, size, head + [p]) == [head + [p]];
    }
  }

  lemma SplitWhole(start: int, size: int, head: seq<DataPoint>)
    requires head != [] && Cut(start + size, head, 1) == |head|
    ensures Split(start, size, head) == [head] && LastStart(start, size, head) == start
  {
    assert head[..|head|] == head;
  }

  predicate GrowsWith(start: int, size: int, raw: seq<DataPoint>, p: DataPoint)
    requires raw != []
  {
    Split(start, size, raw + [p]) == Grown(Split(start, size, raw), LastStart(start, size, raw) + size, p)
  }

  lemma {:induction false} SplitSnoc(start: int, size: int, raw: seq<DataPoint>, p: DataPoint)
    requires raw != []
    ensures GrowsWith(start, size, raw, p)
    decreases |raw|
  {
    var head, tail := CutInTwo(start, size, raw);
    if tail == [] {
      assert head + tail == head;
      SplitWhole(start, size, head);
      SplitSnocShort(start, size, head, p);
    } else {
      SplitSnoc(tail[0].timestamp, size, tail, p);
      SplitSnocLong(start, size, head, tail, p);
    }
  }

  lemma CutInTwo(start: int, size: int, raw: seq<DataPoint>) returns (head: seq<DataPoint>, tail: seq<DataPoint>)
    requires raw != []
    ensures raw == head + tail && head != [] && Cut(start + size, raw, 1) == |head|
  {
    var n := Cut(start + size, raw, 1);
    head, tail := raw[..n], raw[n..];
  }

  lemma SplitSnocLong(start: int, size: int, head: seq<DataPoint>, tail: seq<DataPoint>, p: DataPoint)
    requires head != [] && tail != [] && Cut(start + size, head + tail, 1) == |head|
    requires GrowsWith(tail[0].timestamp, size, tail, p)
    ensures GrowsWith(start, size, head + tail, p)
  {
    LastStartUnfold(start, size, head, tail);
    var rest := Split(tail[0].timestamp, size, tail);
    var limit := LastStart(start, size, head + tail) + size;
    assert Split(start, size, head + tail) == [head] + rest by { SplitUnfold(start, size, head, tail); }
    assert Split(start, size, head + tail + [p]) == [head] + Grown(rest, limit, p) by {
      CutSnoc(start + size, head + tail, p, 1);
      assert head + tail + [p] == head + (tail + [p]);
      SplitUnfold(start, size, head, tail + [p]);
    }
    GrownTail(head, rest, limit, p);
  }

  lemma LastStartUnfold(start: int, size: int, head: seq<DataPoint>, tail: seq<DataPoint>)
    requires head != [] && tail != [] && Cut(start + size, head + tail, 1) == |head|
    ensures LastStart(start, size, head + tail) == LastStart(tail[0].timestamp, size, tail)
  {}

  lemma SplitOne(st: int, size: int, p: DataPoint)
    ensures Split(st, size, [p]) == [[p]] && LastStart(st, size, [p]) == st
  {
    assert [p][..1] == [p];
  }

  lemma {:induction false} LastStartSnoc(start: int, size: int, raw: seq<DataPoint>, p: DataPoint)
    requires raw != []
    ensures LastStart(start, size, raw + [p])
            == if p.timestamp >= LastStart(start, size, raw) + size then p.timestamp else LastStart(start, size, raw)
    decreases |raw|
  {
    var n := Cut(start + size, raw, 1);
    CutSnoc(start + size, raw, p, 1);
    if n == |raw| {
      assert (raw + [p])[n..] == [p];
    } else {
      assert (raw + [p])[n..] == raw[n..] + [p];
      LastStartSnoc(raw[n].timestamp, size, raw[n..], p);
    }
  }

  // ---- The provider's state ----

  const MIN_SAFE_INTEGER := -9007199254740991

  /** `data` is a JavaScript Map keyed by timestamp, as the list of its entries in insertion order. */
  datatype Chart = Chart(data: seq<DataPoint>, size: int, maxTs: int, lastIncomplete: Option<int>,
                         current: seq<DataPoint>, start: Option<int>, limit: Option<nat>)

  /** Map.set: a new key goes last, a known one keeps its place. */
  function Put(data: seq<DataPoint>, p: DataPoint): seq<DataPoint> {
    if data == [] then [p]
    else if data[0].timestamp == p.timestamp then [p] + data[1..]
    else [data[0]] + Put(data[1..], p)
  }

  /** Map.delete. */
  function Remove(data: seq<DataPoint>, t: int): seq<DataPoint> {
    if data == [] then []
    else if data[0].timestamp == t then data[1..]
    else [data[0]] + Remove(data[1..], t)
  }

  function Inserted(data: seq<DataPoint>, limit: Option<nat>, p: DataPoint): seq<DataPoint> {
    var d := Put(data, p);
    if limit.Some? && |d| > limit.value then d[1..] else d
  }

  function InsertPoint(c: Chart, p: DataPoint): Chart {
    c.(data := Inserted(c.data, c.limit, p), maxTs := if p.timestamp > c.maxTs then p.timestamp else c.maxTs)
  }

  function Begin(c: Chart, p: DataPoint): Chart {
    c.(start := if c.start.None? then Some(p.timestamp) else c.start,
       data := if c.lastIncomplete.Some? then Remove(c.data, c.lastIncomplete.value) else c.data)
  }

  function Close(c: Chart, p: DataPoint): Chart
    requires c.start.Some?
  {
    if p.timestamp >= c.start.value + c.size && |c.current| > 0 then
      InsertPoint(c, Average(c.current, c.size).(complete := true))
        .(current := [], start := Some(p.timestamp), lastIncomplete := None)
    else c
  }

  function Extend(c: Chart, p: DataPoint): Chart {
    var current := c.current + [p];
    InsertPoint(c.(current := current, lastIncomplete := Some(p.timestamp)), Average(current, c.size))
  }

  function ProcessRawPoint(c: Chart, p: DataPoint): Chart { Extend(Close(Begin(c, p), p), p) }

  function Loading(c: Chart, points: seq<DataPoint>): Chart {
    if points == [] then c else
    InsertPoint(Loading(c, points[..|points| - 1]), points[|points| - 1].(complete := true))
  }

  function LoadCompletedPoints(c: Chart, points: seq<DataPoint>): Chart {
    var loaded := Loading(c, points);
    if |loaded.data| > 0 then loaded.(start := Some(loaded.maxTs)) else loaded
  }

  function New(limit: Option<nat>, size: int): Chart { Chart([], size, MIN_SAFE_INTEGER, None, [], None, limit) }

  function Live(c: Chart, raw: seq<DataPoint>): Chart {
    if raw == [] then c else ProcessRawPoint(Live(c, raw[..|raw| - 1]), raw[|raw| - 1])
  }

  // ---- Averages conserve totals ----

  /** An average that gives a bucket's sum back when multiplied by its count. */
  ghost predicate IsAveraged(f: DataPoint -> real, size: int) {
    forall b: seq<DataPoint> :: b != [] ==> f(Average(b, size)) * |b| as real == Sum(b, f)
  }

  lemma Undivided(sum: real, n: nat)
    requires n > 0
    ensures sum / n as real * n as real == sum
  {}

  lemma MetricsAreAveraged(size: int)
    ensures IsAveraged(PacketsIn(), size) && IsAveraged(BytesIn(), size)
    ensures IsAveraged(PacketsOut(), size) && IsAveraged(BytesOut(), size)
  {
    forall b: seq<DataPoint> | b != []
      ensures PacketsIn()(Average(b, size)) * |b| as real == Sum(b, PacketsIn())
           && BytesIn()(Average(b, size)) * |b| as real == Sum(b, BytesIn())
           && PacketsOut()(Average(b, size)) * |b| as real == Sum(b, PacketsOut())
           && BytesOut()(Average(b, size)) * |b| as real == Sum(b, BytesOut())
    {
      AverageGivesBack(b, size);
    }
  }

  lemma AverageGivesBack(b: seq<DataPoint>, size: int)
    requires b != []
    ensures Average(b, size).packetsIn * |b| as real == Sum(b, PacketsIn())
    ensures Average(b, size).bytesIn * |b| as real == Sum(b, BytesIn())
    ensures Average(b, size).packetsOut * |b| as real == Sum(b, PacketsOut())
    ensures Average(b, size).bytesOut * |b| as real == Sum(b, BytesOut())
  {}

  function Weighted(buckets: seq<seq<DataPoint>>, size: int, f: DataPoint -> real): real
    requires NoneEmpty(buckets)
  {
    if buckets == [] then 0.0
    else f(Average(buckets[0], size)) * |buckets[0]| as real + Weighted(buckets[1..], size, f)
  }

  lemma {:induction false} SumAppend(a: seq<DataPoint>, b: seq<DataPoint>, f: DataPoint -> real)
    ensures Sum(a + b, f) == Sum(a, f) + Sum(b, f)
    decreases |b|
  {
    if b == [] {
      assert a + b == a;
    } else {
      assert (a + b)[..|a + b| - 1] == a + b[..|b| - 1];
      SumAppend(a, b[..|b| - 1], f);
    }
  }

  lemma {:induction false} WeightedIsSum(buckets: seq<seq<DataPoint>>, size: int, f: DataPoint -> real)
    requires NoneEmpty(buckets) && IsAveraged(f, size)
    ensures Weighted(buckets, size, f) == Sum(Flatten(buckets), f)
  {
    if buckets == [] {
    } else {
      WeightedIsSum(buckets[1..], size, f);
      SumAppend(buckets[0], Flatten(buckets[1..]), f);
    }
  }

  /** Weighted by their counts, the averages add up to the raw stream, for each of the four rates. */
  lemma AveragesConserve(start: int, size: int, raw: seq<DataPoint>)
    ensures var buckets := Split(start, size, raw);
            && Weighted(buckets, size, PacketsIn()) == Sum(raw, PacketsIn())
            && Weighted(buckets, size, BytesIn()) == Sum(raw, BytesIn())
            && Weighted(buckets, size, PacketsOut()) == Sum(raw, PacketsOut())
            && Weighted(buckets, size, BytesOut()) == Sum(raw, BytesOut())
  {
    var buckets := Split(start, size, raw);
    SplitPartitions(start, size, raw);
    MetricsAreAveraged(size);
    WeightedIsSum(buckets, size, PacketsIn());
    WeightedIsSum(buckets, size, BytesIn());
    WeightedIsSum(buckets, size, PacketsOut());
    WeightedIsSum(buckets, size, BytesOut());
  }

  // ---- The class ----

  class BaseChartDataProvider {
    var data: seq<DataPoint>
    var bucketSizeMs: int
    var maxTs: int
    var lastIncompleteTs: Option<int>
    var currentBucketPoints: seq<DataPoint>
    var bucketStartTime: Option<int>
    const maxPoints: Option<nat>

    function State(): Chart
      reads this
    {
      Chart(data, bucketSizeMs, maxTs, lastIncompleteTs, currentBucketPoints, bucketStartTime, maxPoints)
    }

    constructor (maxPoints: Option<nat>)
      ensures State() == New(maxPoints, 0)
    {
      this.maxPoints := maxPoints;
      data, bucketSizeMs, maxTs, lastIncompleteTs := [], 0, MIN_SAFE_INTEGER, None;
      currentBucketPoints, bucketStartTime := [], None;
    }

    method SetBucketSize(ms: int)
      modifies this`bucketSizeMs
      ensures State() == old(State()).(size := ms)
    {
      bucketSizeMs := ms;
    }

    method Insert(point: DataPoint)
      modifies this`data, this`maxTs
      ensures State() == InsertPoint(old(State()), point)
    {
      data := Put(data, point);
      if point.timestamp > maxTs {
        maxTs := point.timestamp;
      }
      if maxPoints.Some? && |data| > maxPoints.value {
        data := data[1..];
      }
    }

    method Process(point: DataPoint)
      modifies this
      ensures State() == ProcessRawPoint(old(State()), point)
    {
      if bucketStartTime.None? {
        bucketStartTime := Some(point.timestamp);
      }
      if lastIncompleteTs.Some? {
        data := Remove(data, lastIncompleteTs.value);
      }
      CloseIfFull(point);
      AddToBucket(point);
    }

    method CloseIfFull(point: DataPoint)
      requires bucketStartTime.Some?
      modifies this
      ensures State() == Close(old(State()), point)
    {
      if point.timestamp >= bucketStartTime.value + bucketSizeMs && |currentBucketPoints| > 0 {
        var completedPoint := Average(currentBucketPoints, bucketSizeMs).(complete := true);
        Insert(completedPoint);
        currentBucketPoints := [];
        bucketStartTime := Some(point.timestamp);
        lastIncompleteTs := None;
      }
    }

    method AddToBucket(point: DataPoint)
      modifies this
      ensures State() == Extend(old(State()), point)
    {
      currentBucketPoints := currentBucketPoints + [point];
      var averagePoint := Average(currentBucketPoints, bucketSizeMs);
      lastIncompleteTs := Some(averagePoint.timestamp);
      Insert(averagePoint);
    }

    method LoadCompleted(points: seq<DataPoint>)
      modifies this
      ensures State() == LoadCompletedPoints(old(State()), points)
    {
      for i := 0 to |points|
        invariant State() == Loading(old(State()), points[..i])
      {
        assert points[..i + 1][..i] == points[..i];
        Insert(points[i].(complete := true));
      }
      assert points[..|points|] == points;
      if |data| > 0 {
        bucketStartTime := Some(maxTs);
      }
    }
  }
}
