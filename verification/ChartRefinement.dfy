/**
 * What the chart's map holds after any history and any live points that take up again no time but the last one: the
 * entries that no later point overwrites, and among them the newest `maxPoints`. And exactly when that is what it
 * should hold.
 */
module ChartRefinement {
  import opened ChartBuckets
  import opened Wrappers

  // ---- Insertions at the end of the map ----

  predicate Increasing(s: seq<DataPoint>) { forall i, j :: 0 <= i < j < |s| ==> s[i].timestamp < s[j].timestamp }
  predicate InOrder(s: seq<DataPoint>) { forall i, j :: 0 <= i <= j < |s| ==> s[i].timestamp <= s[j].timestamp }
  predicate Later(s: seq<DataPoint>, t: int) { forall i :: 0 <= i < |s| ==> s[i].timestamp < t }
  predicate Absent(s: seq<DataPoint>, t: int) { forall i :: 0 <= i < |s| ==> s[i].timestamp != t }

  lemma {:induction false} PutNew(data: seq<DataPoint>, p: DataPoint)
    requires Absent(data, p.timestamp)
    ensures Put(data, p) == data + [p]
  {
    if data == [] {
    } else {
      PutNew(data[1..], p);
      assert data == [data[0]] + data[1..];
    }
  }

  lemma {:induction false} PutLast(data: seq<DataPoint>, x: DataPoint, p: DataPoint)
    requires Absent(data, p.timestamp) && x.timestamp == p.timestamp
    ensures Put(data + [x], p) == data + [p]
  {
    if data == [] {
      assert [] + [x] == [x] && [] + [p] == [p] && [p] + [] == [p];
    } else {
      PutLast(data[1..], x, p);
      assert (data + [x])[1..] == data[1..] + [x] && data + [p] == [data[0]] + (data[1..] + [p]);
    }
  }

  lemma {:induction false} RemoveLast(data: seq<DataPoint>, p: DataPoint)
    requires Absent(data, p.timestamp)
    ensures Remove(data + [p], p.timestamp) == data
  {
    if data == [] {
      assert [] + [p] == [p];
    } else {
      RemoveLast(data[1..], p);
      assert (data + [p])[1..] == data[1..] + [p] && data == [data[0]] + data[1..];
    }
  }

  /** The map holds the newest entries of s, possibly with room for one more. */
  predicate Holds(limit: Option<nat>, d: seq<DataPoint>, s: seq<DataPoint>) {
    && |d| <= |s| && d == s[|s| - |d|..]
    && (limit.None? ==> |d| == |s|)
    && (limit.Some? ==> |d| <= limit.value && (|d| == |s| || |d| >= limit.value - 1))
  }

  lemma NewestHolds(limit: Option<nat>, s: seq<DataPoint>)
    ensures Holds(limit, Newest(limit, s), s)
  {}

  /** Inserting a new point and dropping the oldest keeps exactly the newest. */
  lemma InsertKeepsNewest(limit: Option<nat>, d: seq<DataPoint>, s: seq<DataPoint>, p: DataPoint)
    requires Holds(limit, d, s) && Absent(s, p.timestamp)
    ensures Inserted(d, limit, p) == Newest(limit, s + [p])
  {
    PutNew(d, p);
    assert d + [p] == (s + [p])[|s| - |d|..];
  }

  lemma RemoveMakesRoom(limit: Option<nat>, s: seq<DataPoint>, p: DataPoint)
    requires Absent(s, p.timestamp) && limit != Some(0)
    ensures Holds(limit, Remove(Newest(limit, s + [p]), p.timestamp), s)
  {
    var d := Newest(limit, s + [p]);
    var front := d[..|d| - 1];
    assert d == front + [p] && front == s[|s| - |front|..];
    RemoveLast(front, p);
  }

  /** A point with the time of the last entry takes that entry's place. */
  function Over(s: seq<DataPoint>, t: int): seq<DataPoint> {
    if s != [] && s[|s| - 1].timestamp == t then s[..|s| - 1] else s
  }

  lemma InsertOver(limit: Option<nat>, d: seq<DataPoint>, s: seq<DataPoint>, p: DataPoint)
    requires limit != Some(0) && Absent(Over(s, p.timestamp), p.timestamp)
    requires d == Newest(limit, s) || (Holds(limit, d, s) && Absent(s, p.timestamp))
    ensures Inserted(d, limit, p) == Newest(limit, Over(s, p.timestamp) + [p])
  {
    NewestHolds(limit, s);
    if Over(s, p.timestamp) == s {
      InsertKeepsNewest(limit, d, s, p);
    } else {
      var front, x := s[..|s| - 1], s[|s| - 1];
      assert s == front + [x];
      assert d == Newest(limit, s);
      var kept := d[..|d| - 1];
      assert d == kept + [x] && kept == front[|front| - |kept|..];
      PutLast(kept, x, p);
    }
  }

  // ---- What stays: the completed entries that no later point overwrites ----

  function Open(st: int, size: int, raw: seq<DataPoint>): (b: seq<DataPoint>)
    requires raw != []
    ensures b != []
  {
    var buckets := Split(st, size, raw); buckets[|buckets| - 1]
  }

  function Closed(base: seq<DataPoint>, st: int, size: int, raw: seq<DataPoint>): seq<DataPoint>
    requires raw != []
  {
    var buckets := Split(st, size, raw); base + Averages(buckets[..|buckets| - 1], size)
  }

  lemma ExpectedIs(history: seq<DataPoint>, size: int, raw: seq<DataPoint>)
    requires raw != []
    ensures var st := FirstStart(history, raw);
            Expected(history, size, raw) == Closed(Completed(history), st, size, raw) + [Average(Open(st, size, raw), size)]
  {}

  /** The entries before the open bucket's; each bucket's first point overwrites the entry before it on a tie. */
  function LastingOf(base: seq<DataPoint>, buckets: seq<seq<DataPoint>>, size: int): seq<DataPoint>
    requires buckets != [] && NoneEmpty(buckets)
    decreases |buckets|
  {
    var n := |buckets| - 1;
    if n == 0 then Over(base, buckets[0][0].timestamp)
    else Over(LastingOf(base, buckets[..n], size) + [Average(buckets[n - 1], size).(complete := true)],
              buckets[n][0].timestamp)
  }

  function Lasting(base: seq<DataPoint>, st: int, size: int, raw: seq<DataPoint>): seq<DataPoint>
    requires raw != []
  {
    LastingOf(base, Split(st, size, raw), size)
  }

  lemma {:induction false} OpenEndsLast(st: int, size: int, raw: seq<DataPoint>)
    requires raw != []
    ensures Open(st, size, raw)[|Open(st, size, raw)| - 1] == raw[|raw| - 1]
    decreases |raw|
  {
    var n := Cut(st + size, raw, 1);
    if n == |raw| {
      assert raw[..n] == raw;
    } else {
      OpenEndsLast(raw[n].timestamp, size, raw[n..]);
    }
  }

  /** The entry the open bucket leaves when it closes. */
  function DoneOf(st: int, size: int, raw: seq<DataPoint>): (p: DataPoint)
    requires raw != []
  {
    Average(Open(st, size, raw), size).(complete := true)
  }

  predicate Starts(st: int, size: int, raw: seq<DataPoint>, p: DataPoint)
    requires raw != []
  {
    p.timestamp >= LastStart(st, size, raw) + size
  }

  /** What the next point does to the open bucket, the closed ones and the entries that last. */
  lemma OpenSnoc(base: seq<DataPoint>, st: int, size: int, raw: seq<DataPoint>, p: DataPoint)
    requires raw != []
    ensures Starts(st, size, raw, p) ==>
              && Open(st, size, raw + [p]) == [p]
              && Closed(base, st, size, raw + [p]) == Closed(base, st, size, raw) + [DoneOf(st, size, raw)]
    ensures !Starts(st, size, raw, p) ==>
              && Open(st, size, raw + [p]) == Open(st, size, raw) + [p]
              && Closed(base, st, size, raw + [p]) == Closed(base, st, size, raw)
  {
    SplitSnoc(st, size, raw, p);
    var buckets := Split(st, size, raw);
    var n := |buckets| - 1;
    var after := Grown(buckets, LastStart(st, size, raw) + size, p);
    if Starts(st, size, raw, p) {
      assert after[..|after| - 1] == buckets && after[|after| - 1] == [p];
      assert Averages(buckets, size) == Averages(buckets[..n], size) + [Average(buckets[n], size).(complete := true)];
    } else {
      assert after[..|after| - 1] == buckets[..n];
    }
  }

  lemma LastingStarts(base: seq<DataPoint>, buckets: seq<seq<DataPoint>>, size: int, p: DataPoint)
    requires buckets != [] && NoneEmpty(buckets)
    ensures NoneEmpty(buckets + [[p]])
    ensures LastingOf(base, buckets + [[p]], size)
            == Over(LastingOf(base, buckets, size) + [Average(buckets[|buckets| - 1], size).(complete := true)], p.timestamp)
  {
    assert (buckets + [[p]])[..|buckets|] == buckets;
  }

  lemma LastingJoins(base: seq<DataPoint>, front: seq<seq<DataPoint>>, bucket: seq<DataPoint>, size: int, p: DataPoint)
    requires bucket != [] && NoneEmpty(front)
    ensures NoneEmpty(front + [bucket]) && NoneEmpty(front + [bucket + [p]])
    ensures LastingOf(base, front + [bucket + [p]], size) == LastingOf(base, front + [bucket], size)
  {
    assert (front + [bucket])[..|front|] == front && (front + [bucket + [p]])[..|front|] == front;
    assert (bucket + [p])[0] == bucket[0];
  }

  /** The buckets before the open one, and the open one. */
  lemma SnocBuckets(st: int, size: int, raw: seq<DataPoint>, p: DataPoint)
    returns (front: seq<seq<DataPoint>>, bucket: seq<DataPoint>)
    requires raw != []
    ensures Split(st, size, raw) == front + [bucket] && Open(st, size, raw) == bucket && NoneEmpty(front)
    ensures Split(st, size, raw + [p])
            == if Starts(st, size, raw, p) then front + [bucket] + [[p]] else front + [bucket + [p]]
  {
    SplitSnoc(st, size, raw, p);
    var buckets := Split(st, size, raw);
    front, bucket := buckets[..|buckets| - 1], buckets[|buckets| - 1];
  }

  lemma LastingSnoc(base: seq<DataPoint>, st: int, size: int, raw: seq<DataPoint>, p: DataPoint)
    requires raw != []
    ensures Lasting(base, st, size, raw + [p])
            == if Starts(st, size, raw, p)
               then Over(Lasting(base, st, size, raw) + [DoneOf(st, size, raw)], p.timestamp)
               else Lasting(base, st, size, raw)
  {
    var front, bucket := SnocBuckets(st, size, raw, p);
    if Starts(st, size, raw, p) {
      LastingStarts(base, front + [bucket], size, p);
    } else {
      LastingJoins(base, front, bucket, size, p);
    }
  }

  lemma LastingOne(base: seq<DataPoint>, st: int, size: int, p: DataPoint)
    ensures Lasting(base, st, size, [p]) == Over(base, p.timestamp) && Closed(base, st, size, [p]) == base
    ensures Open(st, size, [p]) == [p] && LastStart(st, size, [p]) == st
  {
    SplitOne(st, size, p);
  }

  // ---- The refinement ----

  predicate Refines(c: Chart, base: seq<DataPoint>, st: int, size: int, limit: Option<nat>, raw: seq<DataPoint>)
    requires raw != []
  {
    && c.size == size && c.limit == limit
    && c.current == Open(st, size, raw) && c.start == Some(LastStart(st, size, raw))
    && c.lastIncomplete == Some(raw[|raw| - 1].timestamp)
    && c.data == Newest(limit, Lasting(base, st, size, raw) + [Average(Open(st, size, raw), size)])
  }

  /** All but the map, which need only hold the lasting entries once the next point has taken the incomplete one out. */
  predicate ReadyFor(c: Chart, base: seq<DataPoint>, st: int, size: int, limit: Option<nat>, raw: seq<DataPoint>,
                     p: DataPoint)
    requires raw != []
  {
    && c.size == size && c.limit == limit
    && c.current == Open(st, size, raw) && c.start == Some(LastStart(st, size, raw))
    && c.lastIncomplete == Some(raw[|raw| - 1].timestamp)
    && Holds(limit, Begin(c, p).data, Lasting(base, st, size, raw))
  }

  lemma RefinesIsReady(c: Chart, base: seq<DataPoint>, st: int, size: int, limit: Option<nat>, raw: seq<DataPoint>,
                       p: DataPoint)
    requires raw != [] && Refines(c, base, st, size, limit, raw) && limit != Some(0)
    requires Absent(Lasting(base, st, size, raw), raw[|raw| - 1].timestamp)
    ensures ReadyFor(c, base, st, size, limit, raw, p)
  {
    OpenEndsLast(st, size, raw);
    RemoveMakesRoom(limit, Lasting(base, st, size, raw), Average(Open(st, size, raw), size));
  }

  lemma ExtendOver(c: Chart, s: seq<DataPoint>, p: DataPoint)
    requires c.limit != Some(0) && Absent(Over(s, p.timestamp), p.timestamp)
    requires c.data == Newest(c.limit, s) || (Holds(c.limit, c.data, s) && Absent(s, p.timestamp))
    ensures Extend(c, p).data == Newest(c.limit, Over(s, p.timestamp) + [Average(c.current + [p], c.size)])
    ensures Extend(c, p).current == c.current + [p] && Extend(c, p).lastIncomplete == Some(p.timestamp)
    ensures Extend(c, p).start == c.start && Extend(c, p).size == c.size && Extend(c, p).limit == c.limit
  {
    InsertOver(c.limit, c.data, s, Average(c.current + [p], c.size));
  }

  /** A full bucket closes: its entry joins the lasting ones. */
  lemma ClosesBucket(c: Chart, base: seq<DataPoint>, st: int, size: int, limit: Option<nat>, raw: seq<DataPoint>, p: DataPoint)
    requires raw != [] && ReadyFor(c, base, st, size, limit, raw, p) && Starts(st, size, raw, p)
    requires Absent(Lasting(base, st, size, raw), raw[|raw| - 1].timestamp)
    ensures var closed := Close(Begin(c, p), p);
            && closed.data == Newest(limit, Lasting(base, st, size, raw) + [DoneOf(st, size, raw)])
            && closed.current == [] && closed.start == Some(p.timestamp) && closed.size == size && closed.limit == limit
  {
    OpenEndsLast(st, size, raw);
    InsertKeepsNewest(limit, Begin(c, p).data, Lasting(base, st, size, raw), DoneOf(st, size, raw));
  }

  lemma OverFresh(kept: seq<DataPoint>, done: DataPoint, t: int)
    requires Absent(kept, t)
    ensures Absent(Over(kept + [done], t), t)
  {}

  lemma StepStarts(c: Chart, base: seq<DataPoint>, st: int, size: int, limit: Option<nat>, raw: seq<DataPoint>, p: DataPoint)
    requires raw != [] && limit != Some(0) && ReadyFor(c, base, st, size, limit, raw, p) && Starts(st, size, raw, p)
    requires Absent(Lasting(base, st, size, raw), raw[|raw| - 1].timestamp) && Absent(Lasting(base, st, size, raw), p.timestamp)
    ensures Refines(ProcessRawPoint(c, p), base, st, size, limit, raw + [p])
  {
    var kept, done, closed := Lasting(base, st, size, raw), DoneOf(st, size, raw), Close(Begin(c, p), p);
    OpenEndsLast(st, size, raw);
    ClosesBucket(c, base, st, size, limit, raw, p);
    OverFresh(kept, done, p.timestamp);
    ExtendOver(closed, kept + [done], p);
    assert [] + [p] == [p];
    OpenSnoc(base, st, size, raw, p);
    LastingSnoc(base, st, size, raw, p);
    LastStartSnoc(st, size, raw, p);
  }

  lemma StepJoins(c: Chart, base: seq<DataPoint>, st: int, size: int, limit: Option<nat>, raw: seq<DataPoint>, p: DataPoint)
    requires raw != [] && limit != Some(0) && ReadyFor(c, base, st, size, limit, raw, p) && !Starts(st, size, raw, p)
    requires Absent(Lasting(base, st, size, raw), p.timestamp)
    ensures Refines(ProcessRawPoint(c, p), base, st, size, limit, raw + [p])
  {
    var b, kept := Begin(c, p), Lasting(base, st, size, raw);
    assert Over(kept, p.timestamp) == kept;
    ExtendOver(b, kept, p);
    OpenSnoc(base, st, size, raw, p);
    LastingSnoc(base, st, size, raw, p);
    LastStartSnoc(st, size, raw, p);
  }

  /** One more point, at a time no lasting entry has: the incremental state stays the specification's. */
  lemma StepRefines(c: Chart, base: seq<DataPoint>, st: int, size: int, limit: Option<nat>, raw: seq<DataPoint>, p: DataPoint)
    requires raw != [] && limit != Some(0) && ReadyFor(c, base, st, size, limit, raw, p)
    requires Absent(Lasting(base, st, size, raw), raw[|raw| - 1].timestamp) && Absent(Lasting(base, st, size, raw), p.timestamp)
    ensures Refines(ProcessRawPoint(c, p), base, st, size, limit, raw + [p])
  {
    if Starts(st, size, raw, p) {
      StepStarts(c, base, st, size, limit, raw, p);
    } else {
      StepJoins(c, base, st, size, limit, raw, p);
    }
  }

  // ---- Times that are new, or the last one again ----

  function Times(s: seq<DataPoint>): set<int> {
    if s == [] then {} else Times(s[..|s| - 1]) + {s[|s| - 1].timestamp}
  }

  function LastTime(s: seq<DataPoint>): Option<int> {
    if s == [] then None else Some(s[|s| - 1].timestamp)
  }

  /** After points with `times`, the last at `prev`: each next point has a new time or the time just before it. */
  predicate Fresh(times: set<int>, prev: Option<int>, raw: seq<DataPoint>) {
    if raw == [] then true else
    var front, t := raw[..|raw| - 1], raw[|raw| - 1].timestamp;
    Fresh(times, prev, front) && (t !in times + Times(front) || Some(t) == if front == [] then prev else LastTime(front))
  }

  predicate Known(s: seq<DataPoint>, times: set<int>) { forall i :: 0 <= i < |s| ==> s[i].timestamp in times }

  /** Every lasting entry has a time seen so far, and none the last point's. */
  predicate IsFresh(kept: seq<DataPoint>, times: set<int>, last: int) {
    Known(kept, times) && Absent(kept, last) && last in times
  }

  lemma FreshStarts(kept: seq<DataPoint>, done: DataPoint, times: set<int>, t: int)
    requires IsFresh(kept, times, done.timestamp) && (t !in times || t == done.timestamp)
    ensures Absent(kept, t) && IsFresh(Over(kept + [done], t), times + {t}, t)
  {}

  lemma FreshJoins(kept: seq<DataPoint>, times: set<int>, last: int, t: int)
    requires IsFresh(kept, times, last) && (t !in times || t == last)
    ensures Absent(kept, t) && IsFresh(kept, times + {t}, t)
  {}

  lemma StaysFresh(base: seq<DataPoint>, st: int, size: int, stream: seq<DataPoint>, times: set<int>, p: DataPoint)
    requires stream != [] && IsFresh(Lasting(base, st, size, stream), times, stream[|stream| - 1].timestamp)
    requires p.timestamp !in times || p.timestamp == stream[|stream| - 1].timestamp
    ensures Absent(Lasting(base, st, size, stream), p.timestamp)
    ensures IsFresh(Lasting(base, st, size, stream + [p]), times + {p.timestamp}, p.timestamp)
  {
    var kept := Lasting(base, st, size, stream);
    LastingSnoc(base, st, size, stream, p);
    OpenEndsLast(st, size, stream);
    if Starts(st, size, stream, p) {
      FreshStarts(kept, DoneOf(st, size, stream), times, p.timestamp);
    } else {
      FreshJoins(kept, times, stream[|stream| - 1].timestamp, p.timestamp);
    }
  }

  /** On its way over `base`: refined, and the lasting entries fresh. */
  predicate OnBase(c: Chart, base: seq<DataPoint>, st: int, size: int, limit: Option<nat>, stream: seq<DataPoint>,
                   times: set<int>)
    requires stream != []
  {
    Refines(c, base, st, size, limit, stream) && IsFresh(Lasting(base, st, size, stream), times, stream[|stream| - 1].timestamp)
  }

  lemma FirstOn(c: Chart, base: seq<DataPoint>, st: int, size: int, limit: Option<nat>, stream: seq<DataPoint>,
                times: set<int>, p: DataPoint)
    requires stream != [] && limit != Some(0) && ReadyFor(c, base, st, size, limit, stream, p)
    requires IsFresh(Lasting(base, st, size, stream), times, stream[|stream| - 1].timestamp)
    requires p.timestamp !in times || p.timestamp == stream[|stream| - 1].timestamp
    ensures OnBase(ProcessRawPoint(c, p), base, st, size, limit, stream + [p], times + {p.timestamp})
  {
    StaysFresh(base, st, size, stream, times, p);
    StepRefines(c, base, st, size, limit, stream, p);
  }

  lemma OneMoreOn(c: Chart, base: seq<DataPoint>, st: int, size: int, limit: Option<nat>, stream: seq<DataPoint>,
                  times: set<int>, p: DataPoint)
    requires stream != [] && limit != Some(0) && OnBase(c, base, st, size, limit, stream, times)
    requires p.timestamp !in times || p.timestamp == stream[|stream| - 1].timestamp
    ensures OnBase(ProcessRawPoint(c, p), base, st, size, limit, stream + [p], times + {p.timestamp})
  {
    RefinesIsReady(c, base, st, size, limit, stream, p);
    FirstOn(c, base, st, size, limit, stream, times, p);
  }

  lemma LiveOne(c: Chart, p: DataPoint)
    ensures Live(c, [p]) == ProcessRawPoint(c, p)
  {
    assert [p][..0] == [] && Live(c, []) == c;
  }

  lemma LiveSnoc(c: Chart, front: seq<DataPoint>, p: DataPoint)
    ensures Live(c, front + [p]) == ProcessRawPoint(Live(c, front), p)
  {
    assert (front + [p])[..|front|] == front;
  }

  lemma LiveOnMore(c: Chart, base: seq<DataPoint>, st: int, size: int, limit: Option<nat>, stream: seq<DataPoint>,
                   times: set<int>, front: seq<DataPoint>, p: DataPoint)
    requires stream != [] && limit != Some(0) && (p.timestamp !in times || p.timestamp == stream[|stream| - 1].timestamp)
    requires OnBase(Live(c, front), base, st, size, limit, stream, times)
    ensures OnBase(Live(c, front + [p]), base, st, size, limit, stream + [p], times + {p.timestamp})
  {
    LiveSnoc(c, front, p);
    OneMoreOn(Live(c, front), base, st, size, limit, stream, times, p);
  }

  lemma OneMoreOf(pre: seq<DataPoint>, raw: seq<DataPoint>, times: set<int>, prev: Option<int>)
    requires |raw| > 1 && Fresh(times, prev, raw)
    ensures var front, p := raw[..|raw| - 1], raw[|raw| - 1];
            && raw == front + [p] && pre + raw == pre + front + [p] && Fresh(times, prev, front)
            && (pre + front)[|pre + front| - 1] == front[|front| - 1] && raw[0] == front[0]
            && times + Times(raw) == times + Times(front) + {p.timestamp}
            && (p.timestamp !in times + Times(front) || p.timestamp == front[|front| - 1].timestamp)
  {}

  /** After the first of them, such live points keep to the specification. */
  lemma {:induction false} LiveOn(c: Chart, base: seq<DataPoint>, st: int, size: int, limit: Option<nat>,
                                  pre: seq<DataPoint>, times: set<int>, prev: Option<int>, raw: seq<DataPoint>)
    requires raw != [] && limit != Some(0) && Fresh(times, prev, raw)
    requires OnBase(ProcessRawPoint(c, raw[0]), base, st, size, limit, pre + [raw[0]], times + {raw[0].timestamp})
    ensures OnBase(Live(c, raw), base, st, size, limit, pre + raw, times + Times(raw))
    decreases |raw|
  {
    if |raw| == 1 {
      LiveOne(c, raw[0]);
      TimesOfOne(raw[0]);
      assert raw == [raw[0]];
    } else {
      var front, p := raw[..|raw| - 1], raw[|raw| - 1];
      OneMoreOf(pre, raw, times, prev);
      LiveOn(c, base, st, size, limit, pre, times, prev, front);
      LiveOnMore(c, base, st, size, limit, pre + front, times + Times(front), front, p);
    }
  }

  lemma TimesOfOne(p: DataPoint)
    ensures Times([p]) == {p.timestamp}
  {
    assert [p][..0] == [];
  }

  lemma {:induction false} FreshFirst(times: set<int>, prev: Option<int>, raw: seq<DataPoint>)
    requires raw != [] && Fresh(times, prev, raw)
    ensures raw[0].timestamp !in times || Some(raw[0].timestamp) == prev
    decreases |raw|
  {
    if |raw| == 1 {
      assert raw[..0] == [];
    } else {
      FreshFirst(times, prev, raw[..|raw| - 1]);
    }
  }

  // ---- History, then the live points ----

  lemma {:induction false} CompletedIs(points: seq<DataPoint>)
    ensures |Completed(points)| == |points|
    ensures forall i :: 0 <= i < |points| ==> Completed(points)[i] == points[i].(complete := true)
  {
    if points == [] {
    } else {
      CompletedIs(points[..|points| - 1]);
    }
  }

  lemma {:induction false} LoadingFrame(c: Chart, points: seq<DataPoint>)
    requires Increasing(points)
    ensures var loaded := Loading(c, points);
            && loaded == c.(data := loaded.data, maxTs := loaded.maxTs)
            && (loaded.maxTs == if points == [] || points[|points| - 1].timestamp <= c.maxTs then c.maxTs
                                else points[|points| - 1].timestamp)
  {
    if points == [] {
    } else {
      LoadingFrame(c, points[..|points| - 1]);
    }
  }

  /** Loading appends the points, if none of their times is in the map. */
  lemma {:induction false} LoadingAppends(c: Chart, s: seq<DataPoint>, points: seq<DataPoint>)
    requires c.data == Newest(c.limit, s) && Increasing(points)
    requires forall i :: 0 <= i < |points| ==> Absent(s, points[i].timestamp)
    ensures Loading(c, points).data == Newest(c.limit, s + Completed(points))
  {
    if points == [] {
      assert s + Completed(points) == s;
    } else {
      var front, last := points[..|points| - 1], points[|points| - 1];
      LoadingAppends(c, s, front);
      LoadingFrame(c, front);
      AbsentSoFar(s, points);
      LoadOneMore(c.limit, s + Completed(front), last.(complete := true));
      assert s + Completed(points) == s + Completed(front) + [last.(complete := true)];
    }
  }

  lemma AbsentSoFar(s: seq<DataPoint>, points: seq<DataPoint>)
    requires points != [] && Increasing(points) && Absent(s, points[|points| - 1].timestamp)
    ensures Absent(s + Completed(points[..|points| - 1]), points[|points| - 1].timestamp)
  {
    CompletedIs(points[..|points| - 1]);
  }

  lemma LoadOneMore(limit: Option<nat>, s: seq<DataPoint>, p: DataPoint)
    requires Absent(s, p.timestamp)
    ensures Inserted(Newest(limit, s), limit, p) == Newest(limit, s + [p])
  {
    NewestHolds(limit, s);
    InsertKeepsNewest(limit, Newest(limit, s), s, p);
  }

  predicate InRange(points: seq<DataPoint>) { forall i :: 0 <= i < |points| ==> points[i].timestamp >= MIN_SAFE_INTEGER }

  lemma HistoryIsNewest(history: seq<DataPoint>, size: int, limit: Option<nat>)
    requires Increasing(history)
    ensures Loading(New(limit, size), history).data == Newest(limit, Completed(history))
  {
    LoadingAppends(New(limit, size), [], history);
    assert [] + Completed(history) == Completed(history);
  }

  /** After the history: its newest points, and a bucket counting from its last point. */
  lemma LoadedIs(history: seq<DataPoint>, size: int, limit: Option<nat>)
    requires Increasing(history) && limit != Some(0) && InRange(history)
    ensures var c := LoadCompletedPoints(New(limit, size), history);
            && c.data == Newest(limit, Completed(history))
            && c.start == (if history == [] then None else Some(history[|history| - 1].timestamp))
            && c.current == [] && c.size == size && c.limit == limit && c.lastIncomplete == None
  {
    HistoryIsNewest(history, size, limit);
    LoadingFrame(New(limit, size), history);
    CompletedIncreases(history);
    NewestIsEmpty(limit, Completed(history));
  }

  lemma NewestIsEmpty<T>(limit: Option<nat>, s: seq<T>)
    requires limit != Some(0)
    ensures |Newest(limit, s)| > 0 <==> |s| > 0
  {}

  /**
   * The live points follow the history: each at a new time, or at the time of the point just before it. Times may go
   * back.
   */
  predicate Follow(history: seq<DataPoint>, raw: seq<DataPoint>) {
    Increasing(history) && InRange(history) && Fresh(Times(history), LastTime(history), raw)
  }

  lemma {:induction false} TimesMembers(s: seq<DataPoint>)
    ensures Known(s, Times(s))
    ensures forall t :: t in Times(s) ==> !Absent(s, t)
  {
    if s == [] {
    } else {
      var front, x := s[..|s| - 1], s[|s| - 1];
      TimesMembers(front);
      assert s[|s| - 1] == x && forall i :: 0 <= i < |front| ==> s[i] == front[i];
    }
  }

  lemma CompletedIncreases(history: seq<DataPoint>)
    requires Increasing(history)
    ensures Increasing(Completed(history)) && |Completed(history)| == |history|
    ensures history != [] ==> Completed(history)[|history| - 1].timestamp == history[|history| - 1].timestamp
  {
    CompletedIs(history);
  }

  lemma KnownCompleted(history: seq<DataPoint>)
    ensures Known(Completed(history), Times(history))
  {
    TimesMembers(history);
    CompletedIs(history);
  }

  lemma OverEnd(s: seq<DataPoint>, times: set<int>, t: int)
    requires Increasing(s) && Known(s, times) && (t !in times || LastTime(s) == Some(t))
    ensures IsFresh(Over(s, t), times + {t}, t)
  {}

  lemma OverHistory(history: seq<DataPoint>, t: int)
    requires Increasing(history) && (t !in Times(history) || LastTime(history) == Some(t))
    ensures IsFresh(Over(Completed(history), t), Times(history) + {t}, t)
  {
    CompletedIncreases(history);
    KnownCompleted(history);
    OverEnd(Completed(history), Times(history), t);
  }

  lemma FirstRefines(history: seq<DataPoint>, size: int, limit: Option<nat>, st: int, p: DataPoint)
    requires Increasing(history) && InRange(history) && limit != Some(0) && st == FirstStart(history, [p])
    requires p.timestamp !in Times(history) || Some(p.timestamp) == LastTime(history)
    ensures OnBase(ProcessRawPoint(LoadCompletedPoints(New(limit, size), history), p), Completed(history), st, size, limit,
                   [p], Times(history) + {p.timestamp})
  {
    LoadedIs(history, size, limit);
    var c := LoadCompletedPoints(New(limit, size), history);
    var b := Begin(c, p);
    assert Close(b, p) == b;
    OverHistory(history, p.timestamp);
    ExtendOver(b, Completed(history), p);
    assert [] + [p] == [p];
    LastingOne(Completed(history), st, size, p);
  }

  lemma LiveOnOwn(c: Chart, base: seq<DataPoint>, st: int, size: int, limit: Option<nat>, times: set<int>,
                  prev: Option<int>, raw: seq<DataPoint>)
    requires raw != [] && limit != Some(0) && Fresh(times, prev, raw)
    requires OnBase(ProcessRawPoint(c, raw[0]), base, st, size, limit, [raw[0]], times + {raw[0].timestamp})
    ensures OnBase(Live(c, raw), base, st, size, limit, raw, times + Times(raw))
  {
    assert [] + [raw[0]] == [raw[0]] && [] + raw == raw;
    LiveOn(c, base, st, size, limit, [], times, prev, raw);
  }

  lemma LiveRefines(history: seq<DataPoint>, size: int, limit: Option<nat>, raw: seq<DataPoint>)
    requires raw != [] && Follow(history, raw) && limit != Some(0)
    ensures OnBase(Live(LoadCompletedPoints(New(limit, size), history), raw), Completed(history),
                   FirstStart(history, raw), size, limit, raw, Times(history) + Times(raw))
  {
    var st := FirstStart(history, raw);
    FreshFirst(Times(history), LastTime(history), raw);
    FirstRefines(history, size, limit, st, raw[0]);
    LiveOnOwn(LoadCompletedPoints(New(limit, size), history), Completed(history), st, size, limit, Times(history),
              LastTime(history), raw);
  }

  lemma KeepsNothing(c: Chart, p: DataPoint)
    requires c.data == [] && c.limit == Some(0)
    ensures ProcessRawPoint(c, p).data == [] && ProcessRawPoint(c, p).limit == c.limit
  {}

  /** A limit of zero keeps nothing. */
  lemma {:induction false} NothingIsKept(c: Chart, points: seq<DataPoint>)
    requires c.data == [] && c.limit == Some(0)
    ensures Live(c, points).data == [] && Live(c, points).limit == c.limit
  {
    if points == [] {
    } else {
      NothingIsKept(c, points[..|points| - 1]);
      KeepsNothing(Live(c, points[..|points| - 1]), points[|points| - 1]);
    }
  }

  lemma {:induction false} NothingIsLoaded(c: Chart, points: seq<DataPoint>)
    requires c.data == [] && c.limit == Some(0)
    ensures Loading(c, points).data == [] && Loading(c, points).limit == c.limit
  {
    if points == [] {
    } else {
      NothingIsLoaded(c, points[..|points| - 1]);
    }
  }

  function ShownOver(base: seq<DataPoint>, st: int, size: int, raw: seq<DataPoint>): seq<DataPoint>
    requires raw != []
  {
    Lasting(base, st, size, raw) + [Average(Open(st, size, raw), size)]
  }

  /** What the chart shows: the entries that last, then the open bucket's average. */
  function Shown(history: seq<DataPoint>, size: int, raw: seq<DataPoint>): seq<DataPoint> {
    if raw == [] then Completed(history) else ShownOver(Completed(history), FirstStart(history, raw), size, raw)
  }

  /** After any history and any live points at new times or the last one again, in any order, for every limit. */
  lemma ChartIsShown(history: seq<DataPoint>, size: int, limit: Option<nat>, raw: seq<DataPoint>)
    requires Follow(history, raw)
    ensures Live(LoadCompletedPoints(New(limit, size), history), raw).data == Newest(limit, Shown(history, size, raw))
  {
    var c := New(limit, size);
    if limit == Some(0) {
      NothingIsLoaded(c, history);
      NothingIsKept(LoadCompletedPoints(c, history), raw);
      assert forall s: seq<DataPoint> :: Newest(Some(0), s) == [];
    } else if raw == [] {
      LoadedIs(history, size, limit);
    } else {
      LiveRefines(history, size, limit, raw);
    }
  }

  lemma Overwritten(c: Chart, h: DataPoint, p: DataPoint)
    requires c.data == [h] && c.current == [] && c.start == Some(h.timestamp) && c.limit.None? && c.lastIncomplete.None?
    requires p.timestamp == h.timestamp && c.size > 0
    ensures ProcessRawPoint(c, p).data == [Average([p], c.size)] && ProcessRawPoint(c, p).current == [p]
    ensures ProcessRawPoint(c, p).start == c.start && ProcessRawPoint(c, p).lastIncomplete == Some(p.timestamp)
    ensures ProcessRawPoint(c, p).limit == c.limit && ProcessRawPoint(c, p).size == c.size
  {}

  lemma Erased(c: Chart, p: DataPoint, q: DataPoint)
    requires c.data == [Average([p], c.size)] && c.current == [p] && c.limit.None? && c.lastIncomplete == Some(p.timestamp)
    requires c.start.Some? && q.timestamp < c.start.value + c.size
    ensures ProcessRawPoint(c, q).data == [Average([p, q], c.size)]
  {
    assert [p] + [q] == [p, q];
    assert Begin(c, q).data == [];
  }

  /** Without strictly later timestamps it fails: a live point at the last history point's time erases that point. */
  lemma EqualTimestampErasesHistory(h: DataPoint, p: DataPoint, q: DataPoint, size: int)
    requires MIN_SAFE_INTEGER < h.timestamp == p.timestamp < q.timestamp < h.timestamp + size
    ensures var c := LoadCompletedPoints(New(None, size), [h]);
            c.data == [h.(complete := true)] && ProcessRawPoint(ProcessRawPoint(c, p), q).data == [Average([p, q], size)]
  {
    var c := LoadCompletedPoints(New(None, size), [h]);
    LoadedIs([h], size, None);
    assert [h][..0] == [] && Completed([]) == [] && Completed([h]) == [h.(complete := true)];
    Overwritten(c, h.(complete := true), p);
    Erased(ProcessRawPoint(c, p), p, q);
  }

  // ---- When nothing is lost ----

  /** How many entries of the specification come after the last overwritten one, if there is one. */
  function SinceTieOf(base: seq<DataPoint>, buckets: seq<seq<DataPoint>>): Option<nat>
    requires buckets != [] && NoneEmpty(buckets)
    decreases |buckets|
  {
    var n := |buckets| - 1;
    if n == 0 then (if Over(base, buckets[0][0].timestamp) == base then None else Some(1))
    else if buckets[n - 1][|buckets[n - 1]| - 1].timestamp == buckets[n][0].timestamp then Some(1)
    else OneMore(SinceTieOf(base, buckets[..n]))
  }

  function SinceTie(base: seq<DataPoint>, st: int, size: int, raw: seq<DataPoint>): Option<nat>
    requires raw != []
  {
    SinceTieOf(base, Split(st, size, raw))
  }

  function OneMore(tie: Option<nat>): Option<nat> { match tie case None => None case Some(k) => Some(k + 1) }

  lemma TieStarts(base: seq<DataPoint>, front: seq<seq<DataPoint>>, bucket: seq<DataPoint>, p: DataPoint)
    requires bucket != [] && NoneEmpty(front)
    ensures NoneEmpty(front + [bucket]) && NoneEmpty(front + [bucket] + [[p]])
    ensures SinceTieOf(base, front + [bucket] + [[p]])
            == if bucket[|bucket| - 1].timestamp == p.timestamp then Some(1) else OneMore(SinceTieOf(base, front + [bucket]))
  {
    assert (front + [bucket] + [[p]])[..|front| + 1] == front + [bucket];
  }

  lemma TieJoins(base: seq<DataPoint>, front: seq<seq<DataPoint>>, bucket: seq<DataPoint>, p: DataPoint)
    requires bucket != [] && NoneEmpty(front)
    ensures NoneEmpty(front + [bucket]) && NoneEmpty(front + [bucket + [p]])
    ensures SinceTieOf(base, front + [bucket + [p]]) == SinceTieOf(base, front + [bucket])
  {
    assert (front + [bucket])[..|front|] == front && (front + [bucket + [p]])[..|front|] == front;
    assert (bucket + [p])[0] == bucket[0];
  }

  lemma TieSnoc(base: seq<DataPoint>, st: int, size: int, raw: seq<DataPoint>, p: DataPoint)
    requires raw != []
    ensures SinceTie(base, st, size, raw + [p])
            == if !Starts(st, size, raw, p) then SinceTie(base, st, size, raw)
               else if raw[|raw| - 1].timestamp == p.timestamp then Some(1)
               else OneMore(SinceTie(base, st, size, raw))
  {
    OpenEndsLast(st, size, raw);
    var front, bucket := SnocBuckets(st, size, raw, p);
    if Starts(st, size, raw, p) {
      TieStarts(base, front, bucket, p);
    } else {
      TieJoins(base, front, bucket, p);
    }
  }

  /** Two lists whose last k - 1 entries agree, before which one has an entry at a time that the other has not. */
  predicate Apart(closed: seq<DataPoint>, kept: seq<DataPoint>, k: nat) {
    && 1 <= k <= |closed| && k - 1 <= |kept| < |closed|
    && closed[|closed| - k + 1..] == kept[|kept| - k + 1..]
    && Absent(kept[..|kept| - k + 1], closed[|closed| - k].timestamp)
  }

  predicate Agree(closed: seq<DataPoint>, kept: seq<DataPoint>, tie: Option<nat>) {
    match tie case None => kept == closed case Some(k) => Apart(closed, kept, k)
  }

  lemma ApartSnoc(closed: seq<DataPoint>, kept: seq<DataPoint>, k: nat, x: DataPoint)
    requires Apart(closed, kept, k)
    ensures Apart(closed + [x], kept + [x], k + 1)
  {
    var c, d := closed + [x], kept + [x];
    assert c[|c| - k..] == closed[|closed| - k + 1..] + [x];
    assert d[|d| - k..] == kept[|kept| - k + 1..] + [x];
    assert d[..|d| - k] == kept[..|kept| - k + 1];
  }

  lemma AgreeSnoc(closed: seq<DataPoint>, kept: seq<DataPoint>, tie: Option<nat>, done: DataPoint, t: int)
    requires Agree(closed, kept, tie) && Absent(kept, done.timestamp) && |kept| <= |closed|
    ensures var after := Over(kept + [done], t);
            Agree(closed + [done], after, if done.timestamp == t then Some(1) else OneMore(tie))
  {
    if done.timestamp == t {
      assert (kept + [done])[..|kept|] == kept && kept[..|kept|] == kept;
      assert (closed + [done])[|closed| + 1..] == [] && kept[|kept|..] == [];
    } else if tie.Some? {
      ApartSnoc(closed, kept, tie.value, done);
    }
  }

  /** What lasts of the entries before the open one, against all of them. */
  predicate Matches(base: seq<DataPoint>, st: int, size: int, raw: seq<DataPoint>, times: set<int>)
    requires raw != []
  {
    && IsFresh(Lasting(base, st, size, raw), times, raw[|raw| - 1].timestamp)
    && Agree(Closed(base, st, size, raw), Lasting(base, st, size, raw), SinceTie(base, st, size, raw))
  }

  lemma AgreeStarts(base: seq<DataPoint>, st: int, size: int, front: seq<DataPoint>, p: DataPoint)
    requires front != [] && Starts(st, size, front, p)
    requires Agree(Closed(base, st, size, front), Lasting(base, st, size, front), SinceTie(base, st, size, front))
    requires Absent(Lasting(base, st, size, front), front[|front| - 1].timestamp)
    ensures Agree(Closed(base, st, size, front + [p]), Lasting(base, st, size, front + [p]),
                  SinceTie(base, st, size, front + [p]))
  {
    OpenSnoc(base, st, size, front, p);
    LastingSnoc(base, st, size, front, p);
    TieSnoc(base, st, size, front, p);
    OpenEndsLast(st, size, front);
    AgreeSnoc(Closed(base, st, size, front), Lasting(base, st, size, front), SinceTie(base, st, size, front),
              DoneOf(st, size, front), p.timestamp);
  }

  lemma AgreeJoins(base: seq<DataPoint>, st: int, size: int, front: seq<DataPoint>, p: DataPoint)
    requires front != [] && !Starts(st, size, front, p)
    ensures Closed(base, st, size, front + [p]) == Closed(base, st, size, front)
    ensures Lasting(base, st, size, front + [p]) == Lasting(base, st, size, front)
    ensures SinceTie(base, st, size, front + [p]) == SinceTie(base, st, size, front)
  {
    OpenSnoc(base, st, size, front, p);
    LastingSnoc(base, st, size, front, p);
    TieSnoc(base, st, size, front, p);
  }

  lemma MatchesSnoc(base: seq<DataPoint>, st: int, size: int, front: seq<DataPoint>, times: set<int>, p: DataPoint)
    requires front != [] && Matches(base, st, size, front, times)
    requires p.timestamp !in times || p.timestamp == front[|front| - 1].timestamp
    ensures Matches(base, st, size, front + [p], times + {p.timestamp})
  {
    StaysFresh(base, st, size, front, times, p);
    if Starts(st, size, front, p) {
      AgreeStarts(base, st, size, front, p);
    } else {
      AgreeJoins(base, st, size, front, p);
    }
  }

  lemma {:induction false} LastingAgrees(base: seq<DataPoint>, st: int, size: int, raw: seq<DataPoint>, times: set<int>,
                                         prev: Option<int>)
    requires raw != [] && Fresh(times, prev, raw)
    requires IsFresh(Over(base, raw[0].timestamp), times + {raw[0].timestamp}, raw[0].timestamp)
    ensures Matches(base, st, size, raw, times + Times(raw))
    decreases |raw|
  {
    if |raw| == 1 {
      assert raw == [raw[0]];
      TimesOfOne(raw[0]);
      FirstAgrees(base, st, size, raw[0], times + {raw[0].timestamp});
    } else {
      var front, p := raw[..|raw| - 1], raw[|raw| - 1];
      OneMoreOf([], raw, times, prev);
      LastingAgrees(base, st, size, front, times, prev);
      MatchesSnoc(base, st, size, front, times + Times(front), p);
    }
  }

  lemma FirstAgrees(base: seq<DataPoint>, st: int, size: int, p: DataPoint, times: set<int>)
    requires IsFresh(Over(base, p.timestamp), times, p.timestamp)
    ensures Matches(base, st, size, [p], times)
  {
    LastingOne(base, st, size, p);
    SplitOne(st, size, p);
    var kept := Over(base, p.timestamp);
    assert kept[..|kept|] == kept && kept[|kept|..] == [] && base[|base|..] == [];
  }

  lemma TailOfTail<T>(s: seq<T>, k: nat, m: nat)
    requires m <= k <= |s|
    ensures s[|s| - m..] == s[|s| - k..][k - m..]
  {}

  lemma NewestShared(c: seq<DataPoint>, d: seq<DataPoint>, k: nat, m: nat)
    requires m <= k && Apart(c, d, k + 1)
    ensures Newest(Some(m), d) == Newest(Some(m), c)
  {
    TailOfTail(c, k, m);
    TailOfTail(d, k, m);
  }

  lemma NewestDiffers(limit: Option<nat>, c: seq<DataPoint>, d: seq<DataPoint>, k: nat)
    requires Apart(c, d, k + 1) && (limit.Some? ==> limit.value > k)
    ensures Newest(limit, d) != Newest(limit, c)
  {
    var n, o := Newest(limit, c), Newest(limit, d);
    if |n| == |o| {
      assert n[|n| - 1 - k] == c[|c| - 1 - k] && o[|o| - 1 - k] == d[|d| - 1 - k];
      assert d[|d| - 1 - k] == d[..|d| - k][|d| - 1 - k];
    }
  }

  /** Cut to the newest `limit`, such lists are equal only if the cut is no longer than what they share. */
  lemma NewestApart(limit: Option<nat>, closed: seq<DataPoint>, kept: seq<DataPoint>, k: nat, x: DataPoint)
    requires Apart(closed, kept, k)
    ensures Newest(limit, kept + [x]) == Newest(limit, closed + [x]) <==> limit.Some? && limit.value <= k
  {
    ApartSnoc(closed, kept, k, x);
    if limit.Some? && limit.value <= k {
      NewestShared(closed + [x], kept + [x], k, limit.value);
    } else {
      NewestDiffers(limit, closed + [x], kept + [x], k);
    }
  }

  /**
   * For all such times, the map is what the specification says if and only if no entry was overwritten, or the limit
   * reaches back no further than the entries after the last overwritten one.
   */
  lemma ChartIsExpectedIff(history: seq<DataPoint>, size: int, limit: Option<nat>, raw: seq<DataPoint>)
    requires raw != [] && Follow(history, raw)
    ensures var tie := SinceTie(Completed(history), FirstStart(history, raw), size, raw);
            Live(LoadCompletedPoints(New(limit, size), history), raw).data == Newest(limit, Expected(history, size, raw))
            <==> tie.None? || (limit.Some? && limit.value <= tie.value)
  {
    var base, st := Completed(history), FirstStart(history, raw);
    ChartIsShown(history, size, limit, raw);
    ExpectedIs(history, size, raw);
    FreshFirst(Times(history), LastTime(history), raw);
    OverHistory(history, raw[0].timestamp);
    LastingAgrees(base, st, size, raw, Times(history), LastTime(history));
    var tie := SinceTie(base, st, size, raw);
    if tie.Some? {
      NewestApart(limit, Closed(base, st, size, raw), Lasting(base, st, size, raw), tie.value,
                  Average(Open(st, size, raw), size));
    }
  }

  lemma {:induction false} AveragesLength(buckets: seq<seq<DataPoint>>, size: int)
    requires NoneEmpty(buckets)
    ensures |Averages(buckets, size)| == |buckets|
  {
    if buckets == [] {
    } else {
      AveragesLength(buckets[..|buckets| - 1], size);
    }
  }

  lemma SplitCount(st: int, size: int, raw: seq<DataPoint>, p: DataPoint)
    requires raw != []
    ensures |Split(st, size, raw + [p])| == |Split(st, size, raw)| + if Starts(st, size, raw, p) then 1 else 0
  {
    SplitSnoc(st, size, raw, p);
  }

  predicate TiesWithHistory(base: seq<DataPoint>, st: int, size: int, raw: seq<DataPoint>)
    requires raw != []
  {
    SinceTie(base, st, size, raw) == if Over(base, raw[0].timestamp) == base then None else Some(|Split(st, size, raw)|)
  }

  lemma TiesSnoc(base: seq<DataPoint>, st: int, size: int, raw: seq<DataPoint>, p: DataPoint)
    requires raw != [] && TiesWithHistory(base, st, size, raw) && raw[|raw| - 1].timestamp != p.timestamp
    ensures TiesWithHistory(base, st, size, raw + [p])
  {
    SplitCount(st, size, raw, p);
    TieSnoc(base, st, size, raw, p);
  }

  predicate Distinct(s: seq<DataPoint>) { forall i, j :: 0 <= i < j < |s| ==> s[i].timestamp != s[j].timestamp }

  /** Distinct live times can tie with the history only. */
  lemma {:induction false} SeamTie(base: seq<DataPoint>, st: int, size: int, raw: seq<DataPoint>)
    requires raw != [] && Distinct(raw)
    ensures TiesWithHistory(base, st, size, raw)
    decreases |raw|
  {
    var front, p := raw[..|raw| - 1], raw[|raw| - 1];
    assert raw == front + [p];
    if front == [] {
      assert raw == [p];
      SplitOne(st, size, p);
    } else {
      SeamTie(base, st, size, front);
      TiesSnoc(base, st, size, front, p);
    }
  }

  /**
   * At the seam: with live times that are distinct, and none in the history but perhaps its last, the map is as specified
   * if and only if the first live time is not that one, or the limit is no larger than the number of live entries.
   */
  lemma SeamIsExact(history: seq<DataPoint>, size: int, limit: Option<nat>, raw: seq<DataPoint>)
    requires history != [] && raw != [] && Follow(history, raw) && Distinct(raw)
    ensures Live(LoadCompletedPoints(New(limit, size), history), raw).data == Newest(limit, Expected(history, size, raw))
            <==> history[|history| - 1].timestamp != raw[0].timestamp
                 || (limit.Some? && limit.value <= |LivePoints(FirstStart(history, raw), size, raw)|)
  {
    var st := FirstStart(history, raw);
    var buckets := Split(st, size, raw);
    ChartIsExpectedIff(history, size, limit, raw);
    SeamTie(Completed(history), st, size, raw);
    CompletedIs(history);
    AveragesLength(buckets[..|buckets| - 1], size);
  }

  /** A sorted history and live points in any order, all times distinct: the whole specification, for every limit. */
  lemma ChartIsExpected(history: seq<DataPoint>, size: int, limit: Option<nat>, raw: seq<DataPoint>)
    requires Increasing(history) && InRange(history) && Distinct(history + raw)
    ensures Live(LoadCompletedPoints(New(limit, size), history), raw).data == Newest(limit, Expected(history, size, raw))
  {
    DistinctFollows(history, raw);
    if raw == [] {
      ChartIsShown(history, size, limit, raw);
      assert Completed(history) + [] == Completed(history);
    } else {
      ChartIsExpectedIff(history, size, limit, raw);
      SeamTie(Completed(history), FirstStart(history, raw), size, raw);
      CompletedIs(history);
    }
  }

  lemma DistinctJoin(a: seq<DataPoint>, b: seq<DataPoint>)
    requires Distinct(a + b)
    ensures Distinct(b) && forall i :: 0 <= i < |b| ==> Absent(a, b[i].timestamp) && Absent(b[..i], b[i].timestamp)
  {
    var all := a + b;
    assert forall i :: 0 <= i < |a| ==> all[i] == a[i];
    assert forall i :: 0 <= i < |b| ==> all[|a| + i] == b[i];
  }

  lemma NotSeen(a: seq<DataPoint>, t: int)
    requires Absent(a, t)
    ensures t !in Times(a)
  {
    TimesMembers(a);
  }

  lemma {:induction false} DistinctIsFresh(a: seq<DataPoint>, prev: Option<int>, b: seq<DataPoint>)
    requires forall i :: 0 <= i < |b| ==> Absent(a, b[i].timestamp) && Absent(b[..i], b[i].timestamp)
    ensures Fresh(Times(a), prev, b)
    decreases |b|
  {
    if b == [] {
    } else {
      var front, p := b[..|b| - 1], b[|b| - 1];
      assert forall i :: 0 <= i < |front| ==> b[..i] == front[..i] && b[i] == front[i];
      DistinctIsFresh(a, prev, front);
      NotSeen(a, p.timestamp);
      NotSeen(front, p.timestamp);
    }
  }

  lemma DistinctFollows(history: seq<DataPoint>, raw: seq<DataPoint>)
    requires Increasing(history) && InRange(history) && Distinct(history + raw)
    ensures Follow(history, raw) && Distinct(raw)
    ensures history != [] && raw != [] ==> history[|history| - 1].timestamp != raw[0].timestamp
  {
    DistinctJoin(history, raw);
    DistinctIsFresh(history, LastTime(history), raw);
  }

  // ---- Times that never go back ----

  /** The first live point may share the time of the last of the history. */
  predicate InSequence(history: seq<DataPoint>, raw: seq<DataPoint>) {
    && Increasing(history) && InRange(history) && InOrder(raw)
    && (history != [] && raw != [] ==> history[|history| - 1].timestamp <= raw[0].timestamp)
  }

  lemma OrderFront(raw: seq<DataPoint>)
    requires |raw| > 1 && InOrder(raw)
    ensures var front, p := raw[..|raw| - 1], raw[|raw| - 1];
            InOrder(front) && front[0] == raw[0] && front[|front| - 1].timestamp <= p.timestamp && raw == front + [p]
  {}

  predicate IsOrdered(s: seq<DataPoint>, t: int) { Increasing(s) && Later(s, t) }

  lemma OverOrdered(kept: seq<DataPoint>, done: DataPoint, t: int)
    requires IsOrdered(kept, done.timestamp) && done.timestamp <= t
    ensures IsOrdered(Over(kept + [done], t), t)
  {
    assert (kept + [done])[..|kept|] == kept;
  }

  lemma OrderedStill(s: seq<DataPoint>, t: int, u: int)
    requires IsOrdered(s, t) && t <= u
    ensures IsOrdered(s, u)
  {}

  lemma StaysOrdered(base: seq<DataPoint>, st: int, size: int, front: seq<DataPoint>, p: DataPoint)
    requires front != [] && IsOrdered(Lasting(base, st, size, front), front[|front| - 1].timestamp)
    requires front[|front| - 1].timestamp <= p.timestamp
    ensures IsOrdered(Lasting(base, st, size, front + [p]), p.timestamp)
  {
    LastingSnoc(base, st, size, front, p);
    OpenEndsLast(st, size, front);
    OverOrdered(Lasting(base, st, size, front), DoneOf(st, size, front), p.timestamp);
    OrderedStill(Lasting(base, st, size, front), front[|front| - 1].timestamp, p.timestamp);
  }

  /** The lasting entries are in order, all earlier than the last raw point. */
  lemma {:induction false} LastingIsOrdered(base: seq<DataPoint>, st: int, size: int, raw: seq<DataPoint>)
    requires raw != [] && InOrder(raw) && IsOrdered(Over(base, raw[0].timestamp), raw[0].timestamp)
    ensures IsOrdered(Lasting(base, st, size, raw), raw[|raw| - 1].timestamp)
    decreases |raw|
  {
    if |raw| == 1 {
      assert raw == [raw[0]];
      LastingOne(base, st, size, raw[0]);
    } else {
      OrderFront(raw);
      LastingIsOrdered(base, st, size, raw[..|raw| - 1]);
      StaysOrdered(base, st, size, raw[..|raw| - 1], raw[|raw| - 1]);
    }
  }

  lemma OverInOrder(s: seq<DataPoint>, t: int)
    requires Increasing(s) && (s != [] ==> s[|s| - 1].timestamp <= t)
    ensures IsOrdered(Over(s, t), t)
  {}

  predicate AtMost(times: set<int>, t: int) { forall u :: u in times ==> u <= t }

  lemma HistoryAtMost(history: seq<DataPoint>, t: int)
    requires Increasing(history) && (history != [] ==> history[|history| - 1].timestamp <= t)
    ensures AtMost(Times(history), t)
  {
    TimesMembers(history);
  }

  lemma {:induction false} OrderIsFresh(times: set<int>, prev: Option<int>, raw: seq<DataPoint>)
    requires InOrder(raw) && (raw != [] ==> AtMost(times, raw[0].timestamp) && (raw[0].timestamp !in times || prev == Some(raw[0].timestamp)))
    ensures Fresh(times, prev, raw)
    ensures raw != [] ==> AtMost(times + Times(raw), raw[|raw| - 1].timestamp)
    decreases |raw|
  {
    if raw == [] {
    } else if |raw| == 1 {
      assert raw == [raw[0]] && raw[..0] == [];
      TimesOfOne(raw[0]);
    } else {
      OrderFront(raw);
      OrderIsFresh(times, prev, raw[..|raw| - 1]);
    }
  }

  lemma SequenceFollows(history: seq<DataPoint>, raw: seq<DataPoint>)
    requires InSequence(history, raw)
    ensures Follow(history, raw)
  {
    if raw != [] {
      HistoryAtMost(history, raw[0].timestamp);
      NewOrLast(history, raw[0].timestamp);
    }
    OrderIsFresh(Times(history), LastTime(history), raw);
  }

  lemma NewOrLast(history: seq<DataPoint>, t: int)
    requires Increasing(history) && (history != [] ==> history[|history| - 1].timestamp <= t)
    ensures t !in Times(history) || LastTime(history) == Some(t)
  {
    TimesMembers(history);
  }

  lemma NewestIncreases(limit: Option<nat>, s: seq<DataPoint>)
    requires Increasing(s)
    ensures Increasing(Newest(limit, s))
  {}

  lemma ShownIncreases(history: seq<DataPoint>, size: int, raw: seq<DataPoint>)
    requires InSequence(history, raw) && raw != []
    ensures Increasing(Shown(history, size, raw))
  {
    var st, base := FirstStart(history, raw), Completed(history);
    CompletedIncreases(history);
    OverInOrder(base, raw[0].timestamp);
    LastingIsOrdered(base, st, size, raw);
    OpenEndsLast(st, size, raw);
  }

  /** The entries are then in time order as they stand, ties or not, so `getData` has nothing to sort. */
  lemma ChartIsInOrder(history: seq<DataPoint>, size: int, limit: Option<nat>, raw: seq<DataPoint>)
    requires InSequence(history, raw)
    ensures Increasing(Live(LoadCompletedPoints(New(limit, size), history), raw).data)
  {
    SequenceFollows(history, raw);
    ChartIsShown(history, size, limit, raw);
    if raw == [] {
      CompletedIncreases(history);
    } else {
      ShownIncreases(history, size, raw);
    }
    NewestIncreases(limit, Shown(history, size, raw));
  }
}
