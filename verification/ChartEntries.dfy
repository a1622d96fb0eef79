/** The entries of the chart, field by field: which points each stands for, what it averages, and whether it is complete. */
module ChartEntries {
  import opened ChartBuckets
  import opened ChartRefinement
  import opened Wrappers

  // ---- One entry ----

  datatype Rates = Rates(packetsIn: real, bytesIn: real, packetsOut: real, bytesOut: real)

  function Total(b: seq<DataPoint>): Rates {
    if b == [] then Rates(0.0, 0.0, 0.0, 0.0) else
    var sofar, p := Total(b[..|b| - 1]), b[|b| - 1];
    Rates(sofar.packetsIn + p.packetsIn, sofar.bytesIn + p.bytesIn,
          sofar.packetsOut + p.packetsOut, sofar.bytesOut + p.bytesOut)
  }

  lemma {:induction false} TotalIsSum(b: seq<DataPoint>)
    ensures Total(b) == Rates(Sum(b, PacketsIn()), Sum(b, BytesIn()), Sum(b, PacketsOut()), Sum(b, BytesOut()))
  {
    if b == [] {
    } else {
      TotalIsSum(b[..|b| - 1]);
    }
  }

  /** It stands at its last point's time for the mean of each rate, and is active if one of its points is. */
  predicate IsEntryOf(x: DataPoint, b: seq<DataPoint>, size: int, complete: bool)
    requires b != []
  {
    && x.timestamp == b[|b| - 1].timestamp && x.windowMs == size && x.complete == complete
    && x.packetsIn * |b| as real == Total(b).packetsIn && x.bytesIn * |b| as real == Total(b).bytesIn
    && x.packetsOut * |b| as real == Total(b).packetsOut && x.bytesOut * |b| as real == Total(b).bytesOut
    && (x.isActive <==> exists i :: 0 <= i < |b| && b[i].isActive)
  }

  lemma AverageIsEntry(b: seq<DataPoint>, size: int)
    requires b != []
    ensures IsEntryOf(Average(b, size), b, size, false)
    ensures IsEntryOf(Average(b, size).(complete := true), b, size, true)
  {
    TotalIsSum(b);
    AverageGivesBack(b, size);
  }

  // ---- The map ----

  /** Setting a time that is in the map replaces that entry where it stands; deleting it takes it out. */
  lemma {:induction false} KnownTime(data: seq<DataPoint>, i: nat, p: DataPoint)
    requires i < |data| && Absent(data[..i], p.timestamp) && data[i].timestamp == p.timestamp
    ensures Put(data, p) == data[i := p] && Remove(data, p.timestamp) == data[..i] + data[i + 1..]
  {
    if i == 0 {
      assert data[0 := p] == [p] + data[1..] && data[..0] + data[1..] == data[1..];
    } else {
      var rest := data[1..];
      assert data[0] == data[..i][0] && rest[..i - 1] == data[..i][1..];
      KnownTime(rest, i - 1, p);
      assert [data[0]] + rest[i - 1 := p] == data[i := p];
      assert [data[0]] + (rest[..i - 1] + rest[i..]) == data[..i] + data[i + 1..];
    }
  }

  /** A time that is not there is added last; deleting it changes nothing. */
  lemma {:induction false} NewTime(data: seq<DataPoint>, p: DataPoint)
    requires Absent(data, p.timestamp)
    ensures Put(data, p) == data + [p] && Remove(data, p.timestamp) == data
  {
    PutNew(data, p);
    if data != [] {
      NewTime(data[1..], p);
    }
  }

  // ---- The buckets, from the times alone ----

  /** The first bucket counts from `start`, any other from its own first point. */
  function StartOf(start: int, buckets: seq<seq<DataPoint>>, k: nat): int
    requires k < |buckets| && NoneEmpty(buckets)
  {
    if k == 0 then start else buckets[k][0].timestamp
  }

  /** After its first point a bucket takes those less than `size` from its start, and the next begins with one that is not. */
  predicate AreCut(buckets: seq<seq<DataPoint>>, start: int, size: int)
    requires NoneEmpty(buckets)
  {
    forall k :: 0 <= k < |buckets| ==>
      && (forall j :: 1 <= j < |buckets[k]| ==> buckets[k][j].timestamp < StartOf(start, buckets, k) + size)
      && (k + 1 < |buckets| ==> buckets[k + 1][0].timestamp >= StartOf(start, buckets, k) + size)
  }

  lemma {:induction false} CutAt(limit: int, raw: seq<DataPoint>, i: nat)
    requires i <= |raw|
    ensures var n := Cut(limit, raw, i);
            && (forall j :: i <= j < n ==> raw[j].timestamp < limit) && (n < |raw| ==> raw[n].timestamp >= limit)
    decreases |raw| - i
  {
    if i < |raw| && raw[i].timestamp < limit {
      CutAt(limit, raw, i + 1);
    }
  }

  lemma {:induction false} CutIs(limit: int, raw: seq<DataPoint>, i: nat, n: nat)
    requires i <= n <= |raw| && (forall j :: i <= j < n ==> raw[j].timestamp < limit)
    requires n < |raw| ==> raw[n].timestamp >= limit
    ensures Cut(limit, raw, i) == n
    decreases n - i
  {
    if i < n {
      CutIs(limit, raw, i + 1, n);
    }
  }

  lemma AreCutFirst(first: seq<DataPoint>, rest: seq<seq<DataPoint>>, start: int, size: int)
    requires first != [] && NoneEmpty(rest) && (forall j :: 1 <= j < |first| ==> first[j].timestamp < start + size)
    requires rest != [] ==> rest[0][0].timestamp >= start + size && AreCut(rest, rest[0][0].timestamp, size)
    ensures NoneEmpty([first] + rest) && AreCut([first] + rest, start, size)
  {
    var all: seq<seq<DataPoint>> := [first] + rest;
    forall k | 0 <= k < |all|
      ensures forall j :: 1 <= j < |all[k]| ==> all[k][j].timestamp < StartOf(start, all, k) + size
      ensures k + 1 < |all| ==> all[k + 1][0].timestamp >= StartOf(start, all, k) + size
    {
      if k > 0 {
        assert all[k] == rest[k - 1] && StartOf(start, all, k) == StartOf(rest[0][0].timestamp, rest, k - 1);
        if k + 1 < |all| {
          assert all[k + 1] == rest[k - 1 + 1];
        }
      }
    }
  }

  lemma {:induction false} SplitIsCut(start: int, size: int, raw: seq<DataPoint>)
    ensures AreCut(Split(start, size, raw), start, size)
    ensures raw != [] ==> Split(start, size, raw)[0][0] == raw[0]
    decreases |raw|
  {
    if raw == [] {
    } else {
      var n := Cut(start + size, raw, 1);
      CutAt(start + size, raw, 1);
      if n == |raw| {
        assert Split(start, size, raw) == [raw[..n]] + [];
        AreCutFirst(raw[..n], [], start, size);
      } else {
        SplitIsCut(raw[n].timestamp, size, raw[n..]);
        AreCutFirst(raw[..n], Split(raw[n].timestamp, size, raw[n..]), start, size);
      }
    }
  }

  lemma FlattenCons(first: seq<DataPoint>, rest: seq<seq<DataPoint>>)
    requires NoneEmpty(rest)
    ensures Flatten([first] + rest) == first + Flatten(rest)
    ensures rest != [] ==> Flatten(rest) != [] && Flatten(rest)[0] == rest[0][0]
  {
    assert ([first] + rest)[1..] == rest;
  }

  lemma CutRest(first: seq<DataPoint>, rest: seq<seq<DataPoint>>, start: int, size: int)
    requires first != [] && NoneEmpty(rest) && NoneEmpty([first] + rest) && AreCut([first] + rest, start, size)
    ensures forall j :: 1 <= j < |first| ==> first[j].timestamp < start + size
    ensures rest != [] ==> rest[0][0].timestamp >= start + size && AreCut(rest, rest[0][0].timestamp, size)
  {
    var all: seq<seq<DataPoint>> := [first] + rest;
    assert all[0] == first && StartOf(start, all, 0) == start;
    if rest != [] {
      assert all[1] == rest[0] && all[0 + 1][0].timestamp >= start + size;
      forall k | 0 <= k < |rest|
        ensures forall j :: 1 <= j < |rest[k]| ==> rest[k][j].timestamp < StartOf(rest[0][0].timestamp, rest, k) + size
        ensures k + 1 < |rest| ==> rest[k + 1][0].timestamp >= StartOf(rest[0][0].timestamp, rest, k) + size
      {
        assert all[k + 1] == rest[k] && StartOf(start, all, k + 1) == StartOf(rest[0][0].timestamp, rest, k);
        if k + 1 < |rest| {
          assert all[k + 1 + 1] == rest[k + 1];
        }
      }
    }
  }

  /** There is only one way to cut the stream so. */
  lemma {:induction false} CutIsUnique(buckets: seq<seq<DataPoint>>, start: int, size: int, raw: seq<DataPoint>)
    requires NoneEmpty(buckets)
    ensures buckets == Split(start, size, raw) <==> Flatten(buckets) == raw && AreCut(buckets, start, size)
    decreases |buckets|
  {
    SplitPartitions(start, size, raw);
    SplitIsCut(start, size, raw);
    if Flatten(buckets) == raw && AreCut(buckets, start, size) && buckets != [] {
      var first, rest := buckets[0], buckets[1..];
      assert buckets == [first] + rest;
      FlattenCons(first, rest);
      CutRest(first, rest, start, size);
      CutIs(start + size, raw, 1, |first|);
      SplitUnfold(start, size, first, Flatten(rest));
      if rest != [] {
        CutIsUnique(rest, rest[0][0].timestamp, size, Flatten(rest));
      }
    }
  }

  // ---- All entries, when no time repeats ----

  lemma {:induction false} AveragesAre(buckets: seq<seq<DataPoint>>, size: int)
    requires NoneEmpty(buckets)
    ensures |Averages(buckets, size)| == |buckets|
    ensures forall k :: 0 <= k < |buckets| ==> IsEntryOf(Averages(buckets, size)[k], buckets[k], size, true)
  {
    if buckets == [] {
    } else {
      var n := |buckets| - 1;
      AveragesAre(buckets[..n], size);
      AverageIsEntry(buckets[n], size);
    }
  }

  /** The completed history, then one entry per bucket, complete for all but the last. */
  predicate AreEntries(s: seq<DataPoint>, history: seq<DataPoint>, size: int, buckets: seq<seq<DataPoint>>)
    requires NoneEmpty(buckets)
  {
    && |s| == |history| + |buckets|
    && (forall i :: 0 <= i < |history| ==> s[i] == history[i].(complete := true))
    && forall k :: 0 <= k < |buckets| ==> IsEntryOf(s[|history| + k], buckets[k], size, k < |buckets| - 1)
  }

  lemma LivePointsAre(start: int, size: int, raw: seq<DataPoint>)
    ensures var live, buckets := LivePoints(start, size, raw), Split(start, size, raw);
            |live| == |buckets|
            && forall k :: 0 <= k < |buckets| ==> IsEntryOf(live[k], buckets[k], size, k < |buckets| - 1)
  {
    var buckets := Split(start, size, raw);
    if buckets != [] {
      var n := |buckets| - 1;
      AveragesAre(buckets[..n], size);
      AverageIsEntry(buckets[n], size);
    }
  }

  lemma ExpectedAre(history: seq<DataPoint>, size: int, raw: seq<DataPoint>)
    ensures raw == [] ==> AreEntries(Expected(history, size, raw), history, size, [])
    ensures raw != [] ==>
              AreEntries(Expected(history, size, raw), history, size, Split(FirstStart(history, raw), size, raw))
  {
    CompletedIs(history);
    if raw != [] {
      LivePointsAre(FirstStart(history, raw), size, raw);
    }
  }

  predicate IsTailOf(d: seq<DataPoint>, s: seq<DataPoint>, limit: Option<nat>) {
    && |d| == (if limit.Some? && limit.value < |s| then limit.value else |s|)
    && |d| <= |s| && forall i :: 0 <= i < |d| ==> d[i] == s[|s| - |d| + i]
  }

  /**
   * A sorted history and live points in any order, all times distinct: cut the live points into buckets that count from
   * the last history point, and the map holds the newest of the history and the buckets' entries, in order.
   */
  lemma ChartEntriesAre(history: seq<DataPoint>, size: int, limit: Option<nat>, raw: seq<DataPoint>,
                        start: int, buckets: seq<seq<DataPoint>>) returns (s: seq<DataPoint>)
    requires Increasing(history) && InRange(history) && Distinct(history + raw)
    requires raw != [] ==> start == if history == [] then raw[0].timestamp else history[|history| - 1].timestamp
    requires NoneEmpty(buckets) && Flatten(buckets) == raw && AreCut(buckets, start, size)
    ensures AreEntries(s, history, size, buckets)
    ensures IsTailOf(Live(LoadCompletedPoints(New(limit, size), history), raw).data, s, limit)
  {
    s := Expected(history, size, raw);
    ChartIsExpected(history, size, limit, raw);
    NewestIsTail(limit, s);
    ExpectedAre(history, size, raw);
    CutIsUnique(buckets, start, size, raw);
  }

  // ---- Any entry, when the last time may repeat ----

  /** A history point, or the entry of a bucket that closed. */
  predicate IsDone(x: DataPoint, history: seq<DataPoint>, size: int, closed: seq<seq<DataPoint>>)
    requires NoneEmpty(closed)
  {
    || (exists i :: 0 <= i < |history| && x == history[i].(complete := true))
    || exists k :: 0 <= k < |closed| && IsEntryOf(x, closed[k], size, true)
  }

  lemma {:induction false} LastingAreDone(history: seq<DataPoint>, buckets: seq<seq<DataPoint>>, size: int, i: nat)
    requires buckets != [] && NoneEmpty(buckets) && i < |LastingOf(Completed(history), buckets, size)|
    ensures IsDone(LastingOf(Completed(history), buckets, size)[i], history, size, buckets[..|buckets| - 1])
    decreases |buckets|
  {
    var n := |buckets| - 1;
    var x := LastingOf(Completed(history), buckets, size)[i];
    if n == 0 {
      CompletedIs(history);
      assert x == history[i].(complete := true);
    } else {
      var before := LastingOf(Completed(history), buckets[..n], size);
      if i < |before| {
        assert x == before[i];
        LastingAreDone(history, buckets[..n], size, i);
        StillDone(x, history, size, buckets[..n], n - 1);
      } else {
        AverageIsEntry(buckets[n - 1], size);
        assert buckets[..n][n - 1] == buckets[n - 1];
      }
    }
  }

  lemma StillDone(x: DataPoint, history: seq<DataPoint>, size: int, buckets: seq<seq<DataPoint>>, n: nat)
    requires n <= |buckets| && NoneEmpty(buckets) && IsDone(x, history, size, buckets[..n])
    ensures IsDone(x, history, size, buckets)
  {
    if k :| 0 <= k < n && IsEntryOf(x, buckets[..n][k], size, true) {
      assert IsEntryOf(x, buckets[k], size, true);
    }
  }

  /** Below a history point is complete; the one entry that is not stands last, at the time of the last live point. */
  predicate AllButLastDone(d: seq<DataPoint>, history: seq<DataPoint>, size: int, buckets: seq<seq<DataPoint>>, last: int)
    requires buckets != [] && NoneEmpty(buckets)
  {
    var n := |buckets| - 1;
    && (forall i :: 0 <= i < |d| ==> (d[i].complete <==> d[i].timestamp != last))
    && (forall i :: 0 <= i < |d| && d[i].complete ==> IsDone(d[i], history, size, buckets[..n]))
    && (d != [] ==> IsEntryOf(d[|d| - 1], buckets[n], size, false) && d[|d| - 1].timestamp == last)
  }

  lemma DoneIsComplete(x: DataPoint, history: seq<DataPoint>, size: int, closed: seq<seq<DataPoint>>)
    requires NoneEmpty(closed) && IsDone(x, history, size, closed)
    ensures x.complete
  {}

  predicate AllDone(kept: seq<DataPoint>, history: seq<DataPoint>, size: int, closed: seq<seq<DataPoint>>)
    requires NoneEmpty(closed)
  {
    forall i :: 0 <= i < |kept| ==> IsDone(kept[i], history, size, closed)
  }

  lemma AllThenLast(kept: seq<DataPoint>, x: DataPoint, history: seq<DataPoint>, size: int, closed: seq<seq<DataPoint>>,
                    open: seq<DataPoint>, last: int)
    requires NoneEmpty(closed) && open != [] && AllDone(kept, history, size, closed) && Absent(kept, last)
    requires IsEntryOf(x, open, size, false) && x.timestamp == last
    ensures NoneEmpty(closed + [open]) && AllButLastDone(kept + [x], history, size, closed + [open], last)
  {
    assert (closed + [open])[..|closed|] == closed;
    forall i | 0 <= i < |kept| ensures kept[i].complete {
      DoneIsComplete(kept[i], history, size, closed);
    }
  }

  lemma LastingAllDone(history: seq<DataPoint>, closed: seq<seq<DataPoint>>, open: seq<DataPoint>, size: int)
    requires NoneEmpty(closed) && open != []
    ensures NoneEmpty(closed + [open])
    ensures AllDone(LastingOf(Completed(history), closed + [open], size), history, size, closed)
  {
    var buckets := closed + [open];
    assert buckets[..|buckets| - 1] == closed;
    forall i | 0 <= i < |LastingOf(Completed(history), buckets, size)|
      ensures IsDone(LastingOf(Completed(history), buckets, size)[i], history, size, closed)
    {
      LastingAreDone(history, buckets, size, i);
    }
  }

  lemma OpenIsLast(st: int, size: int, raw: seq<DataPoint>) returns (closed: seq<seq<DataPoint>>, open: seq<DataPoint>)
    requires raw != []
    ensures Split(st, size, raw) == closed + [open] && Open(st, size, raw) == open && NoneEmpty(closed) && open != []
    ensures open[|open| - 1] == raw[|raw| - 1]
  {
    var buckets := Split(st, size, raw);
    closed, open := buckets[..|buckets| - 1], buckets[|buckets| - 1];
    OpenEndsLast(st, size, raw);
  }

  lemma ShownAllDone(history: seq<DataPoint>, size: int, st: int, raw: seq<DataPoint>)
    requires raw != [] && Absent(Lasting(Completed(history), st, size, raw), raw[|raw| - 1].timestamp)
    ensures AllButLastDone(ShownOver(Completed(history), st, size, raw), history, size, Split(st, size, raw),
                           raw[|raw| - 1].timestamp)
  {
    var closed, open := OpenIsLast(st, size, raw);
    LastingAllDone(history, closed, open, size);
    AverageIsEntry(open, size);
    AllThenLast(Lasting(Completed(history), st, size, raw), Average(open, size), history, size, closed, open,
                raw[|raw| - 1].timestamp);
  }

  lemma NewestAllDone(d: seq<DataPoint>, limit: Option<nat>, history: seq<DataPoint>, size: int,
                      buckets: seq<seq<DataPoint>>, last: int)
    requires buckets != [] && NoneEmpty(buckets) && AllButLastDone(d, history, size, buckets, last)
    ensures AllButLastDone(Newest(limit, d), history, size, buckets, last)
  {
    var e := Newest(limit, d);
    assert forall i :: 0 <= i < |e| ==> e[i] == d[|d| - |e| + i];
  }

  lemma LastingAvoidsLast(history: seq<DataPoint>, size: int, limit: Option<nat>, raw: seq<DataPoint>)
    requires raw != [] && Follow(history, raw) && limit != Some(0)
    ensures Absent(Lasting(Completed(history), FirstStart(history, raw), size, raw), raw[|raw| - 1].timestamp)
  {
    LiveRefines(history, size, limit, raw);
  }

  lemma NewestIsTail(limit: Option<nat>, s: seq<DataPoint>)
    ensures IsTailOf(Newest(limit, s), s, limit)
  {}

  lemma NewestIsNotEmpty(limit: Option<nat>, s: seq<DataPoint>)
    requires limit != Some(0) && s != []
    ensures Newest(limit, s) != []
  {}

  /**
   * Whatever the limit, and with last times taken up again: every entry is complete but the one at the last live point's
   * time, which is not; it stands last and averages the open bucket. The others are history points and closed buckets.
   */
  lemma OnlyTheLastIsOpen(history: seq<DataPoint>, size: int, limit: Option<nat>, raw: seq<DataPoint>)
    requires raw != [] && Follow(history, raw) && limit != Some(0)
    ensures var d := Live(LoadCompletedPoints(New(limit, size), history), raw).data;
            && d != []
            && AllButLastDone(d, history, size, Split(FirstStart(history, raw), size, raw), raw[|raw| - 1].timestamp)
  {
    var st, last := FirstStart(history, raw), raw[|raw| - 1].timestamp;
    ChartIsShown(history, size, limit, raw);
    LastingAvoidsLast(history, size, limit, raw);
    ShownAllDone(history, size, st, raw);
    var all := ShownOver(Completed(history), st, size, raw);
    NewestAllDone(all, limit, history, size, Split(st, size, raw), last);
    NewestIsNotEmpty(limit, all);
  }

  /** Before any live point there are the newest of the history, all complete. */
  lemma HistoryIsDone(history: seq<DataPoint>, size: int, limit: Option<nat>) returns (s: seq<DataPoint>)
    requires Increasing(history) && InRange(history)
    ensures AreEntries(s, history, size, [])
    ensures IsTailOf(LoadCompletedPoints(New(limit, size), history).data, s, limit)
  {
    s := Completed(history);
    HistoryIsNewest(history, size, limit);
    NewestIsTail(limit, s);
    CompletedIs(history);
  }
}
