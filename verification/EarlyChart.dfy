/**
 * Live points that come before the history, which both providers allow by subscribing first: what the map holds
 * then, and when the limit keeps the latest of it.
 */
module EarlyChart {
  import opened ChartBuckets
  import opened ChartRefinement
  import opened Wrappers

  /** With the bucket size still zero every point but the last is a closed bucket of its own. */
  function Singles(early: seq<DataPoint>): seq<DataPoint> {
    if |early| <= 1 then [] else
    Singles(early[..|early| - 1]) + [Average([early[|early| - 2]], 0).(complete := true)]
  }

  predicate AreEarly(st: int, early: seq<DataPoint>)
    requires early != []
  {
    var p := early[|early| - 1];
    Open(st, 0, early) == [p] && LastStart(st, 0, early) == p.timestamp && Lasting([], st, 0, early) == Singles(early)
  }

  lemma EarlySnoc(st: int, front: seq<DataPoint>, p: DataPoint)
    requires front != [] && AreEarly(st, front) && front[|front| - 1].timestamp < p.timestamp
    ensures AreEarly(st, front + [p])
  {
    var early := front + [p];
    assert early[..|early| - 1] == front && early[|early| - 2] == front[|front| - 1];
    OpenSnoc([], st, 0, front, p);
    LastingSnoc([], st, 0, front, p);
    LastStartSnoc(st, 0, front, p);
  }

  lemma OneIsEarly(p: DataPoint)
    ensures AreEarly(p.timestamp, [p])
  {
    LastingOne([], p.timestamp, 0, p);
  }

  lemma {:induction false} EarlyBuckets(early: seq<DataPoint>)
    requires early != [] && Increasing(early)
    ensures AreEarly(early[0].timestamp, early)
    decreases |early|
  {
    if |early| == 1 {
      assert early == [early[0]];
      OneIsEarly(early[0]);
    } else {
      OrderFront(early);
      EarlyBuckets(early[..|early| - 1]);
      EarlySnoc(early[0].timestamp, early[..|early| - 1], early[|early| - 1]);
    }
  }

  lemma {:induction false} SinglesAreEarly(early: seq<DataPoint>)
    requires early != [] && Increasing(early)
    ensures |Singles(early)| == |early| - 1
    ensures forall i :: 0 <= i < |early| - 1 ==> Singles(early)[i].timestamp == early[i].timestamp
    decreases |early|
  {
    if |early| == 1 {
    } else {
      SinglesAreEarly(early[..|early| - 1]);
    }
  }

  lemma IncreasingIsFresh(early: seq<DataPoint>)
    requires Increasing(early)
    ensures Fresh({}, None, early)
  {
    OrderIsFresh({}, None, early);
  }

  lemma EarlyRefines(limit: Option<nat>, early: seq<DataPoint>)
    requires early != [] && Increasing(early) && limit != Some(0)
    ensures Refines(Live(New(limit, 0), early), [], early[0].timestamp, 0, limit, early)
  {
    IncreasingIsFresh(early);
    LiveRefines([], 0, limit, early);
    assert LoadCompletedPoints(New(limit, 0), []) == New(limit, 0);
  }

  lemma EarlyMax(c: Chart, front: seq<DataPoint>, limit: Option<nat>, p: DataPoint)
    requires front != [] && Refines(c, [], front[0].timestamp, 0, limit, front)
    requires c.maxTs == front[|front| - 1].timestamp < p.timestamp
    ensures ProcessRawPoint(c, p).maxTs == p.timestamp
  {
    OpenEndsLast(front[0].timestamp, 0, front);
  }

  lemma FirstMax(limit: Option<nat>, p: DataPoint)
    requires p.timestamp >= MIN_SAFE_INTEGER
    ensures ProcessRawPoint(New(limit, 0), p).maxTs == p.timestamp
  {
    assert [] + [p] == [p];
  }

  lemma {:induction false} LiveMax(limit: Option<nat>, early: seq<DataPoint>)
    requires early != [] && Increasing(early) && InRange(early) && limit != Some(0)
    ensures Live(New(limit, 0), early).maxTs == early[|early| - 1].timestamp
    decreases |early|
  {
    var front, p := early[..|early| - 1], early[|early| - 1];
    if front == [] {
      assert Live(New(limit, 0), front) == New(limit, 0);
      FirstMax(limit, p);
    } else {
      LiveMax(limit, front);
      EarlyRefines(limit, front);
      EarlyMax(Live(New(limit, 0), front), front, limit, p);
    }
  }

  lemma {:induction false} RemoveAbsent(d: seq<DataPoint>, t: int)
    requires Absent(d, t)
    ensures Remove(d, t) == d
  {
    if d == [] {
    } else {
      RemoveAbsent(d[1..], t);
    }
  }

  lemma {:induction false} RemoveBetween(a: seq<DataPoint>, x: DataPoint, b: seq<DataPoint>)
    requires Absent(a, x.timestamp)
    ensures Remove(a + [x] + b, x.timestamp) == a + b
  {
    if a == [] {
      assert a + [x] + b == [x] + b && ([x] + b)[1..] == b;
    } else {
      RemoveBetween(a[1..], x, b);
      assert (a + [x] + b)[1..] == a[1..] + [x] + b && a + b == [a[0]] + (a[1..] + b);
    }
  }

  lemma RemoveMiddle(limit: Option<nat>, a: seq<DataPoint>, x: DataPoint, b: seq<DataPoint>)
    requires Absent(a, x.timestamp) && Absent(b, x.timestamp) && limit != Some(0)
    ensures Holds(limit, Remove(Newest(limit, a + [x] + b), x.timestamp), a + b)
  {
    var all := a + [x] + b;
    var d := Newest(limit, all);
    if |d| <= |b| {
      assert d == b[|b| - |d|..];
      RemoveAbsent(d, x.timestamp);
      assert d == (a + b)[|a + b| - |d|..];
    } else {
      var kept := a[|all| - |d|..];
      assert d == kept + [x] + b;
      RemoveBetween(kept, x, b);
      assert kept + b == (a + b)[|a + b| - |kept + b|..];
    }
  }

  predicate Disjoint(s: seq<DataPoint>, t: seq<DataPoint>) { forall i :: 0 <= i < |t| ==> Absent(s, t[i].timestamp) }

  /** The state once the late history is in: the last early point is in an open bucket counting from the latest time. */
  function LatestOf(early: seq<DataPoint>, history: seq<DataPoint>): int
    requires early != []
  {
    var e := early[|early| - 1].timestamp;
    if history == [] || history[|history| - 1].timestamp <= e then e else history[|history| - 1].timestamp
  }

  lemma LateLoaded(early: seq<DataPoint>, history: seq<DataPoint>, size: int, limit: Option<nat>)
    requires early != [] && Increasing(early) && Increasing(history) && InRange(early) && limit != Some(0)
    requires Disjoint(early, history)
    ensures var c := LoadCompletedPoints(Live(New(limit, 0), early).(size := size), history);
            var e := early[|early| - 1];
            && c.data == Newest(limit, Singles(early) + [Average([e], 0)] + Completed(history))
            && c.current == [e] && c.lastIncomplete == Some(e.timestamp) && c.start == Some(LatestOf(early, history))
            && c.size == size && c.limit == limit
  {
    var c, s := Live(New(limit, 0), early).(size := size), Singles(early) + [Average([early[|early| - 1]], 0)];
    LiveMax(limit, early);
    EarlyRefines(limit, early);
    EarlyBuckets(early);
    AbsentFromEarly(early, history);
    LoadingAppends(c, s, history);
    LoadingFrame(c, history);
    NewestIsEmpty(limit, s + Completed(history));
  }

  lemma AbsentFromEarly(early: seq<DataPoint>, history: seq<DataPoint>)
    requires early != [] && Increasing(early) && Disjoint(early, history)
    ensures forall i :: 0 <= i < |history| ==>
              Absent(Singles(early) + [Average([early[|early| - 1]], 0)], history[i].timestamp)
  {
    SinglesAreEarly(early);
  }

  lemma ReadyOn(c: Chart, a: seq<DataPoint>, x: DataPoint, b: seq<DataPoint>, e: DataPoint, st: int, size: int,
                limit: Option<nat>, p: DataPoint)
    requires Absent(a, e.timestamp) && Absent(b, e.timestamp) && x.timestamp == e.timestamp && limit != Some(0)
    requires c.data == Newest(limit, a + [x] + b) && c.current == [e] && c.lastIncomplete == Some(e.timestamp)
    requires c.start == Some(st) && c.size == size && c.limit == limit
    ensures ReadyFor(c, a + b, st, size, limit, [e], p) && Absent(a + b, e.timestamp)
    ensures Lasting(a + b, st, size, [e]) == a + b
  {
    LastingOne(a + b, st, size, e);
    RemoveMiddle(limit, a, x, b);
  }

  lemma LateAbsent(early: seq<DataPoint>, history: seq<DataPoint>)
    requires early != [] && Increasing(early) && Disjoint(early, history)
    ensures var t := early[|early| - 1].timestamp; Absent(Singles(early), t) && Absent(Completed(history), t)
  {
    SinglesAreEarly(early);
    CompletedIs(history);
  }

  lemma AverageTime(e: DataPoint)
    ensures Average([e], 0).timestamp == e.timestamp
  {}

  lemma LateReady(early: seq<DataPoint>, history: seq<DataPoint>, size: int, limit: Option<nat>, p: DataPoint)
    requires early != [] && Increasing(early) && Increasing(history) && InRange(early) && limit != Some(0)
    requires Disjoint(early, history)
    ensures var c := LoadCompletedPoints(Live(New(limit, 0), early).(size := size), history);
            var e, base, st := early[|early| - 1], Singles(early) + Completed(history), LatestOf(early, history);
            ReadyFor(c, base, st, size, limit, [e], p) && Absent(base, e.timestamp) && Lasting(base, st, size, [e]) == base
  {
    var e, c := early[|early| - 1], LoadCompletedPoints(Live(New(limit, 0), early).(size := size), history);
    LateLoaded(early, history, size, limit);
    LateAbsent(early, history);
    AverageTime(e);
    ReadyOn(c, Singles(early), Average([e], 0), Completed(history), e, LatestOf(early, history), size, limit, p);
  }

  lemma BaseIsFresh(early: seq<DataPoint>, history: seq<DataPoint>)
    requires early != [] && Increasing(early) && Increasing(history) && Disjoint(early, history)
    ensures IsFresh(Singles(early) + Completed(history), Times(early) + Times(history), early[|early| - 1].timestamp)
  {
    SinglesAreEarly(early);
    LateAbsent(early, history);
    TimesMembers(early);
    KnownCompleted(history);
  }

  /** The entries in the order of their insertion, what was overwritten left out. */
  function Entries(early: seq<DataPoint>, history: seq<DataPoint>, size: int, raw: seq<DataPoint>): seq<DataPoint>
    requires early != []
  {
    var e := early[|early| - 1];
    if raw == [] then Singles(early) + [Average([e], 0)] + Completed(history)
    else ShownOver(Singles(early) + Completed(history), LatestOf(early, history), size, [e] + raw)
  }

  /** The early points rise, the history rises, and every later point has a new time or the one just before it. */
  predicate Precede(early: seq<DataPoint>, history: seq<DataPoint>, raw: seq<DataPoint>) {
    && early != [] && Increasing(early) && Increasing(history) && InRange(early) && Disjoint(early, history)
    && Fresh(Times(early) + Times(history), LastTime(early), raw)
  }

  /** The provider after the early points, the bucket size, the history and the later points. */
  function Charted(early: seq<DataPoint>, history: seq<DataPoint>, size: int, limit: Option<nat>, raw: seq<DataPoint>): Chart {
    Live(LoadCompletedPoints(Live(New(limit, 0), early).(size := size), history), raw)
  }

  lemma FirstAfterLate(early: seq<DataPoint>, history: seq<DataPoint>, size: int, limit: Option<nat>, raw: seq<DataPoint>)
    requires Precede(early, history, raw) && raw != [] && limit != Some(0)
    ensures var c := LoadCompletedPoints(Live(New(limit, 0), early).(size := size), history);
            var e, base, st := early[|early| - 1], Singles(early) + Completed(history), LatestOf(early, history);
            OnBase(ProcessRawPoint(c, raw[0]), base, st, size, limit, [e] + [raw[0]],
                   Times(early) + Times(history) + {raw[0].timestamp})
  {
    var e, base, st := early[|early| - 1], Singles(early) + Completed(history), LatestOf(early, history);
    var c := LoadCompletedPoints(Live(New(limit, 0), early).(size := size), history);
    LateReady(early, history, size, limit, raw[0]);
    BaseIsFresh(early, history);
    FreshFirst(Times(early) + Times(history), LastTime(early), raw);
    FirstOn(c, base, st, size, limit, [e], Times(early) + Times(history), raw[0]);
  }

  predicate ChartedIs(early: seq<DataPoint>, history: seq<DataPoint>, size: int, limit: Option<nat>, raw: seq<DataPoint>,
                      entries: seq<DataPoint>) {
    Charted(early, history, size, limit, raw).data == Newest(limit, entries)
  }

  lemma NothingIsCharted(early: seq<DataPoint>, history: seq<DataPoint>, size: int, limit: Option<nat>, raw: seq<DataPoint>,
                         entries: seq<DataPoint>)
    requires limit == Some(0)
    ensures ChartedIs(early, history, size, limit, raw, entries)
  {
    var c := Live(New(limit, 0), early);
    NothingIsKept(New(limit, 0), early);
    NothingIsLoaded(c.(size := size), history);
    NothingIsKept(LoadCompletedPoints(c.(size := size), history), raw);
  }

  lemma LoadedOn(early: seq<DataPoint>, history: seq<DataPoint>, size: int, limit: Option<nat>, raw: seq<DataPoint>,
                 entries: seq<DataPoint>)
    requires Precede(early, history, raw) && raw == [] && limit != Some(0)
    requires entries == Entries(early, history, size, raw)
    ensures ChartedIs(early, history, size, limit, raw, entries)
  {
    LateLoaded(early, history, size, limit);
  }

  lemma EarlyOn(early: seq<DataPoint>, history: seq<DataPoint>, size: int, limit: Option<nat>, raw: seq<DataPoint>,
                entries: seq<DataPoint>)
    requires Precede(early, history, raw) && raw != [] && limit != Some(0)
    requires entries == Entries(early, history, size, raw)
    ensures ChartedIs(early, history, size, limit, raw, entries)
  {
    var e, base, st := early[|early| - 1], Singles(early) + Completed(history), LatestOf(early, history);
    var c := LoadCompletedPoints(Live(New(limit, 0), early).(size := size), history);
    FirstAfterLate(early, history, size, limit, raw);
    LiveOn(c, base, st, size, limit, [e], Times(early) + Times(history), LastTime(early), raw);
  }

  /**
   * The map is, in this order and for every limit: the early points but the last, each a bucket of its own, the
   * history, and the buckets of the last early point and all later ones. Before a later point the last early one
   * still stands in front of the history.
   */
  lemma EarlyChartIsShown(early: seq<DataPoint>, history: seq<DataPoint>, size: int, limit: Option<nat>,
                          raw: seq<DataPoint>)
    requires Precede(early, history, raw)
    ensures Charted(early, history, size, limit, raw).data == Newest(limit, Entries(early, history, size, raw))
  {
    var entries := Entries(early, history, size, raw);
    if limit == Some(0) {
      NothingIsCharted(early, history, size, limit, raw, entries);
    } else if raw == [] {
      LoadedOn(early, history, size, limit, raw, entries);
    } else {
      EarlyOn(early, history, size, limit, raw, entries);
    }
  }

  // ---- When the limit keeps the latest entries ----

  function Stamps(s: seq<DataPoint>): (r: seq<int>)
    ensures |r| == |s| && forall i :: 0 <= i < |s| ==> r[i] == s[i].timestamp
  {
    seq(|s|, i requires 0 <= i < |s| => s[i].timestamp)
  }

  /** All entries of d are later than all others. */
  predicate HoldsLatest(d: seq<DataPoint>, all: seq<DataPoint>) {
    forall x, y :: x in all && x !in d && y in d ==> x.timestamp < y.timestamp
  }

  predicate Rising(ts: seq<int>) { forall i, j :: 0 <= i < j < |ts| ==> ts[i] < ts[j] }
  predicate Below(ts: seq<int>, us: seq<int>) { forall i, j :: 0 <= i < |ts| && 0 <= j < |us| ==> ts[i] < us[j] }
  predicate Unlike(ts: seq<int>, us: seq<int>) { forall i, j :: 0 <= i < |ts| && 0 <= j < |us| ==> ts[i] != us[j] }
  predicate Differ(ts: seq<int>) { forall i, j :: 0 <= i < j < |ts| ==> ts[i] != ts[j] }

  /** Cut at n, everything before is earlier than everything after. */
  predicate CleanCut(ts: seq<int>, n: nat) { forall i, j :: 0 <= i < n <= j < |ts| ==> ts[i] < ts[j] }

  /** With distinct times the dropped entries are those before n, the held ones those from n on. */
  lemma Dropped(all: seq<DataPoint>, n: nat, i: nat)
    requires n <= |all| && i < |all| && Differ(Stamps(all))
    ensures all[i] in all[n..] <==> i >= n
  {
    var d, ts := all[n..], Stamps(all);
    if i >= n {
      assert d[i - n] == all[i];
    } else if k :| 0 <= k < |d| && d[k] == all[i] {
      assert ts[i] != ts[n + k];
    }
  }

  lemma HoldsLatestIff(all: seq<DataPoint>, n: nat)
    requires n <= |all| && Differ(Stamps(all))
    ensures HoldsLatest(all[n..], all) <==> CleanCut(Stamps(all), n)
  {
    var d, ts := all[n..], Stamps(all);
    forall i: nat | i < |all| ensures all[i] in d <==> i >= n {
      Dropped(all, n, i);
    }
    if CleanCut(ts, n) {
      CleanHolds(all, n);
    } else {
      var i, j :| 0 <= i < n <= j < |ts| && ts[i] >= ts[j];
      assert all[i] in all && all[i] !in d && all[j] in d;
    }
  }

  lemma CleanHolds(all: seq<DataPoint>, n: nat)
    requires n <= |all| && CleanCut(Stamps(all), n) && forall i: nat :: i < |all| ==> (all[i] in all[n..] <==> i >= n)
    ensures HoldsLatest(all[n..], all)
  {
    var d, ts := all[n..], Stamps(all);
    forall x, y | x in all && x !in d && y in d ensures x.timestamp < y.timestamp {
      var i :| 0 <= i < |all| && all[i] == x;
      var j :| 0 <= j < |d| && d[j] == y;
      assert ts[i] < ts[n + j];
    }
  }

  /** Early times, history times, perhaps one early time more, and later times. */
  predicate AreParts(a: seq<int>, b: seq<int>, mid: seq<int>, rest: seq<int>) {
    && Rising(a) && Rising(b) && Unlike(a, b) && |mid| <= 1 && Below(a, mid) && Unlike(b, mid)
    && Rising(rest) && Below(a, rest) && Below(b, rest) && Below(mid, rest)
  }

  /** The n oldest insertions are earlier than the others, read off the times: early first, then the history. */
  predicate NoneOvertaken(a: seq<int>, b: seq<int>, mid: seq<int>, n: int) {
    && (0 < n <= |a| && b != [] ==> a[n - 1] < b[0])
    && (|a| < n < |a| + |b| && a != [] ==> a[|a| - 1] < b[n - |a|])
    && (|a| < n <= |a| + |b| && mid != [] ==> b[n - |a| - 1] < mid[0])
  }

  lemma PartsDiffer(a: seq<int>, b: seq<int>, mid: seq<int>, rest: seq<int>)
    requires AreParts(a, b, mid, rest)
    ensures Differ(a + b + mid + rest)
  {}

  lemma CleanCutIff(a: seq<int>, b: seq<int>, mid: seq<int>, rest: seq<int>, n: nat)
    requires AreParts(a, b, mid, rest) && n <= |a + b + mid + rest|
    ensures CleanCut(a + b + mid + rest, n) <==> NoneOvertaken(a, b, mid, n)
  {
    var all := a + b + mid + rest;
    if CleanCut(all, n) {
      CutIsClean(a, b, mid, rest, n);
    } else {
      var i, j :| 0 <= i < n <= j < |all| && all[i] >= all[j];
      SomeOvertaken(a, b, mid, rest, n, i, j);
    }
  }

  lemma CutIsClean(a: seq<int>, b: seq<int>, mid: seq<int>, rest: seq<int>, n: nat)
    requires AreParts(a, b, mid, rest) && n <= |a + b + mid + rest| && CleanCut(a + b + mid + rest, n)
    ensures NoneOvertaken(a, b, mid, n)
  {
    var all := a + b + mid + rest;
    if 0 < n <= |a| && b != [] {
      assert all[n - 1] == a[n - 1] && all[|a|] == b[0];
    }
    if |a| < n < |a| + |b| && a != [] {
      assert all[|a| - 1] == a[|a| - 1] && all[n] == b[n - |a|];
    }
    if |a| < n <= |a| + |b| && mid != [] {
      assert all[n - 1] == b[n - |a| - 1] && all[|a| + |b|] == mid[0];
    }
  }

  lemma SomeOvertaken(a: seq<int>, b: seq<int>, mid: seq<int>, rest: seq<int>, n: nat, i: nat, j: nat)
    requires AreParts(a, b, mid, rest) && i < n <= j < |a + b + mid + rest|
    requires (a + b + mid + rest)[i] >= (a + b + mid + rest)[j]
    ensures !NoneOvertaken(a, b, mid, n)
  {}

  // ---- The times of the entries ----

  lemma StampsJoin(s: seq<DataPoint>, r: seq<DataPoint>)
    ensures Stamps(s + r) == Stamps(s) + Stamps(r)
  {}

  lemma StampsAppend(s: seq<DataPoint>, x: DataPoint)
    ensures Stamps(s + [x]) == Stamps(s) + [x.timestamp]
  {}

  lemma StampsOver(kept: seq<DataPoint>, done: DataPoint, t: int)
    ensures Stamps(Over(kept + [done], t)) == Stamps(kept) + if done.timestamp == t then [] else [done.timestamp]
  {
    assert (kept + [done])[..|kept|] == kept;
  }

  lemma ShownStamps(base: seq<DataPoint>, st: int, size: int, stream: seq<DataPoint>)
    requires stream != []
    ensures Stamps(ShownOver(base, st, size, stream))
            == Stamps(Lasting(base, st, size, stream)) + [stream[|stream| - 1].timestamp]
  {
    OpenEndsLast(st, size, stream);
    StampsAppend(Lasting(base, st, size, stream), Average(Open(st, size, stream), size));
  }

  lemma LastingStamps(base: seq<DataPoint>, st: int, size: int, stream: seq<DataPoint>, p: DataPoint)
    requires stream != []
    ensures var kept, last := Lasting(base, st, size, stream), stream[|stream| - 1].timestamp;
            Stamps(Lasting(base, st, size, stream + [p]))
            == Stamps(kept) + if Starts(st, size, stream, p) && last != p.timestamp then [last] else []
  {
    LastingSnoc(base, st, size, stream, p);
    OpenEndsLast(st, size, stream);
    StampsOver(Lasting(base, st, size, stream), DoneOf(st, size, stream), p.timestamp);
  }

  /** One more point takes the place of the last entry's time, or comes after it. */
  lemma StampsSnoc(base: seq<DataPoint>, st: int, size: int, stream: seq<DataPoint>, p: DataPoint)
    requires stream != []
    ensures var before, after := ShownOver(base, st, size, stream), ShownOver(base, st, size, stream + [p]);
            Stamps(after) == (if Starts(st, size, stream, p) && stream[|stream| - 1].timestamp != p.timestamp
                              then Stamps(before) else Stamps(Lasting(base, st, size, stream))) + [p.timestamp]
  {
    ShownStamps(base, st, size, stream);
    ShownStamps(base, st, size, stream + [p]);
    LastingStamps(base, st, size, stream, p);
  }

  /** Later times after `start`, which end with the last point's. */
  predicate IsTail(start: seq<int>, stamps: seq<int>, tail: seq<int>, after: int, last: int) {
    stamps == start + tail && tail != [] && Rising(tail) && tail[0] > after && tail[|tail| - 1] == last
  }

  lemma TailSnoc(start: seq<int>, stamps: seq<int>, tail: seq<int>, after: int, last: int, t: int, appended: bool)
      returns (tail': seq<int>)
    requires IsTail(start, stamps, tail, after, last) && last <= t && (appended ==> last != t)
    ensures IsTail(start, (if appended then stamps else stamps[..|stamps| - 1]) + [t], tail', after, t)
  {
    if appended {
      tail' := tail + [t];
      assert start + tail + [t] == start + tail';
    } else {
      tail' := tail[..|tail| - 1] + [t];
      assert stamps[..|stamps| - 1] == start + tail[..|tail| - 1];
      assert start + tail[..|tail| - 1] + [t] == start + tail';
    }
  }

  lemma FirstTail(base: seq<DataPoint>, st: int, size: int, e: DataPoint, p: DataPoint, after: int)
    requires Absent(base, e.timestamp) && e.timestamp <= after < p.timestamp
    ensures var start := Stamps(base) + if p.timestamp >= st + size then [e.timestamp] else [];
            IsTail(start, Stamps(ShownOver(base, st, size, [e] + [p])), [p.timestamp], after, p.timestamp)
  {
    LastingOne(base, st, size, e);
    StampsSnoc(base, st, size, [e], p);
    StampsAppend(base, Average([e], size));
    assert Stamps(base) + [] == Stamps(base);
  }

  lemma {:induction false} LaterTail(base: seq<DataPoint>, st: int, size: int, e: DataPoint, raw: seq<DataPoint>, after: int)
      returns (tail: seq<int>)
    requires raw != [] && InOrder(raw) && Absent(base, e.timestamp) && e.timestamp <= after < raw[0].timestamp
    ensures var start := Stamps(base) + if raw[0].timestamp >= st + size then [e.timestamp] else [];
            IsTail(start, Stamps(ShownOver(base, st, size, [e] + raw)), tail, after, raw[|raw| - 1].timestamp)
    decreases |raw|
  {
    if |raw| == 1 {
      assert raw == [raw[0]];
      FirstTail(base, st, size, e, raw[0], after);
      tail := [raw[0].timestamp];
    } else {
      var front, p := raw[..|raw| - 1], raw[|raw| - 1];
      OrderFront(raw);
      var sofar := LaterTail(base, st, size, e, front, after);
      tail := OneMoreLater(base, st, size, e, front, p, raw[0].timestamp >= st + size, sofar, after);
      assert [e] + raw == [e] + front + [p];
    }
  }

  lemma OneMoreLater(base: seq<DataPoint>, st: int, size: int, e: DataPoint, front: seq<DataPoint>, p: DataPoint,
                     alone: bool, sofar: seq<int>, after: int) returns (tail: seq<int>)
    requires front != [] && front[|front| - 1].timestamp <= p.timestamp
    requires IsTail(Stamps(base) + (if alone then [e.timestamp] else []), Stamps(ShownOver(base, st, size, [e] + front)),
                    sofar, after, front[|front| - 1].timestamp)
    ensures IsTail(Stamps(base) + (if alone then [e.timestamp] else []),
                   Stamps(ShownOver(base, st, size, [e] + front + [p])), tail, after, p.timestamp)
  {
    var stream, start := [e] + front, Stamps(base) + if alone then [e.timestamp] else [];
    var kept, stamps := Lasting(base, st, size, stream), Stamps(ShownOver(base, st, size, stream));
    StampsSnoc(base, st, size, stream, p);
    StampsAppend(kept, Average(Open(st, size, stream), size));
    assert stamps[..|stamps| - 1] == Stamps(kept);
    tail := TailSnoc(start, stamps, sofar, after, front[|front| - 1].timestamp, p.timestamp,
                     Starts(st, size, stream, p) && stream[|stream| - 1].timestamp != p.timestamp);
  }

  // ---- The condition ----

  /** Later points in order, after all that came before them. */
  predicate ThenInOrder(early: seq<DataPoint>, history: seq<DataPoint>, raw: seq<DataPoint>) {
    && early != [] && Increasing(early) && Increasing(history) && InRange(early) && Disjoint(early, history)
    && InOrder(raw) && (raw != [] ==> LatestOf(early, history) < raw[0].timestamp)
  }

  lemma OrderPrecedes(early: seq<DataPoint>, history: seq<DataPoint>, raw: seq<DataPoint>)
    requires ThenInOrder(early, history, raw)
    ensures Precede(early, history, raw)
  {
    TimesMembers(early);
    TimesMembers(history);
    OrderIsFresh(Times(early) + Times(history), LastTime(early), raw);
  }

  /** The early times that stand before the history in the map. */
  function Before(early: seq<DataPoint>, raw: seq<DataPoint>): seq<int>
    requires early != []
  {
    Stamps(if raw == [] then early else early[..|early| - 1])
  }

  /** The last early point alone fills a bucket if the first later point does not join it: its entry keeps its own time. */
  function Between(early: seq<DataPoint>, history: seq<DataPoint>, size: int, raw: seq<DataPoint>): seq<int>
    requires early != []
  {
    if raw != [] && raw[0].timestamp >= LatestOf(early, history) + size then [early[|early| - 1].timestamp] else []
  }

  lemma SingleStamps(early: seq<DataPoint>)
    requires early != [] && Increasing(early)
    ensures Stamps(Singles(early)) == Stamps(early[..|early| - 1])
  {
    SinglesAreEarly(early);
  }

  lemma CompletedStamps(history: seq<DataPoint>)
    ensures Stamps(Completed(history)) == Stamps(history)
  {
    CompletedIs(history);
  }

  lemma BaseStamps(early: seq<DataPoint>, history: seq<DataPoint>)
    requires early != [] && Increasing(early)
    ensures Stamps(Singles(early) + Completed(history)) == Stamps(early[..|early| - 1]) + Stamps(history)
  {
    SingleStamps(early);
    CompletedStamps(history);
    StampsJoin(Singles(early), Completed(history));
  }

  lemma StampsInsert(s: seq<DataPoint>, x: DataPoint, r: seq<DataPoint>)
    ensures Stamps(s + [x] + r) == Stamps(s) + [x.timestamp] + Stamps(r)
  {}

  lemma StampsLast(early: seq<DataPoint>)
    requires early != []
    ensures Stamps(early) == Stamps(early[..|early| - 1]) + [early[|early| - 1].timestamp]
  {}

  lemma LoadedStamps(early: seq<DataPoint>, history: seq<DataPoint>, size: int)
    requires early != [] && Increasing(early)
    ensures Stamps(Entries(early, history, size, [])) == Stamps(early) + Stamps(history)
  {
    var x := Average([early[|early| - 1]], 0);
    AverageTime(early[|early| - 1]);
    SingleStamps(early);
    CompletedStamps(history);
    StampsInsert(Singles(early), x, Completed(history));
    StampsLast(early);
  }

  lemma InputParts(early: seq<DataPoint>, history: seq<DataPoint>)
    requires early != [] && Increasing(early) && Increasing(history) && Disjoint(early, history)
    ensures var a, b, e := Stamps(early[..|early| - 1]), Stamps(history), early[|early| - 1].timestamp;
            && Rising(Stamps(early)) && Rising(a) && Rising(b) && Unlike(Stamps(early), b) && Unlike(a, b)
            && Below(a, [e]) && Unlike(b, [e])
            && forall t :: t > LatestOf(early, history) ==> Below(a, [t]) && Below(b, [t]) && e < t
  {
    forall i, j | 0 <= i < |early| && 0 <= j < |history| ensures early[i].timestamp != history[j].timestamp {
      assert Absent(early, history[j].timestamp);
    }
  }

  lemma BelowTail(a: seq<int>, tail: seq<int>)
    requires tail != [] && Rising(tail) && Below(a, [tail[0]])
    ensures Below(a, tail)
  {
    forall i, j | 0 <= i < |a| && 0 <= j < |tail| ensures a[i] < tail[j] {
      assert a[i] < [tail[0]][0];
    }
  }

  lemma LaterParts(a: seq<int>, b: seq<int>, mid: seq<int>, rest: seq<int>, e: int, latest: int)
    requires Rising(a) && Rising(b) && Unlike(a, b) && Below(a, [e]) && Unlike(b, [e]) && (mid == [] || mid == [e])
    requires forall t :: t > latest ==> Below(a, [t]) && Below(b, [t]) && e < t
    requires rest != [] && Rising(rest) && rest[0] > latest
    ensures AreParts(a, b, mid, rest)
  {
    BelowTail(a, rest);
    BelowTail(b, rest);
    BelowTail([e], rest);
  }

  lemma LaterStamps(early: seq<DataPoint>, history: seq<DataPoint>, size: int, raw: seq<DataPoint>) returns (rest: seq<int>)
    requires ThenInOrder(early, history, raw) && raw != []
    ensures Stamps(Entries(early, history, size, raw))
            == Stamps(early[..|early| - 1]) + Stamps(history) + Between(early, history, size, raw) + rest
    ensures rest != [] && Rising(rest) && rest[0] > LatestOf(early, history)
  {
    var st := LatestOf(early, history);
    BaseStamps(early, history);
    LateAbsent(early, history);
    rest := LaterTail(Singles(early) + Completed(history), st, size, early[|early| - 1], raw, st);
  }

  /** The times of all entries, part by part. */
  lemma EntryStamps(early: seq<DataPoint>, history: seq<DataPoint>, size: int, raw: seq<DataPoint>) returns (rest: seq<int>)
    requires ThenInOrder(early, history, raw)
    ensures var a, b, mid := Before(early, raw), Stamps(history), Between(early, history, size, raw);
            Stamps(Entries(early, history, size, raw)) == a + b + mid + rest && AreParts(a, b, mid, rest)
  {
    InputParts(early, history);
    if raw == [] {
      LoadedStamps(early, history, size);
      rest := [];
      assert Stamps(early) + Stamps(history) + [] + [] == Stamps(early) + Stamps(history);
    } else {
      rest := LaterStamps(early, history, size, raw);
      LaterParts(Stamps(early[..|early| - 1]), Stamps(history), Between(early, history, size, raw), rest,
                 early[|early| - 1].timestamp, LatestOf(early, history));
    }
  }

  lemma NewestIsSuffix<T>(limit: Option<nat>, s: seq<T>)
    ensures |Newest(limit, s)| <= |s| && Newest(limit, s) == s[|s| - |Newest(limit, s)|..]
    ensures |Newest(limit, s)| == if limit.Some? && limit.value < |s| then limit.value else |s|
  {}

  lemma NewestHoldsIff(all: seq<DataPoint>, limit: Option<nat>)
    requires Differ(Stamps(all))
    ensures |Newest(limit, all)| <= |all|
    ensures HoldsLatest(Newest(limit, all), all) <==> CleanCut(Stamps(all), |all| - |Newest(limit, all)|)
  {
    NewestIsSuffix(limit, all);
    HoldsLatestIff(all, |all| - |Newest(limit, all)|);
  }

  lemma HeldIff(all: seq<DataPoint>, limit: Option<nat>, a: seq<int>, b: seq<int>, mid: seq<int>, rest: seq<int>)
    requires Stamps(all) == a + b + mid + rest && AreParts(a, b, mid, rest)
    ensures var d := Newest(limit, all); HoldsLatest(d, all) <==> NoneOvertaken(a, b, mid, |all| - |d|)
  {
    PartsDiffer(a, b, mid, rest);
    NewestHoldsIff(all, limit);
    CleanCutIff(a, b, mid, rest, |all| - |Newest(limit, all)|);
  }

  /**
   * When live points came before the history, the map holds the latest entries if and only if the insertions that the
   * limit dropped are earlier than those it kept, which the input times tell: a dropped early point must come before
   * the history that is left, and dropped history before the last early point where that fills a bucket of its own.
   */
  lemma LatestAreHeldIff(early: seq<DataPoint>, history: seq<DataPoint>, size: int, limit: Option<nat>, raw: seq<DataPoint>)
    requires ThenInOrder(early, history, raw)
    ensures var d, all := Charted(early, history, size, limit, raw).data, Entries(early, history, size, raw);
            HoldsLatest(d, all)
            <==> NoneOvertaken(Before(early, raw), Stamps(history), Between(early, history, size, raw), |all| - |d|)
  {
    var d, all := Charted(early, history, size, limit, raw).data, Entries(early, history, size, raw);
    OrderPrecedes(early, history, raw);
    EarlyChartIsShown(early, history, size, limit, raw);
    var rest := EntryStamps(early, history, size, raw);
    HeldIff(all, limit, Before(early, raw), Stamps(history), Between(early, history, size, raw), rest);
  }

  lemma JoinIncreases(a: seq<DataPoint>, b: seq<DataPoint>)
    requires Increasing(a + b)
    ensures Increasing(a) && Increasing(b) && Disjoint(b, a)
    ensures forall i, j :: 0 <= i < |a| && 0 <= j < |b| ==> a[i].timestamp < b[j].timestamp
  {
    var all := a + b;
    assert forall i :: 0 <= i < |a| ==> all[i] == a[i];
    assert forall i :: 0 <= i < |b| ==> all[|a| + i] == b[i];
  }

  lemma OvertakenBySortedHistory(a: seq<int>, b: seq<int>, mid: seq<int>, n: int)
    requires b != [] && Below(b, a) && Below(b, mid)
    ensures NoneOvertaken(a, b, mid, n) <==> a == [] || n <= 0 || n >= |a| + |b|
  {}

  lemma BaseLength(early: seq<DataPoint>, history: seq<DataPoint>)
    requires early != [] && Increasing(early)
    ensures |Singles(early) + Completed(history)| == |early| - 1 + |history|
  {
    SinglesAreEarly(early);
    CompletedIs(history);
  }

  lemma SortedParts(early: seq<DataPoint>, history: seq<DataPoint>, size: int, raw: seq<DataPoint>)
    requires early != [] && raw != [] && history != [] && Increasing(history + early)
    ensures var a, b, mid := Before(early, raw), Stamps(history), Between(early, history, size, raw);
            b != [] && Below(b, a) && Below(b, mid) && |a| == |early| - 1 && |b| == |history|
  {
    JoinIncreases(history, early);
    var b := Stamps(history);
    forall i, j | 0 <= i < |b| && 0 <= j < |early| ensures b[i] < early[j].timestamp {
      assert history[i].timestamp < early[j].timestamp;
    }
  }

  /**
   * In the usual case the early points are later than all of the history. Then the limit drops them first: the map holds
   * the latest entries if and only if there was a single early point, or nothing is dropped, or all that came before the
   * later buckets is.
   */
  lemma SortedHistoryOvertakes(early: seq<DataPoint>, history: seq<DataPoint>, size: int, limit: Option<nat>,
                               raw: seq<DataPoint>)
    requires ThenInOrder(early, history, raw) && raw != [] && history != [] && Increasing(history + early)
    ensures var d, all := Charted(early, history, size, limit, raw).data, Entries(early, history, size, raw);
            HoldsLatest(d, all)
            <==> |early| == 1 || limit.None? || limit.value >= |all|
                 || limit.value <= |all| - |Singles(early) + Completed(history)|
  {
    var d, all := Charted(early, history, size, limit, raw).data, Entries(early, history, size, raw);
    var a, b, mid := Before(early, raw), Stamps(history), Between(early, history, size, raw);
    LatestAreHeldIff(early, history, size, limit, raw);
    OrderPrecedes(early, history, raw);
    EarlyChartIsShown(early, history, size, limit, raw);
    NewestIsSuffix(limit, all);
    SortedParts(early, history, size, raw);
    JoinIncreases(history, early);
    BaseLength(early, history);
    OvertakenBySortedHistory(a, b, mid, |all| - |d|);
  }

  lemma JoinedEntries(base: seq<DataPoint>, e: DataPoint, p: DataPoint)
    requires Absent(base, e.timestamp) && e.timestamp < p.timestamp < e.timestamp + 1000
    ensures ShownOver(base, e.timestamp, 1000, [e] + [p]) == base + [Average([e] + [p], 1000)]
  {
    LastingOne(base, e.timestamp, 1000, e);
    LastingSnoc(base, e.timestamp, 1000, [e], p);
    OpenSnoc(base, e.timestamp, 1000, [e], p);
  }

  lemma DroppedEntries(e0: DataPoint, e1: DataPoint, h: DataPoint, p: DataPoint)
    requires h.timestamp < e0.timestamp < e1.timestamp < p.timestamp < e1.timestamp + 1000
    ensures Entries([e0, e1], [h], 1000, [p])
            == [Average([e0], 0).(complete := true), h.(complete := true)] + [Average([e1, p], 1000)]
  {
    var early, base := [e0, e1], [Average([e0], 0).(complete := true), h.(complete := true)];
    assert early[..1] == [e0] && Singles([e0]) == [] && [h][..0] == [] && Completed([]) == [];
    assert Singles(early) == [Average([e0], 0).(complete := true)] && Completed([h]) == [h.(complete := true)];
    assert Singles(early) + Completed([h]) == base;
    assert [e1] + [p] == [e1, p];
    JoinedEntries(base, e1, p);
  }

  /** Two early points, one of history and a limit of two: the newer early point is gone, the history is still there. */
  lemma NewerPointIsDropped(e0: DataPoint, e1: DataPoint, h: DataPoint, p: DataPoint)
    requires MIN_SAFE_INTEGER <= h.timestamp < e0.timestamp < e1.timestamp < p.timestamp < e1.timestamp + 1000
    ensures Charted([e0, e1], [h], 1000, Some(2), [p]).data == [h.(complete := true), Average([e1, p], 1000)]
  {
    DroppedPrecede(e0, e1, h, p);
    EarlyChartIsShown([e0, e1], [h], 1000, Some(2), [p]);
    DroppedEntries(e0, e1, h, p);
  }

  lemma DroppedPrecede(e0: DataPoint, e1: DataPoint, h: DataPoint, p: DataPoint)
    requires MIN_SAFE_INTEGER <= h.timestamp < e0.timestamp < e1.timestamp < p.timestamp
    ensures Precede([e0, e1], [h], [p])
  {
    OrderPrecedes([e0, e1], [h], [p]);
  }
}
