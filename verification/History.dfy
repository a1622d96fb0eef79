/** The history endpoints: the bucket size for a period, the series of buckets, and what the points add up to. */
module History {
  import opened FlowQueries
  import opened PacketBuffer
  import opened SqlSums

  const STEPS := [1, 2, 3, 5, 6, 8, 10, 15, 20, 30, 40, 60, 100, 200, 300, 400, 600, 1800, 3600]
  const TARGET_POINTS := 1000

  function RawBucket(period: int, target: int): (raw: int)
    requires target > 0
    ensures raw >= 1
  {
    if period / target < 1 then 1 else period / target
  }

  function FirstStep(raw: int, i: nat): (step: int)
    requires i <= |STEPS|
    ensures step >= 1
    decreases |STEPS| - i
  {
    if i == |STEPS| then (if raw / 3600 * 3600 < 3600 then 3600 else raw / 3600 * 3600)
    else if raw <= STEPS[i] then STEPS[i]
    else FirstStep(raw, i + 1)
  }

  function OptimalBucket(period: int): int { FirstStep(RawBucket(period, TARGET_POINTS), 0) }

  method CalculateOptimalBucket(periodSec: int, targetPoints: int := TARGET_POINTS) returns (bucket: int)
    requires targetPoints > 0
    ensures bucket == FirstStep(RawBucket(periodSec, targetPoints), 0)
  {
    var rawBucket := if periodSec / targetPoints < 1 then 1 else periodSec / targetPoints;
    for i := 0 to |STEPS|
      invariant FirstStep(rawBucket, i) == FirstStep(rawBucket, 0)
    {
      if rawBucket <= STEPS[i] { return STEPS[i]; }
    }
    return if rawBucket / 3600 * 3600 < 3600 then 3600 else rawBucket / 3600 * 3600;
  }

  lemma StepsIncrease()
    ensures forall i, j :: 0 <= i < j < |STEPS| ==> STEPS[i] < STEPS[j]
  {}

  lemma {:induction false} FirstStepIsSmallest(raw: int, i: nat)
    requires 1 <= raw <= 3600 && i < |STEPS|
    ensures var s := FirstStep(raw, i);
            raw <= s && s in STEPS[i..] && forall j :: i <= j < |STEPS| && raw <= STEPS[j] ==> s <= STEPS[j]
    decreases |STEPS| - i
  {
    StepsIncrease();
    if raw > STEPS[i] {
      assert STEPS[18] == 3600;
      FirstStepIsSmallest(raw, i + 1);
    }
  }

  /** The "nice" bucket sizes, in seconds. */
  predicate IsStep(s: int) {
    || s in {1, 2, 3, 5, 6, 8, 10, 15, 20, 30, 40} || s in {60, 100, 200, 300, 400, 600, 1800, 3600}
  }

  lemma StepsAreNice(s: int)
    ensures s in STEPS <==> IsStep(s)
  {}

  /** The bucket is the smallest step not below the raw size, or the hours that fit in it once no step is left. */
  lemma BucketMeaning(raw: int)
    requires raw >= 1
    ensures var s := FirstStep(raw, 0);
            && (raw <= 3600 ==> raw <= s && IsStep(s) && forall step :: IsStep(step) && raw <= step ==> s <= step)
            && (raw > 3600 ==> s % 3600 == 0 && s <= raw < s + 3600)
  {
    if raw <= 3600 {
      FirstStepIsSmallest(raw, 0);
      assert STEPS[0..] == STEPS;
      forall step ensures step in STEPS <==> IsStep(step) {
        StepsAreNice(step);
      }
    } else {
      NoStepLeft(raw, 0);
    }
  }

  lemma {:induction false} NoStepLeft(raw: int, i: nat)
    requires raw > 3600 && i <= |STEPS|
    ensures FirstStep(raw, i) == raw / 3600 * 3600
    decreases |STEPS| - i
  {
    if i < |STEPS| {
      StepsIncrease();
      assert STEPS[18] == 3600;
      assert i < 18 ==> STEPS[i] < STEPS[18];
      NoStepLeft(raw, i + 1);
    }
  }

  /** Snapping never more than triples the raw size, nearly. */
  lemma {:induction false} SnapIsClose(raw: int, i: nat)
    requires 1 <= raw <= 3600 && i < |STEPS| && (i > 0 ==> raw > STEPS[i - 1])
    ensures 333 * FirstStep(raw, i) <= 1000 * raw
    decreases |STEPS| - i
  {
    if raw > STEPS[i] {
      assert STEPS[18] == 3600;
      SnapIsClose(raw, i + 1);
    } else {
      assert i > 0 ==> 333 * STEPS[i] <= 1000 * (STEPS[i - 1] + 1);
    }
  }

  lemma Scale(a: int, b: int, c: int)
    requires c > 0
    ensures a <= b ==> a * c <= b * c
  {}

  lemma DivideBounds(a: int, b: int, n: int)
    requires b > 0
    ensures a < n * b <==> a / b < n
  {
    Scale(n, a / b, b);
    Scale(a / b + 1, n, b);
    assert a == a / b * b + a % b;
  }

  // ---- The series of buckets; instants are in microseconds ----

  const MICROS := 1_000_000

  function GenerateSeries(start: int, end: int, step: int): seq<int>
    requires step > 0
    decreases end - start
  {
    if start > end then [] else [start] + GenerateSeries(start + step, end, step)
  }

  /** The bucket starts of a request: both ends of the period are included. */
  function Buckets(start: int, period: int): seq<int> {
    GenerateSeries(start, start + period * MICROS, OptimalBucket(period) * MICROS)
  }

  lemma {:induction false} SeriesShape(start: int, end: int, step: int)
    requires step > 0 && start <= end
    ensures var s := GenerateSeries(start, end, step);
            |s| == (end - start) / step + 1 && forall k :: 0 <= k < |s| ==> s[k] == start + k * step
    decreases end - start
  {
    var s := GenerateSeries(start, end, step);
    if start + step <= end {
      var rest := GenerateSeries(start + step, end, step);
      SeriesShape(start + step, end, step);
      DivideStep(end - start, step);
      forall k | 0 <= k < |s| ensures s[k] == start + k * step {
        ShiftedTerm(start, step, k);
        assert k > 0 ==> s[k] == rest[k - 1];
      }
    } else {
      assert GenerateSeries(start + step, end, step) == [];
      DivideBounds(end - start, step, 1);
      DivideBounds(end - start, step, 0);
    }
  }

  lemma ShiftedTerm(start: int, step: int, k: int)
    ensures start + step + (k - 1) * step == start + k * step
  {}

  lemma DivideStep(a: int, b: int)
    requires b > 0
    ensures a / b == (a - b) / b + 1
  {
    var q, r := (a - b) / b, (a - b) % b;
    assert a == (q + 1) * b + r;
    QuotientIsUnique(a, b, q + 1, r);
  }

  /** Seconds or microseconds, the count is the same. */
  lemma DivideScaled(a: int, b: int, c: int)
    requires b > 0 && c > 0
    ensures b * c > 0 && a * c / (b * c) == a / b
  {
    var q, r := a / b, a % b;
    assert a * c == q * (b * c) + r * c;
    Scale(r + 1, b, c);
    assert 0 <= r * c < b * c;
    QuotientIsUnique(a * c, b * c, q, r * c);
  }

  lemma QuotientIsUnique(a: int, b: int, q: int, r: int)
    requires b > 0 && a == q * b + r && 0 <= r < b
    ensures a / b == q
  {
    DivideBounds(a, b, q);
    DivideBounds(a, b, q + 1);
  }

  /** A chart never gets more than 2000 points, and at least 334 once the period reaches 1000 seconds. */
  lemma PointsAreBounded(start: int, period: int)
    requires period >= 1
    ensures |Buckets(start, period)| <= 2000 && (period >= 1000 ==> |Buckets(start, period)| >= 334)
  {
    var raw := RawBucket(period, TARGET_POINTS);
    var s := FirstStep(raw, 0);
    BucketsShape(start, period);
    BucketMeaning(raw);
    assert period < 1000 * (raw + 1) && (period >= 1000 ==> period >= 1000 * raw);
    assert raw + 1 <= 2 * s;
    DivideBounds(period, s, 2000);
    if period >= 1000 {
      if raw <= 3600 {
        SnapIsClose(raw, 0);
      }
      DivideBounds(period, s, 333);
    }
  }

  lemma BucketsShape(start: int, period: int)
    requires period >= 0
    ensures var s := Buckets(start, period);
            && |s| == period / OptimalBucket(period) + 1
            && forall k :: 0 <= k < |s| ==> s[k] == start + k * (OptimalBucket(period) * MICROS)
  {
    SeriesShape(start, start + period * MICROS, OptimalBucket(period) * MICROS);
    DivideScaled(period, OptimalBucket(period), MICROS);
  }

  /** One-second buckets are for the periods below 2000 seconds, about a thousand points from 1000 seconds on. */
  lemma FinestBucketIff(period: int)
    ensures OptimalBucket(period) == 1 <==> period < 2000
  {
    BucketMeaning(RawBucket(period, TARGET_POINTS));
  }

  /** A longer period never gets finer buckets. */
  lemma BucketIsMonotone(a: int, b: int)
    requires a <= b
    ensures OptimalBucket(a) <= OptimalBucket(b)
  {
    var x, y := RawBucket(a, TARGET_POINTS), RawBucket(b, TARGET_POINTS);
    assert x <= y;
    BucketMeaning(x);
    BucketMeaning(y);
    assert STEPS[18] == 3600;
    forall s | s in STEPS ensures s <= 3600 {
      var i :| 0 <= i < |STEPS| && STEPS[i] == s;
      StepsIncrease();
      assert i < 18 ==> STEPS[i] < STEPS[18];
    }
  }

  predicate InBucket(t: int, bucket: int, step: int) { bucket <= t < bucket + step }

  /** Up to the end of the last bucket every instant lies in exactly one of them; that is beyond the period's end. */
  lemma BucketsTile(start: int, period: int, t: int)
    requires period >= 0
    ensures var s, step := Buckets(start, period), OptimalBucket(period) * MICROS;
            && start + period * MICROS < start + |s| * step
            && (start <= t < start + |s| * step <==> exists k :: 0 <= k < |s| && InBucket(t, s[k], step))
            && forall i, j :: 0 <= i < |s| && 0 <= j < |s| && InBucket(t, s[i], step) && InBucket(t, s[j], step) ==> i == j
  {
    var s, step := Buckets(start, period), OptimalBucket(period) * MICROS;
    BucketsShape(start, period);
    forall k | 0 <= k < |s| ensures InBucket(t, s[k], step) <==> (t - start) / step == k {
      DivideBounds(t - start, step, k);
      DivideBounds(t - start, step, k + 1);
      assert (k + 1) * step == k * step + step;
    }
    DivideBounds(t - start, step, |s|);
    DivideBounds(t - start, step, 0);
    DivideScaled(period, OptimalBucket(period), MICROS);
    DivideBounds(period * MICROS, step, |s|);
    if start <= t < start + |s| * step {
      assert InBucket(t, s[(t - start) / step], step);
    }
  }

  // ---- What the points add up to ----

  datatype HistoryPoint = HistoryPoint(timestamp: int, packetsInPerSec: real, packetsOutPerSec: real,
                                       bytesInPerSec: real, bytesOutPerSec: real)

  function InRange(channel: string, lo: int, hi: int): Bucket -> bool {
    (k: Bucket) => k.0 == channel && lo <= k.1 * MICROS < hi
  }

  function Rates(t: Totals, timestamp: int, interval: int): HistoryPoint
    requires interval > 0
  {
    HistoryPoint(timestamp, t.packetsIn as real / interval as real, t.packetsOut as real / interval as real,
                 t.bytesIn as real / interval as real, t.bytesOut as real / interval as real)
  }

  /** One row per bucket: the LEFT JOIN of the series with the telemetry view. */
  ghost function ChannelHistory(flows: seq<Flow>, channel: string, start: int, period: int): seq<HistoryPoint> {
    var s, interval := Buckets(start, period), OptimalBucket(period);
    seq(|s|, i requires 0 <= i < |s| =>
      Rates(Totalled(View(flows), InRange(channel, s[i], s[i] + interval * MICROS)), s[i], interval))
  }

  /** The same over the host's own packets: received is IN, sent is OUT. */
  ghost function HostTotals(flows: seq<Flow>, channel: string, host: string, lo: int, hi: int): Totals {
    var joined := Where(flows, (r: Flow) => InRange(channel, lo, hi)(BucketOf()(r)) && Touches(host)(r));
    Totals(|Where(joined, To(host))|, |Where(joined, From(host))|,
           Coalesce(SumOrNull(Where(joined, To(host)), Size())), Coalesce(SumOrNull(Where(joined, From(host)), Size())))
  }

  ghost function HostHistory(flows: seq<Flow>, channel: string, host: string, start: int, period: int): seq<HistoryPoint> {
    var s, interval := Buckets(start, period), OptimalBucket(period);
    seq(|s|, i requires 0 <= i < |s| =>
      Rates(HostTotals(flows, channel, host, s[i], s[i] + interval * MICROS), s[i], interval))
  }

  /** The area under a curve: rate times bucket length, over all points. */
  ghost function Area(points: seq<HistoryPoint>, interval: int, f: HistoryPoint -> real): real {
    if points == [] then 0.0 else
    Area(points[..|points| - 1], interval, f) + f(points[|points| - 1]) * interval as real
  }

  function InPerSec(): HistoryPoint -> real { (p: HistoryPoint) => p.packetsInPerSec }
  function OutPerSec(): HistoryPoint -> real { (p: HistoryPoint) => p.packetsOutPerSec }
  function BytesInPerSec(): HistoryPoint -> real { (p: HistoryPoint) => p.bytesInPerSec }
  function BytesOutPerSec(): HistoryPoint -> real { (p: HistoryPoint) => p.bytesOutPerSec }

  ghost function During(q: Flow -> bool, channel: string, lo: int, hi: int): Flow -> bool {
    (r: Flow) => q(r) && InRange(channel, lo, hi)(BucketOf()(r))
  }

  lemma RangeSplits(flows: seq<Flow>, q: Flow -> bool, channel: string, lo: int, mid: int, hi: int, w: Flow -> int)
    requires lo <= mid <= hi
    ensures Sum(Where(flows, During(q, channel, lo, hi)), w)
            == Sum(Where(flows, During(q, channel, lo, mid)), w) + Sum(Where(flows, During(q, channel, mid, hi)), w)
  {
    SumWhere(flows, During(q, channel, lo, hi), w);
    SumWhere(flows, During(q, channel, lo, mid), w);
    SumWhere(flows, During(q, channel, mid, hi), w);
    SumPlus(flows, Only(During(q, channel, lo, mid), w), Only(During(q, channel, mid, hi), w),
            Only(During(q, channel, lo, hi), w));
  }

  ghost function Part(flows: seq<Flow>, q: Flow -> bool, channel: string, lo: int, hi: int, w: Flow -> int): int {
    Sum(Where(flows, During(q, channel, lo, hi)), w)
  }

  ghost predicate StandsFor(flows: seq<Flow>, q: Flow -> bool, channel: string, cuts: seq<int>, interval: int,
                            w: Flow -> int, points: seq<HistoryPoint>, f: HistoryPoint -> real, i: nat)
    requires i < |points| && |cuts| == |points| + 1
  {
    f(points[i]) * interval as real == Part(flows, q, channel, cuts[i], cuts[i + 1], w) as real
  }

  predicate InOrder(cuts: seq<int>) { forall i, j :: 0 <= i <= j < |cuts| ==> cuts[i] <= cuts[j] }

  /** If every point stands for the packets between two cuts, the curve stands for those between the outer cuts. */
  lemma {:induction false} AreaIsTotal(flows: seq<Flow>, q: Flow -> bool, channel: string, cuts: seq<int>, interval: int,
                                       w: Flow -> int, points: seq<HistoryPoint>, f: HistoryPoint -> real)
    requires |cuts| == |points| + 1 && InOrder(cuts)
    requires forall i :: 0 <= i < |points| ==> StandsFor(flows, q, channel, cuts, interval, w, points, f, i)
    ensures Area(points, interval, f) == Part(flows, q, channel, cuts[0], cuts[|points|], w) as real
  {
    var n := |points| - 1;
    if n < 0 {
      WhereNone(flows, During(q, channel, cuts[0], cuts[0]));
    } else {
      var front, frontCuts := points[..n], cuts[..n + 1];
      forall i | 0 <= i < n ensures StandsFor(flows, q, channel, frontCuts, interval, w, front, f, i) {
        assert StandsFor(flows, q, channel, cuts, interval, w, points, f, i);
      }
      AreaIsTotal(flows, q, channel, frontCuts, interval, w, front, f);
      assert cuts[..n + 1][n] == cuts[n] && cuts[0] <= cuts[n] <= cuts[n + 1];
      assert StandsFor(flows, q, channel, cuts, interval, w, points, f, n);
      RangeSplits(flows, q, channel, cuts[0], cuts[n], cuts[n + 1], w);
    }
  }

  /** Where the buckets begin and where the last one ends. */
  function Cuts(start: int, period: int): (cuts: seq<int>)
    requires period >= 0
    ensures |cuts| == |Buckets(start, period)| + 1
  {
    Buckets(start, period) + [start + |Buckets(start, period)| * (OptimalBucket(period) * MICROS)]
  }

  lemma CutsShape(start: int, period: int)
    requires period >= 0
    ensures var cuts, step := Cuts(start, period), OptimalBucket(period) * MICROS;
            && cuts[0] == start
            && (forall i :: 0 <= i < |cuts| - 1 ==> cuts[i] == Buckets(start, period)[i] && cuts[i + 1] == cuts[i] + step)
            && InOrder(cuts)
  {
    var cuts, step := Cuts(start, period), OptimalBucket(period) * MICROS;
    BucketsShape(start, period);
    forall i | 0 <= i < |cuts| - 1 ensures cuts[i + 1] == cuts[i] + step {
      assert (i + 1) * step == i * step + step;
    }
    forall i, j | 0 <= i <= j < |cuts| ensures cuts[i] <= cuts[j] {
      Scale(i, j, step);
    }
    assert 0 <= period / OptimalBucket(period);
  }

  lemma Undivided(x: int, interval: int)
    requires interval > 0
    ensures x as real / interval as real * interval as real == x as real
  {}

  lemma CountIsPart(flows: seq<Flow>, q: Flow -> bool, channel: string, lo: int, hi: int)
    ensures |Where(flows, During(q, channel, lo, hi))| == Part(flows, q, channel, lo, hi, One())
  {
    SumOnes(Where(flows, During(q, channel, lo, hi)), One());
  }

  lemma SameRows(flows: seq<Flow>, p: Flow -> bool, p': Flow -> bool, w: Flow -> int)
    requires forall r :: r in flows ==> p(r) == p'(r)
    ensures Sum(Where(flows, p), w) == Sum(Where(flows, p'), w) && |Where(flows, p)| == |Where(flows, p')|
  {
    SumWhere(flows, p, w);
    SumWhere(flows, p', w);
    SumSame(flows, Only(p, w), Only(p', w));
    SumWhere(flows, p, One());
    SumWhere(flows, p', One());
    SumSame(flows, Only(p, One()), Only(p', One()));
    SumOnes(Where(flows, p), One());
    SumOnes(Where(flows, p'), One());
  }

  lemma ViewPart(flows: seq<Flow>, channel: string, lo: int, hi: int)
    ensures var t := Totalled(View(flows), InRange(channel, lo, hi));
            && t.packetsIn == Part(flows, Towards(0), channel, lo, hi, One())
            && t.packetsOut == Part(flows, Towards(1), channel, lo, hi, One())
            && t.bytesIn == Part(flows, Towards(0), channel, lo, hi, Size())
            && t.bytesOut == Part(flows, Towards(1), channel, lo, hi, Size())
  {
    MeantAddsUp(flows, InRange(channel, lo, hi));
    SameRows(flows, MeantBy(InRange(channel, lo, hi), 0), During(Towards(0), channel, lo, hi), Size());
    SameRows(flows, MeantBy(InRange(channel, lo, hi), 1), During(Towards(1), channel, lo, hi), Size());
    CountIsPart(flows, Towards(0), channel, lo, hi);
    CountIsPart(flows, Towards(1), channel, lo, hi);
  }

  /** The i-th point's rates, times the bucket length, are its bucket's packets and bytes. */
  ghost predicate Accounts(p: HistoryPoint, flows: seq<Flow>, qIn: Flow -> bool, qOut: Flow -> bool, channel: string,
                           lo: int, hi: int, interval: int) {
    && p.packetsInPerSec * interval as real == Part(flows, qIn, channel, lo, hi, One()) as real
    && p.packetsOutPerSec * interval as real == Part(flows, qOut, channel, lo, hi, One()) as real
    && p.bytesInPerSec * interval as real == Part(flows, qIn, channel, lo, hi, Size()) as real
    && p.bytesOutPerSec * interval as real == Part(flows, qOut, channel, lo, hi, Size()) as real
  }

  ghost predicate AccountsAt(points: seq<HistoryPoint>, flows: seq<Flow>, qIn: Flow -> bool, qOut: Flow -> bool,
                             channel: string, cuts: seq<int>, interval: int, i: nat)
    requires i < |points| && |cuts| == |points| + 1
  {
    Accounts(points[i], flows, qIn, qOut, channel, cuts[i], cuts[i + 1], interval)
  }

  lemma RatesAccount(t: Totals, at: int, interval: int, flows: seq<Flow>, qIn: Flow -> bool, qOut: Flow -> bool,
                     channel: string, lo: int, hi: int)
    requires interval > 0
    requires t == Totals(Part(flows, qIn, channel, lo, hi, One()), Part(flows, qOut, channel, lo, hi, One()),
                         Part(flows, qIn, channel, lo, hi, Size()), Part(flows, qOut, channel, lo, hi, Size()))
    ensures Accounts(Rates(t, at, interval), flows, qIn, qOut, channel, lo, hi, interval)
  {}

  lemma ReceivedArea(flows: seq<Flow>, qIn: Flow -> bool, qOut: Flow -> bool, channel: string, cuts: seq<int>,
      interval: int, points: seq<HistoryPoint>)
    requires |cuts| == |points| + 1 && InOrder(cuts)
    requires forall i :: 0 <= i < |points| ==> AccountsAt(points, flows, qIn, qOut, channel, cuts, interval, i)
    ensures Area(points, interval, InPerSec()) == Part(flows, qIn, channel, cuts[0], cuts[|points|], One()) as real
  {
    forall i | 0 <= i < |points|
      ensures StandsFor(flows, qIn, channel, cuts, interval, One(), points, InPerSec(), i)
    {
      assert AccountsAt(points, flows, qIn, qOut, channel, cuts, interval, i);
    }
    AreaIsTotal(flows, qIn, channel, cuts, interval, One(), points, InPerSec());
  }

  lemma SentArea(flows: seq<Flow>, qIn: Flow -> bool, qOut: Flow -> bool, channel: string, cuts: seq<int>,
      interval: int, points: seq<HistoryPoint>)
    requires |cuts| == |points| + 1 && InOrder(cuts)
    requires forall i :: 0 <= i < |points| ==> AccountsAt(points, flows, qIn, qOut, channel, cuts, interval, i)
    ensures Area(points, interval, OutPerSec()) == Part(flows, qOut, channel, cuts[0], cuts[|points|], One()) as real
  {
    forall i | 0 <= i < |points|
      ensures StandsFor(flows, qOut, channel, cuts, interval, One(), points, OutPerSec(), i)
    {
      assert AccountsAt(points, flows, qIn, qOut, channel, cuts, interval, i);
    }
    AreaIsTotal(flows, qOut, channel, cuts, interval, One(), points, OutPerSec());
  }

  lemma ReceivedBytesArea(flows: seq<Flow>, qIn: Flow -> bool, qOut: Flow -> bool, channel: string, cuts: seq<int>,
      interval: int, points: seq<HistoryPoint>)
    requires |cuts| == |points| + 1 && InOrder(cuts)
    requires forall i :: 0 <= i < |points| ==> AccountsAt(points, flows, qIn, qOut, channel, cuts, interval, i)
    ensures Area(points, interval, BytesInPerSec()) == Part(flows, qIn, channel, cuts[0], cuts[|points|], Size()) as real
  {
    forall i | 0 <= i < |points|
      ensures StandsFor(flows, qIn, channel, cuts, interval, Size(), points, BytesInPerSec(), i)
    {
      assert AccountsAt(points, flows, qIn, qOut, channel, cuts, interval, i);
    }
    AreaIsTotal(flows, qIn, channel, cuts, interval, Size(), points, BytesInPerSec());
  }

  lemma SentBytesArea(flows: seq<Flow>, qIn: Flow -> bool, qOut: Flow -> bool, channel: string, cuts: seq<int>,
      interval: int, points: seq<HistoryPoint>)
    requires |cuts| == |points| + 1 && InOrder(cuts)
    requires forall i :: 0 <= i < |points| ==> AccountsAt(points, flows, qIn, qOut, channel, cuts, interval, i)
    ensures Area(points, interval, BytesOutPerSec()) == Part(flows, qOut, channel, cuts[0], cuts[|points|], Size()) as real
  {
    forall i | 0 <= i < |points|
      ensures StandsFor(flows, qOut, channel, cuts, interval, Size(), points, BytesOutPerSec(), i)
    {
      assert AccountsAt(points, flows, qIn, qOut, channel, cuts, interval, i);
    }
    AreaIsTotal(flows, qOut, channel, cuts, interval, Size(), points, BytesOutPerSec());
  }

  /** The four areas are the packets and bytes that qIn and qOut select. */
  ghost predicate AreasAre(points: seq<HistoryPoint>, interval: int, flows: seq<Flow>, qIn: Flow -> bool,
                           qOut: Flow -> bool) {
    && Area(points, interval, InPerSec()) == Tally(flows, qIn) as real
    && Area(points, interval, OutPerSec()) == Tally(flows, qOut) as real
    && Area(points, interval, BytesInPerSec()) == Sum(flows, BytesIf(qIn)) as real
    && Area(points, interval, BytesOutPerSec()) == Sum(flows, BytesIf(qOut)) as real
  }

  lemma PartIs(flows: seq<Flow>, q: Flow -> bool, channel: string, lo: int, hi: int, all: Flow -> bool)
    requires forall r :: r in flows ==> During(q, channel, lo, hi)(r) == all(r)
    ensures Part(flows, q, channel, lo, hi, One()) == Tally(flows, all)
    ensures Part(flows, q, channel, lo, hi, Size()) == Sum(flows, BytesIf(all))
  {
    Counted(flows, During(q, channel, lo, hi), all);
    CountIsPart(flows, q, channel, lo, hi);
  }

  lemma AreasAreTotals(flows: seq<Flow>, qIn: Flow -> bool, qOut: Flow -> bool, channel: string, cuts: seq<int>,
                       interval: int, points: seq<HistoryPoint>, allIn: Flow -> bool, allOut: Flow -> bool)
    requires |cuts| == |points| + 1 && InOrder(cuts)
    requires forall i :: 0 <= i < |points| ==> AccountsAt(points, flows, qIn, qOut, channel, cuts, interval, i)
    requires forall r :: r in flows ==> During(qIn, channel, cuts[0], cuts[|points|])(r) == allIn(r)
    requires forall r :: r in flows ==> During(qOut, channel, cuts[0], cuts[|points|])(r) == allOut(r)
    ensures AreasAre(points, interval, flows, allIn, allOut)
  {
    ReceivedArea(flows, qIn, qOut, channel, cuts, interval, points);
    SentArea(flows, qIn, qOut, channel, cuts, interval, points);
    ReceivedBytesArea(flows, qIn, qOut, channel, cuts, interval, points);
    SentBytesArea(flows, qIn, qOut, channel, cuts, interval, points);
    PartIs(flows, qIn, channel, cuts[0], cuts[|points|], allIn);
    PartIs(flows, qOut, channel, cuts[0], cuts[|points|], allOut);
  }

  /** Where the last bucket of a request ends. */
  function CoveredUntil(start: int, period: int): int
    requires period >= 0
  {
    var cuts := Cuts(start, period); cuts[|cuts| - 1]
  }

  lemma CoverageIs(start: int, period: int)
    requires period >= 0
    ensures CoveredUntil(start, period) == start + (period / OptimalBucket(period) + 1) * (OptimalBucket(period) * 1_000_000)
  {
    BucketsShape(start, period);
  }

  /** A packet of the channel and the direction from the instant lo to before hi, in microseconds. */
  function Carried(channel: string, d: int, lo: int, hi: int): Flow -> bool {
    (r: Flow) => r.channelId == channel && r.packet.direction == d && lo <= r.time * 1_000_000 && r.time * 1_000_000 < hi
  }

  /** A packet of the channel to, or from, the host in that time. */
  function CarriedTo(channel: string, host: string, lo: int, hi: int): Flow -> bool {
    (r: Flow) => r.channelId == channel && r.packet.dstIp == host && lo <= r.time * 1_000_000 && r.time * 1_000_000 < hi
  }

  function CarriedFrom(channel: string, host: string, lo: int, hi: int): Flow -> bool {
    (r: Flow) => r.channelId == channel && r.packet.srcIp == host && lo <= r.time * 1_000_000 && r.time * 1_000_000 < hi
  }

  lemma DuringIs(q: Flow -> bool, channel: string, lo: int, hi: int, r: Flow)
    ensures During(q, channel, lo, hi)(r)
            <==> q(r) && r.channelId == channel && lo <= r.time * 1_000_000 && r.time * 1_000_000 < hi
  {
    assert BucketOf()(r) == (r.channelId, r.time, r.packet.protocol);
  }

  /** The i-th point: when its bucket starts, and the rates of the packets and bytes in it. */
  ghost predicate PointIs(p: HistoryPoint, at: int, interval: int, flows: seq<Flow>, qIn: Flow -> bool, qOut: Flow -> bool) {
    && p.timestamp == at
    && p.packetsInPerSec * interval as real == Tally(flows, qIn) as real
    && p.packetsOutPerSec * interval as real == Tally(flows, qOut) as real
    && p.bytesInPerSec * interval as real == Sum(flows, BytesIf(qIn)) as real
    && p.bytesOutPerSec * interval as real == Sum(flows, BytesIf(qOut)) as real
  }

  lemma AccountsExactly(p: HistoryPoint, flows: seq<Flow>, qIn: Flow -> bool, qOut: Flow -> bool, channel: string,
                        lo: int, hi: int, interval: int, allIn: Flow -> bool, allOut: Flow -> bool)
    requires p.timestamp == lo && Accounts(p, flows, qIn, qOut, channel, lo, hi, interval)
    requires forall r :: r in flows ==> During(qIn, channel, lo, hi)(r) == allIn(r)
    requires forall r :: r in flows ==> During(qOut, channel, lo, hi)(r) == allOut(r)
    ensures PointIs(p, lo, interval, flows, allIn, allOut)
  {
    PartIs(flows, qIn, channel, lo, hi, allIn);
    PartIs(flows, qOut, channel, lo, hi, allOut);
  }

  lemma DirectionSelects(flows: seq<Flow>, d: int, channel: string, lo: int, hi: int)
    ensures forall r :: r in flows ==> During(Towards(d), channel, lo, hi)(r) == Carried(channel, d, lo, hi)(r)
  {
    forall r | r in flows ensures During(Towards(d), channel, lo, hi)(r) == Carried(channel, d, lo, hi)(r) {
      DuringIs(Towards(d), channel, lo, hi, r);
    }
  }

  lemma EndSelects(flows: seq<Flow>, host: string, channel: string, lo: int, hi: int)
    ensures forall r :: r in flows ==> During(To(host), channel, lo, hi)(r) == CarriedTo(channel, host, lo, hi)(r)
    ensures forall r :: r in flows ==> During(From(host), channel, lo, hi)(r) == CarriedFrom(channel, host, lo, hi)(r)
  {
    forall r | r in flows
      ensures During(To(host), channel, lo, hi)(r) == CarriedTo(channel, host, lo, hi)(r)
      ensures During(From(host), channel, lo, hi)(r) == CarriedFrom(channel, host, lo, hi)(r)
    {
      DuringIs(To(host), channel, lo, hi, r);
      DuringIs(From(host), channel, lo, hi, r);
    }
  }

  lemma ChannelAccounts(flows: seq<Flow>, channel: string, start: int, period: int, i: nat)
    requires period >= 0 && i < |Buckets(start, period)|
    ensures var cuts, p := Cuts(start, period), ChannelHistory(flows, channel, start, period)[i];
            && p.timestamp == cuts[i]
            && Accounts(p, flows, Towards(0), Towards(1), channel, cuts[i], cuts[i + 1], OptimalBucket(period))
  {
    var cuts, interval := Cuts(start, period), OptimalBucket(period);
    CutsShape(start, period);
    ViewPart(flows, channel, cuts[i], cuts[i + 1]);
    RatesAccount(Totalled(View(flows), InRange(channel, cuts[i], cuts[i + 1])), cuts[i], interval, flows, Towards(0),
                 Towards(1), channel, cuts[i], cuts[i + 1]);
  }

  /** Where the i-th bucket starts. */
  function Tick(start: int, period: int, i: nat): int { start + i * (OptimalBucket(period) * 1_000_000) }

  lemma TicksAreCuts(start: int, period: int, i: nat)
    requires period >= 0 && i < |Buckets(start, period)|
    ensures |Buckets(start, period)| == period / OptimalBucket(period) + 1
    ensures Cuts(start, period)[i] == Tick(start, period, i) && Cuts(start, period)[i + 1] == Tick(start, period, i + 1)
  {
    BucketsShape(start, period);
    CutsShape(start, period);
    assert (i + 1) * (OptimalBucket(period) * 1_000_000) == i * (OptimalBucket(period) * 1_000_000) + OptimalBucket(period) * 1_000_000;
  }

  /** Every point of a channel's history, one per bucket. */
  lemma ChannelPointIsExact(flows: seq<Flow>, channel: string, start: int, period: int, i: nat)
    requires period >= 0 && i <= period / OptimalBucket(period)
    ensures var points, lo, hi := ChannelHistory(flows, channel, start, period), Tick(start, period, i), Tick(start, period, i + 1);
            && |points| == period / OptimalBucket(period) + 1
            && PointIs(points[i], lo, OptimalBucket(period), flows, Carried(channel, 0, lo, hi), Carried(channel, 1, lo, hi))
  {
    var lo, hi := Tick(start, period, i), Tick(start, period, i + 1);
    BucketsShape(start, period);
    TicksAreCuts(start, period, i);
    ChannelAccounts(flows, channel, start, period, i);
    DirectionSelects(flows, 0, channel, lo, hi);
    DirectionSelects(flows, 1, channel, lo, hi);
    AccountsExactly(ChannelHistory(flows, channel, start, period)[i], flows, Towards(0), Towards(1), channel, lo, hi,
                    OptimalBucket(period), Carried(channel, 0, lo, hi), Carried(channel, 1, lo, hi));
  }

  lemma ChannelAllAccount(flows: seq<Flow>, channel: string, start: int, period: int)
    requires period >= 0
    ensures var points, cuts := ChannelHistory(flows, channel, start, period), Cuts(start, period);
            && |cuts| == |points| + 1
            && forall i :: 0 <= i < |points| ==>
                 AccountsAt(points, flows, Towards(0), Towards(1), channel, cuts, OptimalBucket(period), i)
  {
    var points, cuts := ChannelHistory(flows, channel, start, period), Cuts(start, period);
    forall i | 0 <= i < |points|
      ensures AccountsAt(points, flows, Towards(0), Towards(1), channel, cuts, OptimalBucket(period), i)
    {
      ChannelAccounts(flows, channel, start, period, i);
    }
  }

  /** The areas under the channel's four curves are its packets and bytes in the covered seconds: direction 0 in, 1 out. */
  lemma ChannelHistoryAddsUp(flows: seq<Flow>, channel: string, start: int, period: int)
    requires period >= 0
    ensures var end := start + (period / OptimalBucket(period) + 1) * (OptimalBucket(period) * 1_000_000);
            AreasAre(ChannelHistory(flows, channel, start, period), OptimalBucket(period), flows,
                     Carried(channel, 0, start, end), Carried(channel, 1, start, end))
  {
    var points, interval := ChannelHistory(flows, channel, start, period), OptimalBucket(period);
    var cuts, end := Cuts(start, period), CoveredUntil(start, period);
    CutsShape(start, period);
    CoverageIs(start, period);
    ChannelAllAccount(flows, channel, start, period);
    DirectionSelects(flows, 0, channel, start, end);
    DirectionSelects(flows, 1, channel, start, end);
    AreasAreTotals(flows, Towards(0), Towards(1), channel, cuts, interval, points, Carried(channel, 0, start, end),
                   Carried(channel, 1, start, end));
  }

  lemma HostPart(flows: seq<Flow>, channel: string, host: string, lo: int, hi: int)
    ensures HostTotals(flows, channel, host, lo, hi)
            == Totals(Part(flows, To(host), channel, lo, hi, One()), Part(flows, From(host), channel, lo, hi, One()),
                      Part(flows, To(host), channel, lo, hi, Size()), Part(flows, From(host), channel, lo, hi, Size()))
  {
    var joins := (r: Flow) => InRange(channel, lo, hi)(BucketOf()(r)) && Touches(host)(r);
    JoinedPart(flows, joins, To(host), channel, lo, hi);
    JoinedPart(flows, joins, From(host), channel, lo, hi);
  }

  lemma JoinedPart(flows: seq<Flow>, joins: Flow -> bool, q: Flow -> bool, channel: string, lo: int, hi: int)
    requires forall r :: r in flows && q(r) ==> joins(r) == During(q, channel, lo, hi)(r)
    ensures |Where(Where(flows, joins), q)| == Part(flows, q, channel, lo, hi, One())
    ensures Sum(Where(Where(flows, joins), q), Size()) == Part(flows, q, channel, lo, hi, Size())
  {
    SumOnes(Where(Where(flows, joins), q), One());
    Rejoin(flows, joins, q, channel, lo, hi, One());
    Rejoin(flows, joins, q, channel, lo, hi, Size());
  }

  lemma Rejoin(flows: seq<Flow>, joins: Flow -> bool, q: Flow -> bool, channel: string, lo: int, hi: int, w: Flow -> int)
    requires forall r :: r in flows && q(r) ==> joins(r) == During(q, channel, lo, hi)(r)
    ensures Sum(Where(Where(flows, joins), q), w) == Part(flows, q, channel, lo, hi, w)
  {
    SumWhere(Where(flows, joins), q, w);
    SumWhere(flows, joins, Only(q, w));
    SumWhere(flows, During(q, channel, lo, hi), w);
    SumSame(flows, Only(joins, Only(q, w)), Only(During(q, channel, lo, hi), w));
  }

  lemma HostAccounts(flows: seq<Flow>, channel: string, host: string, lo: int, hi: int, interval: int)
    requires interval > 0
    ensures Accounts(Rates(HostTotals(flows, channel, host, lo, hi), lo, interval), flows, To(host), From(host), channel,
                     lo, hi, interval)
  {
    HostPart(flows, channel, host, lo, hi);
    RatesAccount(HostTotals(flows, channel, host, lo, hi), lo, interval, flows, To(host), From(host), channel, lo, hi);
  }

  lemma HostPoint(flows: seq<Flow>, channel: string, host: string, start: int, period: int, i: nat)
    requires period >= 0 && i < |Buckets(start, period)|
    ensures var cuts := Cuts(start, period);
            var p := HostHistory(flows, channel, host, start, period)[i];
            p.timestamp == cuts[i]
            && Accounts(p, flows, To(host), From(host), channel, cuts[i], cuts[i + 1], OptimalBucket(period))
  {
    CutsShape(start, period);
    HostAccounts(flows, channel, host, Cuts(start, period)[i], Cuts(start, period)[i + 1], OptimalBucket(period));
  }

  lemma HostExactly(p: HistoryPoint, flows: seq<Flow>, channel: string, host: string, lo: int, hi: int, interval: int)
    requires p.timestamp == lo && Accounts(p, flows, To(host), From(host), channel, lo, hi, interval)
    ensures PointIs(p, lo, interval, flows, CarriedTo(channel, host, lo, hi), CarriedFrom(channel, host, lo, hi))
  {
    EndSelects(flows, host, channel, lo, hi);
    AccountsExactly(p, flows, To(host), From(host), channel, lo, hi, interval, CarriedTo(channel, host, lo, hi),
                    CarriedFrom(channel, host, lo, hi));
  }

  /** Every point of a host's history. */
  lemma HostPointIsExact(flows: seq<Flow>, channel: string, host: string, start: int, period: int, i: nat)
    requires period >= 0 && i <= period / OptimalBucket(period)
    ensures var points := HostHistory(flows, channel, host, start, period);
            var lo, hi := Tick(start, period, i), Tick(start, period, i + 1);
            && |points| == period / OptimalBucket(period) + 1
            && PointIs(points[i], lo, OptimalBucket(period), flows, CarriedTo(channel, host, lo, hi),
                       CarriedFrom(channel, host, lo, hi))
  {
    var lo, hi := Tick(start, period, i), Tick(start, period, i + 1);
    BucketsShape(start, period);
    TicksAreCuts(start, period, i);
    HostPoint(flows, channel, host, start, period, i);
    var p := HostHistory(flows, channel, host, start, period)[i];
    HostExactly(p, flows, channel, host, lo, hi, OptimalBucket(period));
  }

  lemma HostAllAccount(flows: seq<Flow>, channel: string, host: string, start: int, period: int)
    requires period >= 0
    ensures var points, cuts := HostHistory(flows, channel, host, start, period), Cuts(start, period);
            && |cuts| == |points| + 1
            && forall i :: 0 <= i < |points| ==>
                 AccountsAt(points, flows, To(host), From(host), channel, cuts, OptimalBucket(period), i)
  {
    var points, cuts := HostHistory(flows, channel, host, start, period), Cuts(start, period);
    forall i | 0 <= i < |points|
      ensures AccountsAt(points, flows, To(host), From(host), channel, cuts, OptimalBucket(period), i)
    {
      HostPoint(flows, channel, host, start, period, i);
    }
  }

  /** Likewise for a host: what it received and what it sent. */
  lemma HostHistoryAddsUp(flows: seq<Flow>, channel: string, host: string, start: int, period: int)
    requires period >= 0
    ensures var end := start + (period / OptimalBucket(period) + 1) * (OptimalBucket(period) * 1_000_000);
            AreasAre(HostHistory(flows, channel, host, start, period), OptimalBucket(period), flows,
                     CarriedTo(channel, host, start, end), CarriedFrom(channel, host, start, end))
  {
    var points, interval := HostHistory(flows, channel, host, start, period), OptimalBucket(period);
    var cuts, end := Cuts(start, period), CoveredUntil(start, period);
    CutsShape(start, period);
    CoverageIs(start, period);
    HostAllAccount(flows, channel, host, start, period);
    EndSelects(flows, host, channel, start, end);
    AreasAreTotals(flows, To(host), From(host), channel, cuts, interval, points, CarriedTo(channel, host, start, end),
                   CarriedFrom(channel, host, start, end));
  }
}
