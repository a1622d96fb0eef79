/**
 * The reporting queries over `packet_flows`, clause by clause, and what their figures mean in packets.
 * Rates divide both sides by the same period and are left as counts here.
 */
module FlowQueries {
  import opened PacketBuffer
  import opened SqlSums
  import opened Wrappers

  /** What the ingestion contract lets through: 0 is IN, 1 is OUT. */
  ghost predicate Validated(rows: seq<Flow>) {
    forall r :: r in rows ==> r.packet.direction == 0 || r.packet.direction == 1
  }

  function Size(): Flow -> int { (r: Flow) => r.packet.size }
  function Towards(d: int): Flow -> bool { (r: Flow) => r.packet.direction == d }

  /** The bytes of the packets with a property. */
  function BytesIf(q: Flow -> bool): Flow -> int { (r: Flow) => if q(r) then r.packet.size else 0 }

  lemma Counted(flows: seq<Flow>, p: Flow -> bool, q: Flow -> bool)
    requires forall r :: r in flows ==> p(r) == q(r)
    ensures |Where(flows, p)| == Tally(flows, q) && Sum(Where(flows, p), Size()) == Sum(flows, BytesIf(q))
  {
    WhereTallies(flows, p, q);
    SumOfWhere(flows, p, Size(), BytesIf(q));
  }

  // ---- The telemetry_1s view and the window query over it ----

  type Bucket = (string, int, string)   // channel, second, protocol

  /** Row times are whole seconds, so the one-second time_bucket is the time itself. */
  function BucketOf(): Flow -> Bucket { (r: Flow) => (r.channelId, r.time, r.packet.protocol) }

  datatype Telemetry = Telemetry(packetsIn: int, packetsOut: int, bytesIn: Option<int>, bytesOut: Option<int>)

  ghost function Summary(rows: seq<Flow>): Telemetry {
    Telemetry(|Where(rows, Towards(0))|, |Where(rows, Towards(1))|,
              SumOrNull(Where(rows, Towards(0)), Size()), SumOrNull(Where(rows, Towards(1)), Size()))
  }

  ghost function View(flows: seq<Flow>): map<Bucket, Telemetry> {
    map k | k in Keys(flows, BucketOf()) :: Summary(Group(flows, BucketOf(), k))
  }

  predicate InWindow(channel: string, now: real, window: real, k: Bucket) {
    k.0 == channel && now - window - 1.0 < k.1 as real && k.1 as real <= now - 1.0
  }

  function Window(channel: string, now: real, window: real): Bucket -> bool { k => InWindow(channel, now, window, k) }

  ghost function Selected(view: map<Bucket, Telemetry>, p: Bucket -> bool): set<Bucket> {
    set k | k in view && p(k)
  }

  datatype Totals = Totals(packetsIn: int, packetsOut: int, bytesIn: int, bytesOut: int)

  ghost function PacketsIn(view: map<Bucket, Telemetry>): Bucket -> int {
    k => if k in view then view[k].packetsIn else 0
  }

  ghost function PacketsOut(view: map<Bucket, Telemetry>): Bucket -> int {
    k => if k in view then view[k].packetsOut else 0
  }

  ghost function BytesIn(view: map<Bucket, Telemetry>): Bucket -> int {
    k => if k in view then Coalesce(view[k].bytesIn) else 0
  }

  ghost function BytesOut(view: map<Bucket, Telemetry>): Bucket -> int {
    k => if k in view then Coalesce(view[k].bytesOut) else 0
  }


  /** The outer SUM skips NULLs, and COALESCE turns the NULL of an empty selection into 0. */
  ghost function Totalled(view: map<Bucket, Telemetry>, p: Bucket -> bool): Totals {
    var keys := Selected(view, p);
    Totals(Total(keys, PacketsIn(view)), Total(keys, PacketsOut(view)),
           Total(keys, BytesIn(view)), Total(keys, BytesOut(view)))
  }

  ghost function FetchTelemetry(view: map<Bucket, Telemetry>, channel: string, now: real, window: real): Totals {
    Totalled(view, Window(channel, now, window))
  }

  ghost function MeantBy(p: Bucket -> bool, d: int): Flow -> bool { (r: Flow) => p(BucketOf()(r)) && Towards(d)(r) }

  /** The packets a selection of buckets means, in one direction. */
  ghost function Meant(flows: seq<Flow>, p: Bucket -> bool, d: int): seq<Flow> { Where(flows, MeantBy(p, d)) }

  lemma SelectionAddsUp(flows: seq<Flow>, p: Bucket -> bool, d: int, w: Flow -> int, f: Bucket -> int)
    requires forall k :: k in Keys(flows, BucketOf()) ==> f(k) == Sum(Where(Group(flows, BucketOf(), k), Towards(d)), w)
    ensures Total(Selected(View(flows), p), f) == Sum(Meant(flows, p, d), w)
  {
    var keys, v := Selected(View(flows), p), Only(Towards(d), w);
    forall k | k in keys ensures f(k) == GroupSum(flows, BucketOf(), v)(k) {
      SumWhere(Group(flows, BucketOf(), k), Towards(d), w);
    }
    TotalSame(keys, f, GroupSum(flows, BucketOf(), v));
    GroupsAddUp(flows, BucketOf(), v, keys);
    SumWhere(flows, MeantBy(p, d), w);
    SumSame(flows, Only(Among(BucketOf(), keys), v), Only(MeantBy(p, d), w));
  }

  lemma MeantAddsUp(flows: seq<Flow>, p: Bucket -> bool)
    ensures Totalled(View(flows), p)
            == Totals(|Meant(flows, p, 0)|, |Meant(flows, p, 1)|,
                      Sum(Meant(flows, p, 0), Size()), Sum(Meant(flows, p, 1), Size()))
  {
    var view := View(flows);
    forall k | k in Keys(flows, BucketOf())
      ensures PacketsIn(view)(k) == Sum(Where(Group(flows, BucketOf(), k), Towards(0)), One())
           && PacketsOut(view)(k) == Sum(Where(Group(flows, BucketOf(), k), Towards(1)), One())
    {
      SumOnes(Where(Group(flows, BucketOf(), k), Towards(0)), One());
      SumOnes(Where(Group(flows, BucketOf(), k), Towards(1)), One());
    }
    SelectionAddsUp(flows, p, 0, One(), PacketsIn(view));
    SelectionAddsUp(flows, p, 1, One(), PacketsOut(view));
    SumOnes(Meant(flows, p, 0), One());
    SumOnes(Meant(flows, p, 1), One());
    SelectionAddsUp(flows, p, 0, Size(), BytesIn(view));
    SelectionAddsUp(flows, p, 1, Size(), BytesOut(view));
  }

  /** Four figures: packets and bytes of those that qIn, and those that qOut selects. */
  ghost predicate AreFigures(t: Totals, flows: seq<Flow>, qIn: Flow -> bool, qOut: Flow -> bool) {
    && t.packetsIn == Tally(flows, qIn) && t.packetsOut == Tally(flows, qOut)
    && t.bytesIn == Sum(flows, BytesIf(qIn)) && t.bytesOut == Sum(flows, BytesIf(qOut))
  }

  /** A packet of direction d in a part of the view, by channel, second and protocol. */
  ghost function PartOf(p: Bucket -> bool, d: int): Flow -> bool {
    (r: Flow) => r.packet.direction == d && p((r.channelId, r.time, r.packet.protocol))
  }

  lemma MeantFor(p: Bucket -> bool, d: int, r: Flow)
    ensures MeantBy(p, d)(r) <==> r.packet.direction == d && p((r.channelId, r.time, r.packet.protocol))
  {
    assert BucketOf()(r) == (r.channelId, r.time, r.packet.protocol);
  }

  lemma MeantCounted(flows: seq<Flow>, p: Bucket -> bool, d: int, q: Flow -> bool)
    requires forall r :: r in flows ==>
               (q(r) <==> r.packet.direction == d && p((r.channelId, r.time, r.packet.protocol)))
    ensures |Meant(flows, p, d)| == Tally(flows, q) && Sum(Meant(flows, p, d), Size()) == Sum(flows, BytesIf(q))
  {
    forall r | r in flows ensures MeantBy(p, d)(r) == q(r) {
      MeantFor(p, d, r);
    }
    Counted(flows, MeantBy(p, d), q);
  }

  /** Summing any part of the per-second, per-protocol view counts the packets of that part: direction 0 in, 1 out. */
  lemma ViewIsRaw(flows: seq<Flow>, p: Bucket -> bool)
    ensures AreFigures(Totalled(View(flows), p), flows, PartOf(p, 0), PartOf(p, 1))
  {
    MeantAddsUp(flows, p);
    MeantCounted(flows, p, 0, PartOf(p, 0));
    MeantCounted(flows, p, 1, PartOf(p, 1));
  }

  /** A packet of the channel and the direction, later than `after` and no later than `upTo`. */
  function Between(channel: string, d: int, after: real, upTo: real): Flow -> bool {
    (r: Flow) => r.channelId == channel && r.packet.direction == d && after < r.time as real && r.time as real <= upTo
  }

  /** The telemetry figures are the channel's own packets, from a window that ends one second ago. */
  lemma TelemetryIsRaw(flows: seq<Flow>, channel: string, now: real, window: real)
    ensures AreFigures(FetchTelemetry(View(flows), channel, now, window), flows,
                       Between(channel, 0, now - window - 1.0, now - 1.0), Between(channel, 1, now - window - 1.0, now - 1.0))
  {
    var p := Window(channel, now, window);
    MeantAddsUp(flows, p);
    MeantCounted(flows, p, 0, Between(channel, 0, now - window - 1.0, now - 1.0));
    MeantCounted(flows, p, 1, Between(channel, 1, now - window - 1.0, now - 1.0));
  }

  // ---- The hosts table ----

  function Since(channel: string, since: real): Flow -> bool {
    (r: Flow) => r.channelId == channel && r.time as real > since
  }

  /** WHERE channel_id = ... AND time > NOW() - interval, shared by the four host queries. */
  ghost function Recent(flows: seq<Flow>, channel: string, since: real): seq<Flow> { Where(flows, Since(channel, since)) }

  datatype Side = LAN | WAN
  datatype HostFlow = HostFlow(host: string, remote: string, side: Side, isTx: int, isRx: int, size: int)

  function Lan(r: Flow): HostFlow {
    var p := r.packet;
    HostFlow(if p.direction == 0 then p.dstIp else p.srcIp, if p.direction == 0 then p.srcIp else p.dstIp, LAN,
             if p.direction == 1 then 1 else 0, if p.direction == 0 then 1 else 0, p.size)
  }

  function Wan(r: Flow): HostFlow {
    var p := r.packet;
    HostFlow(if p.direction == 0 then p.srcIp else p.dstIp, if p.direction == 0 then p.dstIp else p.srcIp, WAN,
             if p.direction == 0 then 1 else 0, if p.direction == 1 then 1 else 0, p.size)
  }

  /** UNION ALL: every packet is listed once for each of its two ends. */
  ghost function HostFlows(rows: seq<Flow>): seq<HostFlow> {
    if rows == [] then [] else
    HostFlows(rows[..|rows| - 1]) + [Lan(rows[|rows| - 1]), Wan(rows[|rows| - 1])]
  }

  function Host(): HostFlow -> string { (h: HostFlow) => h.host }
  function Remote(): HostFlow -> string { (h: HostFlow) => h.remote }
  function IsTx(): HostFlow -> int { (h: HostFlow) => h.isTx }
  function IsRx(): HostFlow -> int { (h: HostFlow) => h.isRx }
  function TxSize(): HostFlow -> int { (h: HostFlow) => if h.isTx == 1 then h.size else 0 }
  function RxSize(): HostFlow -> int { (h: HostFlow) => if h.isRx == 1 then h.size else 0 }
  function OnSide(side: Side): HostFlow -> bool { (h: HostFlow) => h.side == side }

  datatype HostRow = HostRow(location: Side, uniqueDestinations: nat, tx: int, rx: int, txBytes: int, rxBytes: int)

  ghost function HostGroup(rows: seq<Flow>, host: string): seq<HostFlow> { Group(HostFlows(rows), Host(), host) }

  ghost function HostsTable(rows: seq<Flow>): map<string, HostRow> {
    map host | host in Keys(HostFlows(rows), Host()) ::
      var g := HostGroup(rows, host);
      HostRow(if |Where(g, OnSide(LAN))| >= |Where(g, OnSide(WAN))| then LAN else WAN, |Keys(g, Remote())|,
              Sum(g, IsTx()), Sum(g, IsRx()), Sum(g, TxSize()), Sum(g, RxSize()))
  }

  // ---- One host's details ----

  function From(host: string): Flow -> bool { (r: Flow) => r.packet.srcIp == host }
  function To(host: string): Flow -> bool { (r: Flow) => r.packet.dstIp == host }
  function Touches(host: string): Flow -> bool { (r: Flow) => r.packet.srcIp == host || r.packet.dstIp == host }

  datatype Details = Details(tx: int, rx: int, txBytes: Option<int>, rxBytes: Option<int>)

  ghost function HostDetails(rows: seq<Flow>, host: string): Details {
    var own := Where(rows, Touches(host));
    Details(|Where(own, From(host))|, |Where(own, To(host))|,
            SumOrNull(Where(own, From(host)), Size()), SumOrNull(Where(own, To(host)), Size()))
  }

  /** Both listings of every packet, as one weight per packet. */
  function Both(w: HostFlow -> int): Flow -> int { (r: Flow) => w(Lan(r)) + w(Wan(r)) }

  lemma {:induction false} SumHostFlows(rows: seq<Flow>, w: HostFlow -> int)
    ensures Sum(HostFlows(rows), w) == Sum(rows, Both(w))
  {
    if rows == [] {
    } else {
      var front, last := rows[..|rows| - 1], rows[|rows| - 1];
      SumHostFlows(front, w);
      var all := HostFlows(front);
      assert HostFlows(rows) == all + [Lan(last)] + [Wan(last)];
      assert (all + [Lan(last)] + [Wan(last)])[..|all| + 1] == all + [Lan(last)];
      assert (all + [Lan(last)])[..|all|] == all;
    }
  }

  /** A host's total of w is the total over the packets that give it something. */
  lemma HostTotal(rows: seq<Flow>, host: string, w: HostFlow -> int, p: Flow -> bool, v: Flow -> int)
    requires forall r :: r in rows ==>
               (if Lan(r).host == host then w(Lan(r)) else 0) + (if Wan(r).host == host then w(Wan(r)) else 0)
               == if p(r) then v(r) else 0
    ensures Sum(HostGroup(rows, host), w) == Sum(Where(rows, p), v)
  {
    SumWhere(HostFlows(rows), Having(Host(), host), w);
    SumHostFlows(rows, Only(Having(Host(), host), w));
    SumWhere(rows, p, v);
    SumSame(rows, Both(Only(Having(Host(), host), w)), Only(p, v));
  }

  lemma {:induction false} HostsListed(rows: seq<Flow>, host: string)
    ensures host in HostsTable(rows) <==> exists r :: r in rows && (r.packet.srcIp == host || r.packet.dstIp == host)
  {
    if rows == [] {
    } else {
      var front, last := rows[..|rows| - 1], rows[|rows| - 1];
      HostsListed(front, host);
      assert rows == front + [last];
      assert HostFlows(rows) == HostFlows(front) + [Lan(last), Wan(last)];
      assert Lan(last) in HostFlows(rows) && Wan(last) in HostFlows(rows);
      assert Touches(host)(last) <==> Lan(last).host == host || Wan(last).host == host;
      forall h | h in HostFlows(front) ensures h in HostFlows(rows) {}
    }
  }

  /** A host's counts in the table: its packets as source, its packets as destination. */
  lemma HostCounts(rows: seq<Flow>, host: string)
    requires Validated(rows)
    ensures Sum(HostGroup(rows, host), IsTx()) == |Where(rows, From(host))|
    ensures Sum(HostGroup(rows, host), IsRx()) == |Where(rows, To(host))|
  {
    HostTotal(rows, host, IsTx(), From(host), One());
    HostTotal(rows, host, IsRx(), To(host), One());
    SumOnes(Where(rows, From(host)), One());
    SumOnes(Where(rows, To(host)), One());
  }

  lemma HostBytes(rows: seq<Flow>, host: string)
    requires Validated(rows)
    ensures Sum(HostGroup(rows, host), TxSize()) == Sum(Where(rows, From(host)), Size())
    ensures Sum(HostGroup(rows, host), RxSize()) == Sum(Where(rows, To(host)), Size())
  {
    HostTotal(rows, host, TxSize(), From(host), Size());
    HostTotal(rows, host, RxSize(), To(host), Size());
  }

  /** The table and the details page agree on every host; the page shows NULL where the table shows no bytes. */
  lemma TableMatchesDetails(rows: seq<Flow>, host: string)
    requires Validated(rows) && host in HostsTable(rows)
    ensures var row, details := HostsTable(rows)[host], HostDetails(rows, host);
            && row.tx == details.tx && row.rx == details.rx
            && row.txBytes == Coalesce(details.txBytes) && row.rxBytes == Coalesce(details.rxBytes)
            && (details.txBytes == None <==> row.tx == 0) && (details.rxBytes == None <==> row.rx == 0)
  {
    HostCounts(rows, host);
    HostBytes(rows, host);
    CountTwice(rows, Touches(host), From(host));
    CountTwice(rows, Touches(host), To(host));
    SumTwice(rows, Touches(host), From(host), Size());
    SumTwice(rows, Touches(host), To(host), Size());
  }

  /** A recent packet of the channel that the host sent, or received. */
  function SentBy(channel: string, since: real, host: string): Flow -> bool {
    (r: Flow) => r.channelId == channel && r.time as real > since && r.packet.srcIp == host
  }

  function ReceivedBy(channel: string, since: real, host: string): Flow -> bool {
    (r: Flow) => r.channelId == channel && r.time as real > since && r.packet.dstIp == host
  }

  lemma RecentFigures(flows: seq<Flow>, channel: string, since: real, p: Flow -> bool, q: Flow -> bool)
    requires forall r :: r in flows ==> (q(r) <==> r.channelId == channel && r.time as real > since && p(r))
    ensures |Where(Recent(flows, channel, since), p)| == Tally(flows, q)
    ensures Sum(Where(Recent(flows, channel, since), p), Size()) == Sum(flows, BytesIf(q))
  {
    var rows := Recent(flows, channel, since);
    SumOnes(Where(rows, p), One());
    SumWhere(rows, p, One());
    SumWhere(rows, p, Size());
    SumOfWhere(flows, Since(channel, since), Only(p, One()), Only(q, One()));
    SumOfWhere(flows, Since(channel, since), Only(p, Size()), BytesIf(q));
    WhereTallies(flows, q, q);
    SumOnes(Where(flows, q), One());
    SumWhere(flows, q, One());
  }

  /** Both pages show, for a host of the channel, its recent packets in the table of all packets, and their bytes. */
  lemma PagesShowRecentPackets(flows: seq<Flow>, channel: string, since: real, host: string)
    requires Validated(flows) && host in HostsTable(Recent(flows, channel, since))
    ensures var rows := Recent(flows, channel, since);
            var row, details := HostsTable(rows)[host], HostDetails(rows, host);
            && row.tx == details.tx == Tally(flows, SentBy(channel, since, host))
            && row.rx == details.rx == Tally(flows, ReceivedBy(channel, since, host))
            && row.txBytes == Coalesce(details.txBytes) == Sum(flows, BytesIf(SentBy(channel, since, host)))
            && row.rxBytes == Coalesce(details.rxBytes) == Sum(flows, BytesIf(ReceivedBy(channel, since, host)))
  {
    var rows := Recent(flows, channel, since);
    WhereMembers(flows, Since(channel, since));
    TableMatchesDetails(rows, host);
    HostCounts(rows, host);
    HostBytes(rows, host);
    RecentFigures(flows, channel, since, From(host), SentBy(channel, since, host));
    RecentFigures(flows, channel, since, To(host), ReceivedBy(channel, since, host));
  }

  /** A recent packet with the host on the LAN side: it comes in for it or goes out from it; or on the WAN side. */
  function LanSide(host: string): Flow -> bool {
    (r: Flow) => if r.packet.direction == 0 then r.packet.dstIp == host else r.packet.srcIp == host
  }

  function WanSide(host: string): Flow -> bool {
    (r: Flow) => if r.packet.direction == 0 then r.packet.srcIp == host else r.packet.dstIp == host
  }

  function OneOn(side: Side): HostFlow -> int { (h: HostFlow) => if h.side == side then 1 else 0 }

  lemma SideCount(rows: seq<Flow>, host: string, side: Side, p: Flow -> bool)
    requires forall r :: r in rows ==>
               (if Lan(r).host == host then OneOn(side)(Lan(r)) else 0) + (if Wan(r).host == host then OneOn(side)(Wan(r)) else 0)
               == if p(r) then 1 else 0
    ensures |Where(HostGroup(rows, host), OnSide(side))| == Tally(rows, p)
  {
    var g := HostGroup(rows, host);
    SumOnes(Where(g, OnSide(side)), One());
    SumOfWhere(g, OnSide(side), One(), OneOn(side));
    HostTotal(rows, host, OneOn(side), p, One());
    SumOnes(Where(rows, p), One());
    WhereTallies(rows, p, p);
  }

  /** A host is shown on the LAN if and only if it is there in at least as many packets as on the WAN. */
  lemma LocationIsMajority(rows: seq<Flow>, host: string)
    requires host in HostsTable(rows)
    ensures HostsTable(rows)[host].location == LAN <==> Tally(rows, LanSide(host)) >= Tally(rows, WanSide(host))
  {
    SideCount(rows, host, LAN, LanSide(host));
    SideCount(rows, host, WAN, WanSide(host));
  }

  ghost function TxOf(table: map<string, HostRow>): string -> int { h => if h in table then table[h].tx else 0 }
  ghost function RxOf(table: map<string, HostRow>): string -> int { h => if h in table then table[h].rx else 0 }
  ghost function TxBytesOf(table: map<string, HostRow>): string -> int { h => if h in table then table[h].txBytes else 0 }
  ghost function RxBytesOf(table: map<string, HostRow>): string -> int { h => if h in table then table[h].rxBytes else 0 }

  lemma TableTotal(rows: seq<Flow>, w: HostFlow -> int, f: string -> int, v: Flow -> int)
    requires forall h :: h in HostsTable(rows) ==> f(h) == Sum(HostGroup(rows, h), w)
    requires forall r :: r in rows ==> w(Lan(r)) + w(Wan(r)) == v(r)
    ensures Total(HostsTable(rows).Keys, f) == Sum(rows, v)
  {
    AllGroupsAddUp(HostFlows(rows), Host(), w, f);
    assert HostsTable(rows).Keys == Keys(HostFlows(rows), Host());
    SumHostFlows(rows, w);
    SumSame(rows, Both(w), v);
  }

  /** Over all hosts, sent and received both add up to every packet once. */
  lemma SentEqualsReceived(rows: seq<Flow>)
    requires Validated(rows)
    ensures var table := HostsTable(rows);
            Total(table.Keys, TxOf(table)) == |rows| && Total(table.Keys, RxOf(table)) == |rows|
  {
    var table := HostsTable(rows);
    TableTotal(rows, IsTx(), TxOf(table), One());
    TableTotal(rows, IsRx(), RxOf(table), One());
    SumOnes(rows, One());
  }

  /** And to every byte once. */
  lemma BytesSentEqualReceived(rows: seq<Flow>)
    requires Validated(rows)
    ensures var table := HostsTable(rows);
            && Total(table.Keys, TxBytesOf(table)) == Sum(rows, Size())
            && Total(table.Keys, RxBytesOf(table)) == Sum(rows, Size())
  {
    var table := HostsTable(rows);
    TableTotal(rows, TxSize(), TxBytesOf(table), Size());
    TableTotal(rows, RxSize(), RxBytesOf(table), Size());
  }

  // ---- A host's top destinations and top ports ----

  predicate HasOnLan(r: Flow, host: string) {
    (r.packet.direction == 0 && r.packet.dstIp == host) || (r.packet.direction == 1 && r.packet.srcIp == host)
  }

  /** CASE without ELSE: NULL when the packet does not have the host on its LAN side. */
  function RemoteIpOf(r: Flow, host: string): Option<string> {
    if r.packet.direction == 0 && r.packet.dstIp == host then Some(r.packet.srcIp)
    else if r.packet.direction == 1 && r.packet.srcIp == host then Some(r.packet.dstIp)
    else None
  }

  function RemotePortOf(r: Flow, host: string): Option<int> {
    if r.packet.direction == 0 && r.packet.dstIp == host then Some(r.packet.srcPort)
    else if r.packet.direction == 1 && r.packet.srcIp == host then Some(r.packet.dstPort)
    else None
  }

  function RemoteSideOf(r: Flow, host: string): Side {
    if (r.packet.direction == 0 && Some(r.packet.srcIp) == RemoteIpOf(r, host))
       || (r.packet.direction == 1 && Some(r.packet.dstIp) == RemoteIpOf(r, host)) then WAN else LAN
  }

  function OnLan(host: string): Flow -> bool { (r: Flow) => HasOnLan(r, host) }
  function RemoteIp(host: string): Flow -> Option<string> { (r: Flow) => RemoteIpOf(r, host) }
  function PortOf(host: string): Flow -> (Option<int>, string) { (r: Flow) => (RemotePortOf(r, host), r.packet.protocol) }
  function HasRemoteIp(host: string): Flow -> bool { (r: Flow) => RemoteIpOf(r, host).Some? }
  function HasRemotePort(host: string): Flow -> bool { (r: Flow) => RemotePortOf(r, host).Some? }
  function IsSide(host: string, side: Side): Flow -> bool { (r: Flow) => RemoteSideOf(r, host) == side }

  datatype Destination = Destination(location: Side, received: int, bytes: int)
  datatype Port = Port(packets: int, portBytes: int)

  ghost function LocationOf(g: seq<Flow>, host: string): Side {
    if |Where(g, IsSide(host, LAN))| >= |Where(g, IsSide(host, WAN))| then LAN else WAN
  }

  ghost function TopDestinations(rows: seq<Flow>, host: string): map<Option<string>, Destination> {
    var own := Where(Where(rows, OnLan(host)), HasRemoteIp(host));
    map ip | ip in Keys(own, RemoteIp(host)) ::
      var g := Group(own, RemoteIp(host), ip); Destination(LocationOf(g, host), |g|, Sum(g, Size()))
  }

  ghost function TopPorts(rows: seq<Flow>, host: string): map<(Option<int>, string), Port> {
    var own := Where(Where(rows, OnLan(host)), HasRemotePort(host));
    map port | port in Keys(own, PortOf(host)) ::
      var g := Group(own, PortOf(host), port); Port(|g|, Sum(g, Size()))
  }

  ghost function ReceivedOf(t: map<Option<string>, Destination>): Option<string> -> int {
    k => if k in t then t[k].received else 0
  }
  ghost function DestinationBytes(t: map<Option<string>, Destination>): Option<string> -> int {
    k => if k in t then t[k].bytes else 0
  }
  ghost function PacketsOf(t: map<(Option<int>, string), Port>): ((Option<int>, string)) -> int {
    k => if k in t then t[k].packets else 0
  }
  ghost function PortBytesOf(t: map<(Option<int>, string), Port>): ((Option<int>, string)) -> int {
    k => if k in t then t[k].portBytes else 0
  }

  lemma GroupCounts<K>(rows: seq<Flow>, key: Flow -> K, f: K -> int)
    requires forall k :: k in Keys(rows, key) ==> f(k) == |Group(rows, key, k)|
    ensures Total(Keys(rows, key), f) == |rows|
  {
    forall k | k in Keys(rows, key) ensures f(k) == Sum(Group(rows, key, k), One()) {
      SumOnes(Group(rows, key, k), One());
    }
    AllGroupsAddUp(rows, key, One(), f);
    SumOnes(rows, One());
  }

  /** The NOT NULL filters of both queries let every packet of the host's LAN side through. */
  lemma NothingIsNull(rows: seq<Flow>, host: string, p: Flow -> bool)
    requires forall r :: HasOnLan(r, host) ==> p(r)
    ensures |Where(Where(rows, OnLan(host)), p)| == |Where(rows, OnLan(host))|
    ensures Sum(Where(Where(rows, OnLan(host)), p), Size()) == Sum(Where(rows, OnLan(host)), Size())
  {
    var own := Where(rows, OnLan(host));
    WhereMembers(rows, OnLan(host));
    SumWhere(own, p, One());
    SumSame(own, Only(p, One()), One());
    SumOnes(own, One());
    SumOnes(Where(own, p), One());
    SumWhere(own, p, Size());
    SumSame(own, Only(p, Size()), Size());
  }

  /** Destinations and ports are two groupings of the same packets, those with the host on the LAN side. */
  lemma DestinationsMatchPorts(rows: seq<Flow>, host: string)
    ensures var ips, ports := TopDestinations(rows, host), TopPorts(rows, host);
            && Total(ips.Keys, ReceivedOf(ips)) == |Where(rows, OnLan(host))|
            && Total(ports.Keys, PacketsOf(ports)) == |Where(rows, OnLan(host))|
  {
    var ips, ports := TopDestinations(rows, host), TopPorts(rows, host);
    NothingIsNull(rows, host, HasRemoteIp(host));
    NothingIsNull(rows, host, HasRemotePort(host));
    var own := Where(rows, OnLan(host));
    assert ips.Keys == Keys(Where(own, HasRemoteIp(host)), RemoteIp(host));
    assert ports.Keys == Keys(Where(own, HasRemotePort(host)), PortOf(host));
    GroupCounts(Where(own, HasRemoteIp(host)), RemoteIp(host), ReceivedOf(ips));
    GroupCounts(Where(own, HasRemotePort(host)), PortOf(host), PacketsOf(ports));
  }

  lemma DestinationBytesMatchPorts(rows: seq<Flow>, host: string)
    ensures var ips, ports := TopDestinations(rows, host), TopPorts(rows, host);
            && Total(ips.Keys, DestinationBytes(ips)) == Sum(Where(rows, OnLan(host)), Size())
            && Total(ports.Keys, PortBytesOf(ports)) == Sum(Where(rows, OnLan(host)), Size())
  {
    var ips, ports := TopDestinations(rows, host), TopPorts(rows, host);
    NothingIsNull(rows, host, HasRemoteIp(host));
    NothingIsNull(rows, host, HasRemotePort(host));
    var own := Where(rows, OnLan(host));
    assert ips.Keys == Keys(Where(own, HasRemoteIp(host)), RemoteIp(host));
    assert ports.Keys == Keys(Where(own, HasRemotePort(host)), PortOf(host));
    AllGroupsAddUp(Where(own, HasRemoteIp(host)), RemoteIp(host), Size(), DestinationBytes(ips));
    AllGroupsAddUp(Where(own, HasRemotePort(host)), PortOf(host), Size(), PortBytesOf(ports));
  }

  /** A packet that comes in for the host from the remote address, or goes out from it to that address. */
  function Exchanged(host: string, ip: string): Flow -> bool {
    (r: Flow) => || (r.packet.direction == 0 && r.packet.dstIp == host && r.packet.srcIp == ip)
                 || (r.packet.direction == 1 && r.packet.srcIp == host && r.packet.dstIp == ip)
  }

  /** The same for the remote port, with one protocol. */
  function OverPort(host: string, port: int, protocol: string): Flow -> bool {
    (r: Flow) => && r.packet.protocol == protocol
                 && (|| (r.packet.direction == 0 && r.packet.dstIp == host && r.packet.srcPort == port)
                     || (r.packet.direction == 1 && r.packet.srcIp == host && r.packet.dstPort == port))
  }

  /** Filtering twice and grouping selects the rows that pass all three. */
  lemma GroupFigures<K>(rows: seq<Flow>, p: Flow -> bool, q: Flow -> bool, key: Flow -> K, k: K, all: Flow -> bool)
    requires forall r :: r in rows ==> (all(r) <==> p(r) && q(r) && key(r) == k)
    ensures var own := Where(Where(rows, p), q);
            && |Group(own, key, k)| == Tally(rows, all) && Sum(Group(own, key, k), Size()) == Sum(rows, BytesIf(all))
            && (k in Keys(own, key) <==> exists r :: r in rows && all(r))
  {
    var own := Where(Where(rows, p), q);
    GroupSum3(rows, p, q, key, k, all, One());
    GroupSum3(rows, p, q, key, k, all, Size());
    SumOnes(Group(own, key, k), One());
    SumOnes(Where(rows, all), One());
    Counted(rows, all, all);
    WhereMembers(rows, p);
    WhereMembers(Where(rows, p), q);
    if r :| r in rows && all(r) {
      assert r in own && key(r) == k;
    }
  }

  lemma GroupSum3<K>(rows: seq<Flow>, p: Flow -> bool, q: Flow -> bool, key: Flow -> K, k: K, all: Flow -> bool,
                     w: Flow -> int)
    requires forall r :: r in rows ==> (all(r) <==> p(r) && q(r) && key(r) == k)
    ensures Sum(Group(Where(Where(rows, p), q), key, k), w) == Sum(Where(rows, all), w)
  {
    SumWhere(Where(Where(rows, p), q), Having(key, k), w);
    SumWhere(Where(rows, p), q, Only(Having(key, k), w));
    SumWhere(rows, p, Only(q, Only(Having(key, k), w)));
    SumWhere(rows, all, w);
    SumSame(rows, Only(p, Only(q, Only(Having(key, k), w))), Only(all, w));
  }

  /** Each destination is shown with the packets exchanged with it and their bytes, and it is shown if there are any. */
  lemma DestinationIsExact(rows: seq<Flow>, host: string, ip: string)
    ensures var t, q := TopDestinations(rows, host), Exchanged(host, ip);
            && (Some(ip) in t <==> exists r :: r in rows && q(r))
            && (Some(ip) in t ==> t[Some(ip)].received == Tally(rows, q) && t[Some(ip)].bytes == Sum(rows, BytesIf(q)))
  {
    GroupFigures(rows, OnLan(host), HasRemoteIp(host), RemoteIp(host), Some(ip), Exchanged(host, ip));
  }

  /** Each remote port, per protocol, likewise. */
  lemma PortIsExact(rows: seq<Flow>, host: string, port: int, protocol: string)
    ensures var t, q, k := TopPorts(rows, host), OverPort(host, port, protocol), (Some(port), protocol);
            && (k in t <==> exists r :: r in rows && q(r))
            && (k in t ==> t[k].packets == Tally(rows, q) && t[k].portBytes == Sum(rows, BytesIf(q)))
  {
    GroupFigures(rows, OnLan(host), HasRemotePort(host), PortOf(host), (Some(port), protocol), OverPort(host, port, protocol));
  }

  lemma OwnMembers(rows: seq<Flow>, host: string, r: Flow)
    ensures r in Where(Where(rows, OnLan(host)), HasRemoteIp(host)) <==> r in rows && HasOnLan(r, host)
  {
    WhereMembers(rows, OnLan(host));
    WhereMembers(Where(rows, OnLan(host)), HasRemoteIp(host));
  }

  lemma AllOnWan(g: seq<Flow>, host: string)
    requires g != [] && forall r :: r in g ==> HasOnLan(r, host)
    ensures LocationOf(g, host) == WAN
  {
    forall r | r in g ensures !IsSide(host, LAN)(r) && IsSide(host, WAN)(r) {
      assert HasOnLan(r, host);
    }
    WhereNone(g, IsSide(host, LAN));
    WhereMembers(g, IsSide(host, WAN));
    assert g[0] in Where(g, IsSide(host, WAN));
  }

  /** The LAN branch of the destination's location is never taken: every destination is reported as WAN. */
  lemma DestinationsAreWan(rows: seq<Flow>, host: string, ip: Option<string>)
    requires ip in TopDestinations(rows, host)
    ensures ip.Some? && TopDestinations(rows, host)[ip].location == WAN
  {
    var own := Where(Where(rows, OnLan(host)), HasRemoteIp(host));
    var g := Group(own, RemoteIp(host), ip);
    WhereMembers(own, Having(RemoteIp(host), ip));
    var r :| r in own && RemoteIp(host)(r) == ip;
    OwnMembers(rows, host, r);
    assert r in g;
    forall q | q in g ensures HasOnLan(q, host) {
      OwnMembers(rows, host, q);
    }
    AllOnWan(g, host);
  }

  /** The hosts table's unique destinations are the host's distinct peers, and include every top destination. */
  ghost function Peers(rows: seq<Flow>, host: string): set<string> {
    (set r | r in rows && To(host)(r) :: r.packet.srcIp) + (set r | r in rows && From(host)(r) :: r.packet.dstIp)
  }

  lemma {:induction false} HostFlowMembers(rows: seq<Flow>, h: HostFlow)
    ensures h in HostFlows(rows) <==> exists r :: r in rows && (h == Lan(r) || h == Wan(r))
  {
    if rows == [] {
    } else {
      var front, last := rows[..|rows| - 1], rows[|rows| - 1];
      HostFlowMembers(front, h);
      assert rows == front + [last];
      assert HostFlows(rows) == HostFlows(front) + [Lan(last), Wan(last)];
    }
  }

  lemma PeersAreCounted(rows: seq<Flow>, host: string)
    requires Validated(rows) && host in HostsTable(rows)
    ensures HostsTable(rows)[host].uniqueDestinations == |Peers(rows, host)|
  {
    var g := HostGroup(rows, host);
    WhereMembers(HostFlows(rows), Having(Host(), host));
    forall ip ensures ip in Keys(g, Remote()) <==> ip in Peers(rows, host) {
      PeerIsRemote(rows, host, ip);
    }
    assert Keys(g, Remote()) == Peers(rows, host);
  }

  lemma PeerIsRemote(rows: seq<Flow>, host: string, ip: string)
    requires Validated(rows)
    ensures ip in Keys(HostGroup(rows, host), Remote()) <==> ip in Peers(rows, host)
  {
    WhereMembers(HostFlows(rows), Having(Host(), host));
    if ip in Keys(HostGroup(rows, host), Remote()) {
      var h :| h in HostGroup(rows, host) && h.remote == ip;
      HostFlowMembers(rows, h);
    }
    if r :| r in rows && Links(r, host, ip) {
      LinkIsListed(rows, r, host, ip);
    }
  }

  predicate Links(r: Flow, host: string, ip: string) {
    (r.packet.dstIp == host && r.packet.srcIp == ip) || (r.packet.srcIp == host && r.packet.dstIp == ip)
  }

  lemma LinkIsListed(rows: seq<Flow>, r: Flow, host: string, ip: string)
    requires r in rows && Links(r, host, ip) && Validated(rows)
    ensures ip in Keys(HostGroup(rows, host), Remote())
  {
    WhereMembers(HostFlows(rows), Having(Host(), host));
    HostFlowMembers(rows, Lan(r));
    HostFlowMembers(rows, Wan(r));
    var h := if Lan(r).host == host && Lan(r).remote == ip then Lan(r) else Wan(r);
    assert h in HostGroup(rows, host) && Remote()(h) == ip;
  }

  lemma DestinationIsPeer(rows: seq<Flow>, host: string, ip: Option<string>)
    requires ip in TopDestinations(rows, host)
    ensures ip.Some? && ip.value in Peers(rows, host)
  {
    var r :| r in Where(Where(rows, OnLan(host)), HasRemoteIp(host)) && RemoteIp(host)(r) == ip;
    OwnMembers(rows, host, r);
    assert To(host)(r) || From(host)(r);
  }
}
