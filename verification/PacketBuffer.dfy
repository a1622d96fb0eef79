/** The capped Redis list between UDP ingestion and the `packet_flows` table, operation by operation. */
module PacketBuffer {
  import opened SetSums
  import opened Wrappers

  datatype Packet = Packet(direction: int, srcIp: string, dstIp: string, srcPort: int, dstPort: int,
                           protocol: string, size: int)

  datatype Batch = Batch(channelId: string, timestamp: int, packets: seq<Packet>)

  /** A row of `packet_flows`. */
  datatype Flow = Flow(time: int, channelId: string, packet: Packet)

  /** A `time` member: an ISO 8601 timestamp, a text `fromisoformat` cannot read, or a JSON value that is no text. */
  datatype TimeValue = Iso(epoch: int) | NotIso | NotText

  /** An element of the list: a JSON object whose members may be missing, or text that is no JSON object. */
  datatype Record = Garbage
                  | Record(time: Option<TimeValue>, channelId: Option<string>, direction: Option<int>,
                           srcIp: Option<string>, dstIp: Option<string>, srcPort: Option<int>, dstPort: Option<int>,
                           protocol: Option<string>, size: Option<int>)

  function Serialize(b: Batch, p: Packet): Record {
    Record(Some(Iso(b.timestamp)), Some(b.channelId), Some(p.direction), Some(p.srcIp), Some(p.dstIp), Some(p.srcPort),
           Some(p.dstPort), Some(p.protocol), Some(p.size))
  }

  /**
   * Undecodable text, missing members and a time that is no text (a TypeError) are caught per record; the ValueError of a
   * text that is not ISO 8601 is not.
   */
  datatype Parsed = Row(flow: Flow) | Skipped | Raised

  function Parse(r: Record): Parsed {
    if r.Garbage? || r.time.None? || r.time.value.NotText? then Skipped
    else if r.time.value.NotIso? then Raised
    else if r.channelId.None? || r.direction.None? || r.srcIp.None? || r.dstIp.None? || r.srcPort.None? || r.dstPort.None?
    then Skipped
    else Row(Flow(r.time.value.epoch, r.channelId.value,
      Packet(r.direction.value, r.srcIp.value, r.dstIp.value, r.srcPort.value, r.dstPort.value,
             if r.protocol.Some? then r.protocol.value else "UNKNOWN",
             if r.size.Some? then r.size.value else 0)))
  }

  function Records(b: Batch): (rs: seq<Record>)
    ensures |rs| == |b.packets| && forall i :: 0 <= i < |rs| ==> rs[i] == Serialize(b, b.packets[i])
  {
    seq(|b.packets|, i requires 0 <= i < |b.packets| => Serialize(b, b.packets[i]))
  }

  /** The rows a popped list gives; a record that raises takes all of them down. */
  function ParseAll(rs: seq<Record>): Option<seq<Flow>> {
    if rs == [] then Some([]) else
    match ParseAll(rs[..|rs| - 1])
    case None => None
    case Some(flows) =>
      match Parse(rs[|rs| - 1]) case Row(flow) => Some(flows + [flow]) case Skipped => Some(flows) case Raised => None
  }

  function Rows(rs: seq<Record>): seq<Flow> {
    match ParseAll(rs) case None => [] case Some(flows) => flows
  }

  /** What goes through the buffer comes out unchanged: time, channel and every packet field, in order. */
  lemma {:induction false} FlowsSurvive(b: Batch, n: nat)
    requires n <= |b.packets|
    ensures var flows := Rows(Records(b)[..n]);
            ParseAll(Records(b)[..n]).Some? && |flows| == n &&
            forall i :: 0 <= i < n ==> flows[i] == Flow(b.timestamp, b.channelId, b.packets[i])
  {
    if n == 0 {
    } else {
      FlowsSurvive(b, n - 1);
      assert Records(b)[..n][..n - 1] == Records(b)[..n - 1];
    }
  }

  /** A list is lost whole exactly when one of its records has a text as its time that is not ISO 8601. */
  lemma {:induction false} LostWhole(rs: seq<Record>)
    ensures ParseAll(rs).None? <==> exists r :: r in rs && r.Record? && r.time == Some(NotIso)
  {
    if rs == [] {
    } else {
      LostWhole(rs[..|rs| - 1]);
      assert rs == rs[..|rs| - 1] + [rs[|rs| - 1]];
    }
  }

  lemma {:induction false} ParseAppends(a: seq<Record>, b: seq<Record>)
    ensures ParseAll(a + b)
            == if ParseAll(a).None? || ParseAll(b).None? then None else Some(ParseAll(a).value + ParseAll(b).value)
    decreases |b|
  {
    if b == [] {
      assert a + b == a;
      assert ParseAll(a).Some? ==> ParseAll(a).value + [] == ParseAll(a).value;
    } else {
      var front, last := b[..|b| - 1], b[|b| - 1];
      ParseAppends(a, front);
      assert a + b == a + front + [last] && (a + b)[..|a + b| - 1] == a + front;
      if ParseAll(a).Some? && ParseAll(b).Some? && Parse(last).Row? {
        var rows, flow := ParseAll(front).value, Parse(last).flow;
        assert ParseAll(a).value + rows + [flow] == ParseAll(a).value + (rows + [flow]);
      }
    }
  }

  /** An object with an ISO time and its six required members. */
  predicate IsReadable(r: Record) {
    && r.Record? && r.time.Some? && r.time.value.Iso?
    && r.channelId != None && r.direction != None
    && r.srcIp != None && r.srcPort != None && r.dstIp != None && r.dstPort != None
  }

  /**
   * Any one record, wherever it stands in the list: a readable one adds exactly its own row, with protocol UNKNOWN or
   * size 0 if it has none; a text time that is not ISO 8601 loses the list; any other record changes nothing.
   */
  lemma RecordAddsItsRow(a: seq<Record>, r: Record, b: seq<Record>)
    ensures IsReadable(r) && ParseAll(a + b).Some? ==>
              exists flow :: Rows(a + [r] + b) == Rows(a) + [flow] + Rows(b)
                && r.time == Some(Iso(flow.time)) && r.channelId == Some(flow.channelId)
                && r.direction == Some(flow.packet.direction)
                && r.srcIp == Some(flow.packet.srcIp) && r.srcPort == Some(flow.packet.srcPort)
                && r.dstIp == Some(flow.packet.dstIp) && r.dstPort == Some(flow.packet.dstPort)
                && (r.protocol == Some(flow.packet.protocol) || (r.protocol == None && flow.packet.protocol == "UNKNOWN"))
                && (r.size == Some(flow.packet.size) || (r.size == None && flow.packet.size == 0))
    ensures r.Record? && r.time == Some(NotIso) ==> Rows(a + [r] + b) == []
    ensures !IsReadable(r) && !(r.Record? && r.time == Some(NotIso)) ==> Rows(a + [r] + b) == Rows(a + b)
  {
    ParseAppends(a + [r], b);
    ParseAppends(a, [r]);
    ParseAppends(a, b);
    assert [r][..0] == [] && ParseAll([]) == Some([]);
    if IsReadable(r) {
      assert [] + [Parse(r).flow] == [Parse(r).flow];
      assert ParseAll([r]) == Some([Parse(r).flow]);
    } else if r.Record? && r.time == Some(NotIso) {
      assert ParseAll([r]) == None;
    } else {
      assert ParseAll([r]) == Some([]);
      assert ParseAll(a).Some? ==> ParseAll(a).value + [] == ParseAll(a).value;
    }
  }

  // ---- The list commands ----

  function Reverse<T>(s: seq<T>): (r: seq<T>)
    ensures |r| == |s| && forall i :: 0 <= i < |s| ==> r[i] == s[|s| - 1 - i]
  {
    seq(|s|, i requires 0 <= i < |s| => s[|s| - 1 - i])
  }

  /** LPUSH puts its arguments at the head one by one. */
  function LPush<T>(list: seq<T>, items: seq<T>): seq<T> {
    Reverse(items) + list
  }

  /** LTRIM start stop: indices from the end are negative, out-of-range ones are clamped. */
  function LTrim<T>(list: seq<T>, start: int, stop: int): seq<T> {
    var lo := if start < 0 then start + |list| else start;
    var hi := if stop < 0 then stop + |list| else stop;
    var lo' := if lo < 0 then 0 else lo;
    var hi' := if hi >= |list| then |list| - 1 else hi;
    if lo' > hi' then [] else list[lo'..hi' + 1]
  }

  /** LTRIM keeps the stretch from start to stop, both counted from the end if negative, as far as it lies in the list. */
  lemma LTrimIsStretch<T>(list: seq<T>, start: int, stop: int)
    ensures var n := |list|;
            var from, to := if start < 0 then n + start else start, if stop < 0 then n + stop else stop;
            if from > to || from >= n || to < 0 then LTrim(list, start, stop) == []
            else LTrim(list, start, stop) == list[if from < 0 then 0 else from..if to < n then to + 1 else n]
  {}

  // ---- One push against the history of accepted records ----

  function Pushed<T>(list: seq<T>, items: seq<T>, cap: int): seq<T> {
    if items == [] then list
    else if |list| + |items| > cap then
      var keep := cap - |items|;
      if keep < 0 then list else LPush(LTrim(list, 0, keep - 1), items)
    else LPush(list, items)
  }

  /** The specification: the newest records first, as many as fit. */
  function Newest<T>(history: seq<T>, cap: nat): seq<T> {
    Reverse(history)[..if cap < |history| then cap else |history|]
  }

  /**
   * A push onto the newest `cap` records of a history gives the newest `cap` of the longer history, except
   * in one case: a batch of exactly `cap` on a non-empty list, where LTRIM 0 -1 keeps everything.
   * Larger batches leave the list unchanged.
   */
  lemma PushRefinesHistory<T>(history: seq<T>, items: seq<T>, cap: nat)
    requires cap > 0
    ensures var list := Newest(history, cap);
            && (|items| > cap ==> Pushed(list, items, cap) == list)
            && (|items| <= cap ==>
                  (Pushed(list, items, cap) == Newest(history + items, cap) <==> !(|items| == cap && list != [])))
            && (|items| == cap && list != [] ==> |Pushed(list, items, cap)| == cap + |list|)
  {
    var list := Newest(history, cap);
    if items == [] {
      assert history + items == history;
    } else if |items| < cap {
      assert Reverse(history + items) == Reverse(items) + Reverse(history);
      assert Pushed(list, items, cap) == Newest(history + items, cap);
    } else if |items| == cap {
      assert Reverse(history + items) == Reverse(items) + Reverse(history);
      assert LTrim(list, 0, -1) == list;
      assert list == [] ==> Pushed(list, items, cap) == Newest(history + items, cap);
    }
  }

  /** The list never outgrows its cap in one push exactly when that case is avoided. */
  lemma PushKeepsCap<T>(list: seq<T>, items: seq<T>, cap: nat)
    requires |list| <= cap
    ensures |Pushed(list, items, cap)| <= cap <==> !(|items| == cap && cap > 0 && list != [])
  {}

  // ---- Serial runs ----

  datatype Event<T> = Push(items: seq<T>) | Pop

  function Buffer<T>(events: seq<Event<T>>, cap: int): seq<T> {
    if events == [] then [] else
    var before := Buffer(events[..|events| - 1], cap);
    match events[|events| - 1] case Push(items) => Pushed(before, items, cap) case Pop => []
  }

  /** Everything accepted since the last pop, oldest first. */
  function Accepted<T>(events: seq<Event<T>>, cap: int): seq<T> {
    if events == [] then [] else
    var before := Accepted(events[..|events| - 1], cap);
    match events[|events| - 1] case Push(items) => if |items| > cap then before else before + items case Pop => []
  }

  /** In every serial run without a batch of exactly the cap, the list is the newest `cap` accepted records. */
  lemma {:induction false} BufferIsNewest<T>(events: seq<Event<T>>, cap: nat)
    requires cap > 0
    requires forall i :: 0 <= i < |events| && events[i].Push? ==> |events[i].items| != cap
    ensures Buffer(events, cap) == Newest(Accepted(events, cap), cap)
  {
    if events == [] {
    } else {
      var front, last := events[..|events| - 1], events[|events| - 1];
      BufferIsNewest(front, cap);
      if last.Push? {
        PushRefinesHistory(Accepted(front, cap), last.items, cap);
      }
    }
  }

  // ---- The classes ----

  class Redis {
    var buffers: map<string, seq<Record>>

    constructor ()
      ensures buffers == map[]
    {
      buffers := map[];
    }

    function List(channel: string): seq<Record>
      reads this
    {
      ListOf(buffers, channel)
    }
  }

  function ListOf(buffers: map<string, seq<Record>>, channel: string): seq<Record> {
    if channel in buffers then buffers[channel] else []
  }

  class BufferManager {
    const redis: Redis
    const maxLen: int

    constructor (redis: Redis, maxLen: int)
      ensures this.redis == redis && this.maxLen == maxLen
    {
      this.redis, this.maxLen := redis, maxLen;
    }

    method PushPackets(batch: Batch)
      modifies redis
      ensures redis.List(batch.channelId) == Pushed(old(redis.List(batch.channelId)), Records(batch), maxLen)
      ensures forall ch :: ch != batch.channelId ==> redis.List(ch) == old(redis.List(ch))
    {
      if batch.packets == [] { return; }
      var key := batch.channelId;
      var serialized: seq<Record> := [];
      for i := 0 to |batch.packets|
        invariant serialized == Records(batch)[..i]
      {
        serialized := serialized + [Serialize(batch, batch.packets[i])];
      }
      assert serialized == Records(batch);
      var currentLen := |redis.List(key)|;
      if currentLen + |serialized| > maxLen {
        var keepCount := maxLen - |serialized|;
        if keepCount < 0 { return; }
        redis.buffers := redis.buffers[key := LTrim(redis.List(key), 0, keepCount - 1)];
      }
      redis.buffers := redis.buffers[key := LPush(redis.List(key), serialized)];
    }
  }

  class FlowTable {
    var rows: seq<Flow>

    constructor ()
      ensures rows == []
    {
      rows := [];
    }
  }

  class BackgroundFlusher {
    const redis: Redis
    const table: FlowTable
    var activeChannels: set<string>

    constructor (redis: Redis, table: FlowTable)
      ensures this.redis == redis && this.table == table && activeChannels == {}
    {
      this.redis, this.table, activeChannels := redis, table, {};
    }

    method RegisterChannel(channel: string)
      modifies this`activeChannels
      ensures activeChannels == old(activeChannels) + {channel}
    {
      activeChannels := activeChannels + {channel};
    }

    /** Pops the whole list, then inserts what can be parsed; what a failing insert held is gone. */
    method FlushChannel(channel: string, insertOk: bool)
      modifies redis, table
      ensures redis.List(channel) == [] && forall ch :: ch != channel ==> redis.List(ch) == old(redis.List(ch))
      ensures table.rows == old(table.rows) + if insertOk then Rows(old(redis.List(channel))) else []
    {
      var rawItems := redis.List(channel);
      if |rawItems| > 0 {
        redis.buffers := redis.buffers - {channel};
      }
      if |rawItems| == 0 { return; }
      var parsed: seq<Flow> := [];
      for i := 0 to |rawItems|
        invariant ParseAll(rawItems[..i]) == Some(parsed)
      {
        assert rawItems[..i + 1][..i] == rawItems[..i];
        match Parse(rawItems[i])
        case Skipped =>
        case Row(flow) => parsed := parsed + [flow];
        case Raised =>
          RaisedIsFinal(rawItems, i + 1);
          return;
      }
      assert rawItems[..|rawItems|] == rawItems;
      if parsed == [] { return; }
      if insertOk {
        table.rows := table.rows + parsed;
      }
    }

    /** A fault-free pass: every registered list ends up empty, and exactly its records in the table. */
    method FlushAllChannels()
      modifies redis, table
      ensures forall ch :: redis.List(ch) == if ch in activeChannels then [] else old(redis.List(ch))
      ensures multiset(table.rows) == multiset(old(table.rows)) + Gather(activeChannels, FlowsOf(old(redis.buffers)))
    {
      ghost var buffers, rows := redis.buffers, table.rows;
      var todo := activeChannels;
      GatherNone(activeChannels, FlowsOf(buffers));
      while todo != {}
        invariant todo <= activeChannels
        invariant forall ch :: redis.List(ch) == if ch in activeChannels - todo then [] else ListOf(buffers, ch)
        invariant multiset(table.rows) == multiset(rows) + Gather(activeChannels - todo, FlowsOf(buffers))
        decreases todo
      {
        var channel :| channel in todo;
        ghost var before := table.rows;
        FlushChannel(channel, true);
        FlushedOneMore(activeChannels, todo, channel, buffers, rows, before);
        todo := todo - {channel};
      }
    }
  }

  lemma FlushedOneMore(all: set<string>, todo: set<string>, ch: string, buffers: map<string, seq<Record>>,
                       rows: seq<Flow>, before: seq<Flow>)
    requires ch in todo && todo <= all
    requires multiset(before) == multiset(rows) + Gather(all - todo, FlowsOf(buffers))
    ensures multiset(before + Rows(ListOf(buffers, ch)))
            == multiset(rows) + Gather(all - (todo - {ch}), FlowsOf(buffers))
  {
    GatherStep(all, todo, ch, FlowsOf(buffers));
  }

  lemma {:induction false} RaisedIsFinal(rs: seq<Record>, n: nat)
    requires n <= |rs| && ParseAll(rs[..n]).None?
    ensures ParseAll(rs).None?
    decreases |rs| - n
  {
    if n == |rs| {
      assert rs[..n] == rs;
    } else {
      assert rs[..n + 1][..n] == rs[..n];
      RaisedIsFinal(rs, n + 1);
    }
  }

  /** The flows a channel's list holds. */
  ghost function FlowsOf(buffers: map<string, seq<Record>>): string -> multiset<Flow> {
    ch => multiset(Rows(ListOf(buffers, ch)))
  }
}
