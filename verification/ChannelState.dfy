/** Channel activity: the Redis state hash with its TTL, the syncer, and the `channels` table, on one clock. */
module ChannelState {
  import opened Wrappers
  import opened SequenceTracking

  const STATE_KEY_TTL := 6_000         // milliseconds
  const ACTIVITY_TIMEOUT := 5_000

  /** channel:state:{channel}; both fields may be missing. */
  datatype StateHash = StateHash(dropped: Option<nat>, activity: Option<int>, expires: int)

  /** A row of `channels`. */
  datatype Row = Row(active: bool, dropped: nat, activity: Option<int>)

  /** `batches` remembers, for each channel, when its last non-empty batch arrived. */
  datatype World = World(now: int, keys: map<string, StateHash>, rows: map<string, Row>, batches: map<string, int>)

  predicate Live(keys: map<string, StateHash>, now: int, ch: string) {
    ch in keys && now < keys[ch].expires
  }

  // ---- What ingestion does to a state hash ----

  /** HINCRBY if there were drops, HSET if there were packets, EXPIRE always; none of them exists on its own. */
  function HashAfterBatch(keys: map<string, StateHash>, now: int, ttl: int, ch: string, drops: nat, packets: bool)
    : map<string, StateHash>
  {
    var live := Live(keys, now, ch);
    var dropped := if live then keys[ch].dropped else None;
    var activity := if live then keys[ch].activity else None;
    if !live && drops == 0 && !packets then keys - {ch} else
    keys[ch := StateHash(
      if drops > 0 then Some((if dropped.Some? then dropped.value else 0) + drops) else dropped,
      if packets then Some(now) else activity,
      now + ttl)]
  }

  // ---- What a sync cycle does ----

  /** The Lua script: the pending drops, and the hash with the counter back at zero. */
  function Pending(h: StateHash): nat {
    if h.dropped.Some? then h.dropped.value else 0
  }

  function Reset(h: StateHash): StateHash {
    if Pending(h) == 0 then h else h.(dropped := Some(0))
  }

  function Upsert(rows: map<string, Row>, ch: string, active: bool, delta: nat, activity: Option<int>)
    : map<string, Row>
  {
    rows[ch := if ch in rows
               then Row(active, rows[ch].dropped + delta, if activity.Some? then activity else rows[ch].activity)
               else Row(active, delta, activity)]
  }

  predicate TimedOut(row: Row, now: int, timeout: int) {
    row.active && row.activity.Some? && row.activity.value < now - timeout
  }

  function Deactivate(row: Row, now: int, timeout: int): Row {
    if TimedOut(row, now, timeout) then row.(active := false) else row
  }

  /** A row after the channels in `chs` have been synced. */
  function SyncedKeys(keys: map<string, StateHash>, chs: set<string>): map<string, StateHash> {
    map ch | ch in keys :: if ch in chs then Reset(keys[ch]) else keys[ch]
  }

  function SyncedRows(keys: map<string, StateHash>, rows: map<string, Row>, chs: set<string>): map<string, Row>
    requires chs <= keys.Keys
  {
    map ch | ch in rows.Keys + chs ::
      if ch in chs then Upsert(rows, ch, true, Pending(keys[ch]), keys[ch].activity)[ch] else rows[ch]
  }

  function LiveChannels(keys: map<string, StateHash>, now: int): set<string> {
    set ch | ch in keys && Live(keys, now, ch)
  }

  function Cycle(w: World, timeout: int): World {
    var chs := LiveChannels(w.keys, w.now);
    var synced := SyncedRows(w.keys, w.rows, chs);
    w.(keys := SyncedKeys(w.keys, chs), rows := map ch | ch in synced :: Deactivate(synced[ch], w.now, timeout))
  }

  // ---- Runs ----

  datatype Event =
    | Tick(ms: nat)
    | Batch(ch: string, drops: nat, packets: bool)
    | Sync

  function Apply(w: World, e: Event, ttl: int, timeout: int): World {
    match e
    case Tick(ms) => w.(now := w.now + ms)
    case Batch(ch, drops, packets) =>
      w.(keys := HashAfterBatch(w.keys, w.now, ttl, ch, drops, packets),
         batches := if packets then w.batches[ch := w.now] else w.batches)
    case Sync => Cycle(w, timeout)
  }

  function Run(events: seq<Event>, ttl: int, timeout: int): World {
    if events == [] then World(0, map[], map[], map[])
    else Apply(Run(events[..|events| - 1], ttl, timeout), events[|events| - 1], ttl, timeout)
  }

  /** What holds of every channel in every reachable world. */
  predicate ChannelInv(w: World, ch: string, ttl: int) {
    && (ch in w.batches ==> w.batches[ch] <= w.now)
    && (Live(w.keys, w.now, ch) && w.keys[ch].activity.Some? ==>
          ch in w.batches && w.keys[ch].activity.value == w.batches[ch])
    && (ch in w.batches && w.now < w.batches[ch] + ttl ==>
          Live(w.keys, w.now, ch) && w.keys[ch].activity.Some? && w.keys[ch].expires >= w.batches[ch] + ttl)
    && (ch in w.rows && w.rows[ch].activity.Some? ==>
          ch in w.batches && w.rows[ch].activity.value <= w.batches[ch])
    && (ch in w.rows && w.rows[ch].activity.None? ==> w.rows[ch].active)
  }

  ghost predicate Inv(w: World, ttl: int) {
    forall ch :: ChannelInv(w, ch, ttl)
  }

  lemma StepKeepsChannel(w: World, e: Event, ch: string, ttl: int, timeout: int)
    requires ChannelInv(w, ch, ttl)
    ensures ChannelInv(Apply(w, e, ttl, timeout), ch, ttl)
  {}

  lemma StepKeepsInv(w: World, e: Event, ttl: int, timeout: int)
    requires Inv(w, ttl)
    ensures Inv(Apply(w, e, ttl, timeout), ttl)
  {
    forall ch ensures ChannelInv(Apply(w, e, ttl, timeout), ch, ttl) {
      assert ChannelInv(w, ch, ttl);
      StepKeepsChannel(w, e, ch, ttl, timeout);
    }
  }

  lemma {:induction false} RunKeepsInv(events: seq<Event>, ttl: int, timeout: int)
    ensures Inv(Run(events, ttl, timeout), ttl)
  {
    if events == [] {
    } else {
      RunKeepsInv(events[..|events| - 1], ttl, timeout);
      StepKeepsInv(Run(events[..|events| - 1], ttl, timeout), events[|events| - 1], ttl, timeout);
    }
  }

  // ---- Where the drops are ----

  /** The drops of a channel's batches. */
  function Counted(events: seq<Event>, ch: string): nat {
    if events == [] then 0 else
    var front, e := events[..|events| - 1], events[|events| - 1];
    Counted(front, ch) + if e.Batch? && e.ch == ch then e.drops else 0
  }

  function InRow(w: World, ch: string): nat { if ch in w.rows then w.rows[ch].dropped else 0 }

  /** What waits in a hash that has not lapsed. */
  function InHash(w: World, ch: string): nat {
    if Live(w.keys, w.now, ch) && w.keys[ch].dropped.Some? then w.keys[ch].dropped.value else 0
  }

  /** What was waiting in the channel's hash each time it lapsed. */
  function Lapsed(events: seq<Event>, ttl: int, timeout: int, ch: string): nat {
    if events == [] then 0 else
    var front, e := events[..|events| - 1], events[|events| - 1];
    var w, w' := Run(front, ttl, timeout), Run(events, ttl, timeout);
    Lapsed(front, ttl, timeout, ch) + if Live(w.keys, w.now, ch) && !Live(w'.keys, w'.now, ch) then InHash(w, ch) else 0
  }

  lemma StepMovesDrops(w: World, e: Event, ttl: int, timeout: int, ch: string)
    requires ttl > 0
    ensures var w' := Apply(w, e, ttl, timeout);
            InRow(w', ch) + InHash(w', ch) + (if Live(w.keys, w.now, ch) && !Live(w'.keys, w'.now, ch) then InHash(w, ch) else 0)
            == InRow(w, ch) + InHash(w, ch) + if e.Batch? && e.ch == ch then e.drops else 0
  {}

  /** In every run: the drops of a channel's batches are in its row, waiting in its hash, or gone with a lapsed hash. */
  lemma {:induction false} DropsAddUp(events: seq<Event>, ttl: int, timeout: int, ch: string)
    requires ttl > 0
    ensures var w := Run(events, ttl, timeout);
            Counted(events, ch) == InRow(w, ch) + InHash(w, ch) + Lapsed(events, ttl, timeout, ch)
  {
    if events == [] {
    } else {
      DropsAddUp(events[..|events| - 1], ttl, timeout, ch);
      StepMovesDrops(Run(events[..|events| - 1], ttl, timeout), events[|events| - 1], ttl, timeout, ch);
    }
  }

  lemma SyncEmpties(w: World, timeout: int, ch: string)
    ensures InHash(Cycle(w, timeout), ch) == 0
  {}

  /** Right after a sync a channel whose hash never lapsed with drops has all of them in its row. */
  lemma SyncedRowIsTheSum(events: seq<Event>, ttl: int, timeout: int, ch: string)
    requires ttl > 0
    ensures InRow(Run(events + [Sync], ttl, timeout), ch) + Lapsed(events, ttl, timeout, ch) == Counted(events, ch)
  {
    RunSnoc(events, Sync, ttl, timeout);
    DropsAddUp(events + [Sync], ttl, timeout, ch);
    SyncEmpties(Run(events, ttl, timeout), timeout, ch);
    assert (events + [Sync])[..|events|] == events;
  }

  // ---- When a hash is there ----

  /** The instant of the last batch that created or extended the channel's hash. */
  function LastTouch(events: seq<Event>, ttl: int, timeout: int, ch: string): Option<int> {
    if events == [] then None else
    var front, e := events[..|events| - 1], events[|events| - 1];
    var before := LastTouch(front, ttl, timeout, ch);
    var now := Run(front, ttl, timeout).now;
    if e.Batch? && e.ch == ch && (e.drops > 0 || e.packets || (before.Some? && now < before.value + ttl)) then Some(now)
    else before
  }

  /** A hash is there until exactly the TTL after that batch: an empty batch extends it but does not create it. */
  lemma {:induction false} LiveUntilTtl(events: seq<Event>, ttl: int, timeout: int, ch: string)
    ensures var w, last := Run(events, ttl, timeout), LastTouch(events, ttl, timeout, ch);
            && (Live(w.keys, w.now, ch) <==> last.Some? && w.now < last.value + ttl)
            && (ch in w.keys && last.Some? ==> w.keys[ch].expires == last.value + ttl)
            && (last.None? ==> ch !in w.keys)
  {
    if events == [] {
    } else {
      LiveUntilTtl(events[..|events| - 1], ttl, timeout, ch);
    }
  }

  // ---- What date a row has ----

  /** The last batch with packets in the hash that is there. */
  function HashDate(events: seq<Event>, ttl: int, timeout: int, ch: string): Option<int> {
    if events == [] then None else
    var front, e := events[..|events| - 1], events[|events| - 1];
    var w, w' := Run(front, ttl, timeout), Run(events, ttl, timeout);
    if e.Batch? && e.ch == ch && e.packets then Some(w.now)
    else if Live(w.keys, w.now, ch) && Live(w'.keys, w'.now, ch) then HashDate(front, ttl, timeout, ch)
    else None
  }

  /** The date that the last sync which found one in the hash took over; syncs that found none keep it. */
  function RowDate(events: seq<Event>, ttl: int, timeout: int, ch: string): Option<int> {
    if events == [] then None else
    var front, e := events[..|events| - 1], events[|events| - 1];
    var w := Run(front, ttl, timeout);
    if e.Sync? && Live(w.keys, w.now, ch) && HashDate(front, ttl, timeout, ch).Some? then HashDate(front, ttl, timeout, ch)
    else RowDate(front, ttl, timeout, ch)
  }

  predicate IsSynced(events: seq<Event>, ttl: int, timeout: int, ch: string) {
    events != [] &&
    var front, e := events[..|events| - 1], events[|events| - 1];
    var w := Run(front, ttl, timeout);
    IsSynced(front, ttl, timeout, ch) || (e.Sync? && Live(w.keys, w.now, ch))
  }

  predicate IsDated(w: World, ch: string, inHash: Option<int>, inRow: Option<int>, isSynced: bool) {
    && (Live(w.keys, w.now, ch) ==> w.keys[ch].activity == inHash)
    && (ch in w.rows <==> isSynced) && (ch in w.rows ==> w.rows[ch].activity == inRow) && (ch !in w.rows ==> inRow.None?)
  }

  lemma StepDates(w: World, e: Event, ttl: int, timeout: int, ch: string, inHash: Option<int>, inRow: Option<int>,
                  isSynced: bool)
    requires IsDated(w, ch, inHash, inRow, isSynced)
    ensures var w' := Apply(w, e, ttl, timeout);
            IsDated(w', ch,
                    if e.Batch? && e.ch == ch && e.packets then Some(w.now)
                    else if Live(w.keys, w.now, ch) && Live(w'.keys, w'.now, ch) then inHash else None,
                    if e.Sync? && Live(w.keys, w.now, ch) && inHash.Some? then inHash else inRow,
                    isSynced || (e.Sync? && Live(w.keys, w.now, ch)))
  {}

  /** In every run: a channel has a row once a sync found its hash, with the date of the last batch with packets it took over. */
  lemma {:induction false} RowIsDated(events: seq<Event>, ttl: int, timeout: int, ch: string)
    ensures IsDated(Run(events, ttl, timeout), ch, HashDate(events, ttl, timeout, ch), RowDate(events, ttl, timeout, ch),
                    IsSynced(events, ttl, timeout, ch))
  {
    if events == [] {
    } else {
      var front := events[..|events| - 1];
      RowIsDated(front, ttl, timeout, ch);
      StepDates(Run(front, ttl, timeout), events[|events| - 1], ttl, timeout, ch, HashDate(front, ttl, timeout, ch),
                RowDate(front, ttl, timeout, ch), IsSynced(front, ttl, timeout, ch));
    }
  }

  /** The table agrees with the traffic: dated rows are active exactly while their last packets are recent. */
  predicate Agrees(w: World, timeout: int) {
    forall ch :: ch in w.rows ==>
      (w.rows[ch].active <==>
        w.rows[ch].activity.None? || (ch in w.batches && w.now - w.batches[ch] <= timeout))
  }

  /** Right after a cycle, in any run, provided the key outlives the timeout. */
  lemma CycleAgrees(events: seq<Event>, ttl: int, timeout: int)
    requires ttl > timeout
    ensures Agrees(Run(events + [Sync], ttl, timeout), timeout)
  {
    var w := Run(events, ttl, timeout);
    assert (events + [Sync])[..|events|] == events;
    RunKeepsInv(events, ttl, timeout);
    assert forall ch :: ch in w.rows || ch in w.keys ==> ChannelInv(w, ch, ttl);
  }

  /** The two constants of the platform meet the condition. */
  lemma PlatformAgrees(events: seq<Event>)
    ensures STATE_KEY_TTL == 6_000 && ACTIVITY_TIMEOUT == 5_000
    ensures Agrees(Run(events + [Sync], STATE_KEY_TTL, ACTIVITY_TIMEOUT), ACTIVITY_TIMEOUT)
  {
    CycleAgrees(events, STATE_KEY_TTL, ACTIVITY_TIMEOUT);
  }

  ghost predicate AlwaysAgrees(ttl: int, timeout: int) {
    forall events :: Agrees(Run(events + [Sync], ttl, timeout), timeout)
  }

  /** The run that a shorter key falls for: the second batch is recent but its key is already gone. */
  function ShortKeyRun(timeout: nat): seq<Event> {
    [Batch("ch", 0, true), Sync] + [Tick(timeout + 1)] + [Batch("ch", 0, true)] + [Tick(timeout)]
  }

  lemma RunSnoc(events: seq<Event>, e: Event, ttl: int, timeout: int)
    ensures Run(events + [e], ttl, timeout) == Apply(Run(events, ttl, timeout), e, ttl, timeout)
  {}

  lemma ShortKeyFirstCycle(ttl: int, timeout: nat)
    requires 0 < ttl
    ensures Run([Batch("ch", 0, true), Sync], ttl, timeout) ==
            World(0, map["ch" := StateHash(None, Some(0), ttl)], map["ch" := Row(true, 0, Some(0))], map["ch" := 0])
  {
    var b := Batch("ch", 0, true);
    RunSnoc([], b, ttl, timeout);
    RunSnoc([b], Sync, ttl, timeout);
    assert [] + [b] == [b] && [b] + [Sync] == [b, Sync];
    ShortCycle(Run([b], ttl, timeout), timeout);
  }

  lemma ShortKeySecondBatch(ttl: int, timeout: nat)
    requires 0 < ttl <= timeout
    ensures Run(ShortKeyRun(timeout), ttl, timeout) ==
            World(2 * timeout + 1, map["ch" := StateHash(None, Some(timeout + 1), timeout + 1 + ttl)],
                  map["ch" := Row(true, 0, Some(0))], map["ch" := timeout + 1])
  {
    var b, t, t' := Batch("ch", 0, true), Tick(timeout + 1), Tick(timeout);
    ShortKeyFirstCycle(ttl, timeout);
    var start := [b, Sync];
    RunSnoc(start, t, ttl, timeout);
    RunSnoc(start + [t], b, ttl, timeout);
    RunSnoc(start + [t] + [b], t', ttl, timeout);
  }

  lemma ShortKeyDisagrees(ttl: int, timeout: nat)
    requires 0 < ttl <= timeout
    ensures !Agrees(Run(ShortKeyRun(timeout) + [Sync], ttl, timeout), timeout)
  {
    ShortKeySecondBatch(ttl, timeout);
    RunSnoc(ShortKeyRun(timeout), Sync, ttl, timeout);
    var w := Run(ShortKeyRun(timeout), ttl, timeout);
    assert LiveChannels(w.keys, w.now) == {};
    assert Cycle(w, timeout).rows["ch"] == Row(false, 0, Some(0));
  }

  lemma ShortCycle(w: World, timeout: int)
    requires w.keys.Keys == {"ch"} && Live(w.keys, w.now, "ch") && w.rows == map[] && w.keys["ch"].dropped.None?
    requires w.keys["ch"].activity == Some(w.now) && timeout >= 0
    ensures Cycle(w, timeout) == w.(rows := map["ch" := Row(true, 0, Some(w.now))])
  {}

  /** The agreement holds in all runs if and only if the TTL exceeds the timeout. */
  lemma AgreementIsTtlAboveTimeout(ttl: int, timeout: nat)
    requires ttl > 0
    ensures AlwaysAgrees(ttl, timeout) <==> ttl > timeout
  {
    if ttl > timeout {
      forall events ensures Agrees(Run(events + [Sync], ttl, timeout), timeout) {
        CycleAgrees(events, ttl, timeout);
      }
    } else {
      ShortKeyDisagrees(ttl, timeout);
    }
  }

  /** A row without a date never times out. */
  lemma UndatedCycle(w: World, ch: string, timeout: int)
    requires ch in w.rows && w.rows[ch].active && w.rows[ch].activity.None?
    requires ch in w.keys ==> w.keys[ch].activity.None? && Pending(w.keys[ch]) == 0
    ensures ch in Cycle(w, timeout).rows && Cycle(w, timeout).rows[ch] == w.rows[ch]
  {}

  lemma DropOnlyCycle(w: World, ch: string, timeout: int)
    requires Live(w.keys, w.now, ch) && w.keys[ch].activity.None? && w.rows == map[]
    ensures ch in Cycle(w, timeout).rows && Cycle(w, timeout).rows[ch] == Row(true, Pending(w.keys[ch]), None)
    ensures ch in Cycle(w, timeout).keys && Cycle(w, timeout).keys[ch] == Reset(w.keys[ch])
  {}

  /** Drops without a packet give an active row with no date, and however long nothing comes it stays active. */
  lemma DropsAloneStayActive(ch: string, drops: nat, n: nat, ttl: int, timeout: int)
    requires drops > 0 && ttl > 0
    ensures var w := Run([Batch(ch, drops, false), Sync, Tick(n), Sync], ttl, timeout);
            ch in w.rows && w.rows[ch] == Row(true, drops, None) && ch !in w.batches
  {
    var b, one, two := Batch(ch, drops, false), [Batch(ch, drops, false)], [Batch(ch, drops, false), Sync];
    var three := two + [Tick(n)];
    RunSnoc([], b, ttl, timeout);
    RunSnoc(one, Sync, ttl, timeout);
    RunSnoc(two, Tick(n), ttl, timeout);
    RunSnoc(three, Sync, ttl, timeout);
    assert [] + [b] == one && one + [Sync] == two && three + [Sync] == [b, Sync, Tick(n), Sync];
    DropOnlyCycle(Run(one, ttl, timeout), ch, timeout);
    UndatedCycle(Run(three, ttl, timeout), ch, timeout);
  }

  lemma SyncOneMore(keys: map<string, StateHash>, rows: map<string, Row>, chs: set<string>, ch: string)
    requires chs <= keys.Keys && ch in keys && ch !in chs
    ensures SyncedKeys(keys, chs + {ch}) == SyncedKeys(keys, chs)[ch := Reset(keys[ch])]
    ensures SyncedRows(keys, rows, chs + {ch}) ==
            Upsert(SyncedRows(keys, rows, chs), ch, true, Pending(keys[ch]), keys[ch].activity)
  {}

  // ---- The classes ----

  class RedisState {
    var keys: map<string, StateHash>
    var now: int

    constructor (now: int)
      ensures keys == map[] && this.now == now
    {
      keys, this.now := map[], now;
    }
  }

  class StateManager {
    const redis: RedisState
    const tracker: SequenceTracker

    constructor (redis: RedisState, tracker: SequenceTracker)
      ensures this.redis == redis && this.tracker == tracker
    {
      this.redis, this.tracker := redis, tracker;
    }

    method ProcessBatch(channel: string, sequence: int, packetCount: nat)
      modifies redis`keys, tracker
      ensures var o := Process(old(tracker.Last(channel)), sequence);
              && tracker.stored == old(tracker.stored)[channel := o.last]
              && o.drops >= 0
              && redis.keys == HashAfterBatch(old(redis.keys), redis.now, STATE_KEY_TTL, channel, o.drops,
                                              packetCount > 0)
    {
      var dropped, isReset := tracker.ProcessSequence(channel, sequence);
      // Redis has dropped the hash if its time is up
      if !Live(redis.keys, redis.now, channel) {
        redis.keys := redis.keys - {channel};
      }
      if dropped > 0 {                                                                        // HINCRBY
        var h := if channel in redis.keys then redis.keys[channel] else StateHash(None, None, redis.now);
        redis.keys := redis.keys[channel := h.(dropped := Some(Pending(h) + dropped))];
      }
      if packetCount > 0 {                                                                    // HSET
        var h := if channel in redis.keys then redis.keys[channel] else StateHash(None, None, redis.now);
        redis.keys := redis.keys[channel := h.(activity := Some(redis.now))];
      }
      if channel in redis.keys {                                                              // EXPIRE
        redis.keys := redis.keys[channel := redis.keys[channel].(expires := redis.now + STATE_KEY_TTL)];
      }
    }
  }

  class Database {
    var rows: map<string, Row>

    constructor ()
      ensures rows == map[]
    {
      rows := map[];
    }

    method UpsertChannel(channel: string, isActive: bool, droppedDelta: nat, lastActivityAt: Option<int>)
      modifies this
      ensures rows == Upsert(old(rows), channel, isActive, droppedDelta, lastActivityAt)
    {
      if channel in rows {
        var row := rows[channel];
        rows := rows[channel := Row(isActive, row.dropped + droppedDelta,
                                    if lastActivityAt.Some? then lastActivityAt else row.activity)];
      } else {
        rows := rows[channel := Row(isActive, droppedDelta, lastActivityAt)];
      }
    }

    method DeactivateTimedOut(now: int, timeout: int) returns (count: nat)
      modifies this
      ensures rows == map ch | ch in old(rows) :: Deactivate(old(rows)[ch], now, timeout)
      ensures rows.Keys == old(rows).Keys && count == |set ch | ch in old(rows) && rows[ch] != old(rows)[ch]|
    {
      ghost var before := rows;
      count := |set ch | ch in rows && TimedOut(rows[ch], now, timeout)|;
      rows := map ch | ch in rows :: Deactivate(rows[ch], now, timeout);
      assert (set ch | ch in before && TimedOut(before[ch], now, timeout)) == set ch | ch in before && rows[ch] != before[ch];
    }
  }

  class ChannelStateSyncer {
    const redis: RedisState
    const db: Database

    constructor (redis: RedisState, db: Database)
      ensures this.redis == redis && this.db == db
    {
      this.redis, this.db := redis, db;
    }

    /** SCAN in pages, whose order and overlaps are Redis' choice, until the cursor is back at zero. */
    method ScanActiveChannels(pages: seq<set<string>>) returns (channels: set<string>)
      requires forall ch :: ch in LiveChannels(redis.keys, redis.now) <==> exists i :: 0 <= i < |pages| && ch in pages[i]
      ensures channels == LiveChannels(redis.keys, redis.now)
    {
      channels := {};
      var cursor := 0;
      while cursor < |pages|
        invariant cursor <= |pages|
        invariant forall ch :: ch in channels <==> exists i :: 0 <= i < cursor && ch in pages[i]
      {
        channels := channels + pages[cursor];
        cursor := cursor + 1;
      }
    }

    method SyncActiveChannel(channel: string)
      requires Live(redis.keys, redis.now, channel)
      modifies redis`keys, db
      ensures redis.keys == old(redis.keys)[channel := Reset(old(redis.keys)[channel])]
      ensures var h := old(redis.keys)[channel]; db.rows == Upsert(old(db.rows), channel, true, Pending(h), h.activity)
    {
      var delta := Pending(redis.keys[channel]);
      if delta != 0 {
        redis.keys := redis.keys[channel := redis.keys[channel].(dropped := Some(0))];
      }
      var stateData := redis.keys[channel];
      db.UpsertChannel(channel, true, delta, stateData.activity);
    }

    method SyncCycle(pages: seq<set<string>>, ghost batches: map<string, int>)
      requires forall ch :: ch in LiveChannels(redis.keys, redis.now) <==> exists i :: 0 <= i < |pages| && ch in pages[i]
      modifies redis`keys, db
      ensures World(redis.now, redis.keys, db.rows, batches) ==
              Cycle(World(redis.now, old(redis.keys), old(db.rows), batches), ACTIVITY_TIMEOUT)
    {
      ghost var keys, rows := redis.keys, db.rows;
      var channels := ScanActiveChannels(pages);
      var todo := channels;
      assert SyncedKeys(keys, channels - todo) == keys && SyncedRows(keys, rows, channels - todo) == rows;
      while todo != {}
        invariant todo <= channels
        invariant redis.keys == SyncedKeys(keys, channels - todo)
        invariant db.rows == SyncedRows(keys, rows, channels - todo)
        decreases todo
      {
        var channel :| channel in todo;
        assert channels - (todo - {channel}) == (channels - todo) + {channel};
        SyncOneMore(keys, rows, channels - todo, channel);
        SyncActiveChannel(channel);
        todo := todo - {channel};
      }
      assert channels - todo == channels;
      var count := db.DeactivateTimedOut(redis.now, ACTIVITY_TIMEOUT);
    }
  }
}
