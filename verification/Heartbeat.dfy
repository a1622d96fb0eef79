/** Session keys in time: the heartbeat that keeps them alive and the deadline by which a crash is cleaned up. */
module Heartbeat {
  import opened CompositeKeys
  import opened SubscriptionStore
  import opened GhostCleaner

  const SESSION_TTL := 10_000   // milliseconds

  /** A Redis key with a time to live; it is gone from its deadline on. */
  datatype Key = Absent | Until(deadline: int)

  predicate Alive(key: Key, now: int) {
    key.Until? && now < key.deadline
  }

  /** EXPIRE: a no-op on a missing key. */
  function Expire(key: Key, now: int): Key {
    if Alive(key, now) then Until(now + SESSION_TTL) else Absent
  }

  /** The key after a creation at beats[0] and refreshes at the later beats. */
  function KeyAfter(beats: seq<int>): Key
    requires beats != []
  {
    if |beats| == 1 then Until(beats[0] + SESSION_TTL)
    else Expire(KeyAfter(beats[..|beats| - 1]), beats[|beats| - 1])
  }

  predicate Ordered(beats: seq<int>, now: int) {
    && beats != []
    && (forall i, j :: 0 <= i < j < |beats| ==> beats[i] <= beats[j])
    && beats[|beats| - 1] <= now
  }

  /** No ten seconds without a beat. */
  predicate Steady(beats: seq<int>, now: int)
    requires beats != []
  {
    && (forall i :: 0 < i < |beats| ==> beats[i] - beats[i - 1] < 10_000)
    && now - beats[|beats| - 1] < 10_000
  }

  /** A session is alive exactly when no gap between beats ever reached the TTL; a lapsed one never returns. */
  lemma {:induction false} AliveIffSteady(beats: seq<int>, now: int)
    requires Ordered(beats, now)
    ensures Alive(KeyAfter(beats), now) <==> Steady(beats, now)
  {
    var n := |beats|;
    if n > 1 {
      AliveIffSteady(beats[..n - 1], beats[n - 1]);
      SteadyFront(beats, now);
    }
  }

  lemma SteadyFront(beats: seq<int>, now: int)
    requires |beats| > 1
    ensures var last := beats[|beats| - 1];
            Steady(beats, now) <==> Steady(beats[..|beats| - 1], last) && now - last < SESSION_TTL
  {}

  /** The heartbeat task of one connection; `now` is the shared clock. */
  class TimedSession {
    var key: Key
    var now: int
    ghost var beats: seq<int>

    ghost predicate Valid()
      reads this
    {
      Ordered(beats, now) && key == KeyAfter(beats)
    }

    constructor (now: int)
      ensures Valid() && this.now == now && beats == [now]
    {
      this.now := now;
      key := Until(now + SESSION_TTL);
      beats := [now];
    }

    method RefreshTtl()
      requires Valid()
      modifies this
      ensures Valid() && now == old(now) && beats == old(beats) + [now]
    {
      key := Expire(key, now);
      beats := beats + [now];
      assert beats[..|beats| - 1] == old(beats);
    }

    /**
     * Rounds of sleeping and refreshing, each of the given length; a refresh that fails is logged and skipped.
     * The session survives them exactly when no gap between refreshes that worked reached the TTL.
     */
    method HeartbeatLoop(rounds: seq<Round>)
      requires Valid()
      modifies this
      ensures Valid() && now == old(now) + Elapsed(rounds)
      ensures beats == old(beats) + Refreshes(old(now), rounds)
      ensures Alive(key, now) <==> Steady(old(beats) + Refreshes(old(now), rounds), now)
    {
      for i := 0 to |rounds|
        invariant Valid() && now == old(now) + Elapsed(rounds[..i])
        invariant beats == old(beats) + Refreshes(old(now), rounds[..i])
      {
        assert rounds[..i + 1][..i] == rounds[..i];
        now := now + rounds[i].length;
        if rounds[i].ok {
          RefreshTtl();
        }
      }
      assert rounds[..|rounds|] == rounds;
      AliveIffSteady(beats, now);
    }
  }

  datatype Round = Round(length: nat, ok: bool)

  function Elapsed(rounds: seq<Round>): nat {
    if rounds == [] then 0 else Elapsed(rounds[..|rounds| - 1]) + rounds[|rounds| - 1].length
  }

  /** The instants of the refreshes that worked. */
  function Refreshes(start: int, rounds: seq<Round>): seq<int> {
    if rounds == [] then [] else
    Refreshes(start, rounds[..|rounds| - 1]) + if rounds[|rounds| - 1].ok then [start + Elapsed(rounds)] else []
  }

  // ---- Whole scans at one instant ----

  function RowsOf(s: Store, c: string): set<(string, string)> {
    set row | row in s.listeners && RSplit(row.1).Parts? && Owner(row.1) == c
  }

  /** A scan taken as one instant spares a client with steady beats, and takes everything of one without. */
  lemma SteadyClientsAreSafe(s: Store, c: string, beats: seq<int>, now: int, live: set<string>, hs: set<string>)
    requires Ordered(beats, now) && (c in live <==> Alive(KeyAfter(beats), now))
    ensures Steady(beats, now) ==> RowsOf(Scanned(s.(sessions := live), hs), c) == RowsOf(s, c)
    ensures !Steady(beats, now) && ':' !in c ==>
              RowsOf(Scanned(s.(sessions := live), hs), c) == set row | row in RowsOf(s, c) && row.0 !in hs
  {
    AliveIffSteady(beats, now);
    if ':' !in c {
      KeyOfClient(s.(sessions := live), c);
    }
  }

  // ---- Beats so far ----

  /** The beats up to t. */
  function Upto(beats: seq<int>, t: int): seq<int> {
    if beats != [] && beats[|beats| - 1] > t then Upto(beats[..|beats| - 1], t) else beats
  }

  predicate AliveAt(beats: seq<int>, t: int) {
    Upto(beats, t) != [] && Alive(KeyAfter(Upto(beats, t)), t)
  }

  predicate SteadyAt(beats: seq<int>, t: int) {
    Upto(beats, t) != [] && Steady(Upto(beats, t), t)
  }

  predicate InOrder(beats: seq<int>) { forall i, j :: 0 <= i < j < |beats| ==> beats[i] <= beats[j] }

  lemma {:induction false} UptoIsOrdered(beats: seq<int>, t: int)
    requires InOrder(beats) && Upto(beats, t) != []
    ensures Ordered(Upto(beats, t), t)
  {
    if beats[|beats| - 1] > t {
      UptoIsOrdered(beats[..|beats| - 1], t);
    }
  }

  /** Alive at t means: no gap up to t has reached the TTL. */
  lemma AliveAtIffSteadyAt(beats: seq<int>, t: int)
    requires InOrder(beats)
    ensures AliveAt(beats, t) <==> SteadyAt(beats, t)
  {
    if Upto(beats, t) != [] {
      UptoIsOrdered(beats, t);
      AliveIffSteady(Upto(beats, t), t);
    }
  }

  /** Steady now is steady at every moment since the first beat. */
  lemma {:induction false} SteadyBefore(beats: seq<int>, t: int, now: int)
    requires InOrder(beats) && beats != [] && beats[0] <= t <= now && SteadyAt(beats, now)
    ensures SteadyAt(beats, t)
  {
    var front, last := beats[..|beats| - 1], beats[|beats| - 1];
    if last > now {
      SteadyBefore(front, t, now);
    } else if last > t {
      SteadyFront(beats, now);
      assert Upto(front, last) == front;
      SteadyBefore(front, t, last);
    }
  }
}
