/**
 * The drop counter on its way to the database, with ingestion, key expiry, crashes and the three round
 * trips of the syncer (read-and-reset script, HGETALL, upsert) as separate, arbitrarily interleaved steps.
 */
module DropLedger {

  /** How far the syncer is with one channel. */
  datatype Pc =
    | Idle
    | HasDelta(ch: string, delta: nat)      // the script has returned
    | HasState(ch: string, delta: nat)      // HGETALL found the hash

  /** `counted` and `lost` only observe; a channel is in `pending` while its state hash exists. */
  datatype State = State(pending: map<string, nat>, syncer: Pc, db: map<string, nat>, counted: map<string, nat>,
                         lost: map<string, nat>)

  datatype Step =
    | Ingest(ch: string, drops: nat, packets: bool)
    | Expire(ch: string)
    | ReadAndReset(ch: string)
    | ReadState
    | Upsert(ok: bool)
    | SyncerCrash
    | RedisRestart                          // Redis keeps nothing on disk

  const Start := State(map[], Idle, map[], map[], map[])

  function At(m: map<string, nat>, ch: string): nat {
    if ch in m then m[ch] else 0
  }

  function Add(m: map<string, nat>, ch: string, n: nat): map<string, nat> {
    m[ch := At(m, ch) + n]
  }

  function InFlight(pc: Pc, ch: string): nat {
    if pc.Idle? || pc.ch != ch then 0 else pc.delta
  }

  function Union(m: map<string, nat>, m': map<string, nat>): map<string, nat> {
    map ch | ch in m.Keys + m'.Keys :: At(m, ch) + At(m', ch)
  }

  function Abandon(s: State): State {
    if s.syncer.Idle? then s else s.(syncer := Idle, lost := Add(s.lost, s.syncer.ch, s.syncer.delta))
  }

  function Next(s: State, step: Step): State {
    match step
    case Ingest(ch, drops, packets) =>
      if ch in s.pending || drops > 0 || packets
      then s.(pending := Add(s.pending, ch, drops), counted := Add(s.counted, ch, drops))
      else s
    case Expire(ch) =>
      if ch in s.pending then s.(pending := s.pending - {ch}, lost := Add(s.lost, ch, s.pending[ch])) else s
    case ReadAndReset(ch) =>
      if !s.syncer.Idle? then s
      else s.(pending := if ch in s.pending then s.pending[ch := 0] else s.pending,
              syncer := HasDelta(ch, At(s.pending, ch)))
    case ReadState =>
      if !s.syncer.HasDelta? then s
      else if s.syncer.ch in s.pending then s.(syncer := HasState(s.syncer.ch, s.syncer.delta))
      else Abandon(s)
    case Upsert(ok) =>
      if !s.syncer.HasState? then s
      else if ok then s.(syncer := Idle, db := Add(s.db, s.syncer.ch, s.syncer.delta))
      else Abandon(s)
    case SyncerCrash => Abandon(s)
    case RedisRestart => s.(pending := map[], lost := Union(s.lost, s.pending))
  }

  function Run(steps: seq<Step>): State {
    if steps == [] then Start else Next(Run(steps[..|steps| - 1]), steps[|steps| - 1])
  }

  predicate Balanced(s: State, ch: string) {
    At(s.counted, ch) == At(s.db, ch) + InFlight(s.syncer, ch) + At(s.pending, ch) + At(s.lost, ch)
  }

  /** Which steps may lose drops of a channel, and how many. */
  function Losses(s: State, step: Step, ch: string): nat {
    match step
    case Expire(c) => if c == ch then At(s.pending, ch) else 0
    case ReadState => if s.syncer.HasDelta? && s.syncer.ch !in s.pending then InFlight(s.syncer, ch) else 0
    case Upsert(ok) => if s.syncer.HasState? && !ok then InFlight(s.syncer, ch) else 0
    case SyncerCrash => InFlight(s.syncer, ch)
    case RedisRestart => At(s.pending, ch)
    case _ => 0
  }

  lemma StepBalances(s: State, step: Step, ch: string)
    requires Balanced(s, ch)
    ensures var t := Next(s, step);
            && Balanced(t, ch)
            && At(t.lost, ch) == At(s.lost, ch) + Losses(s, step, ch)
            && At(s.db, ch) <= At(t.db, ch)
            && At(s.counted, ch) <= At(t.counted, ch)
  {
    if step.Ingest? || step.Expire? || step.RedisRestart? {
      RedisStepBalances(s, step, ch);
    } else {
      SyncerStepBalances(s, step, ch);
    }
  }

  lemma RedisStepBalances(s: State, step: Step, ch: string)
    requires Balanced(s, ch) && (step.Ingest? || step.Expire? || step.RedisRestart?)
    ensures var t := Next(s, step);
            && Balanced(t, ch) && At(t.lost, ch) == At(s.lost, ch) + Losses(s, step, ch)
            && t.db == s.db && At(s.counted, ch) <= At(t.counted, ch)
  {}

  lemma AbandonBalances(s: State, ch: string)
    requires Balanced(s, ch)
    ensures var t := Abandon(s);
            && Balanced(t, ch) && At(t.lost, ch) == At(s.lost, ch) + InFlight(s.syncer, ch)
            && t.db == s.db && t.counted == s.counted
  {}

  lemma SyncerStepBalances(s: State, step: Step, ch: string)
    requires Balanced(s, ch) && !step.Ingest? && !step.Expire? && !step.RedisRestart?
    ensures var t := Next(s, step);
            && Balanced(t, ch) && At(t.lost, ch) == At(s.lost, ch) + Losses(s, step, ch)
            && At(s.db, ch) <= At(t.db, ch) && t.counted == s.counted
  {
    AbandonBalances(s, ch);
  }

  /**
   * In every state of every interleaving, the drops counted are in the database, in flight, pending or
   * lost, each exactly once: the database never holds more than was counted.
   */
  lemma {:induction false} LedgerBalances(steps: seq<Step>, ch: string)
    ensures Balanced(Run(steps), ch)
    ensures At(Run(steps).db, ch) <= At(Run(steps).counted, ch)
  {
    if steps == [] {
    } else {
      LedgerBalances(steps[..|steps| - 1], ch);
      StepBalances(Run(steps[..|steps| - 1]), steps[|steps| - 1], ch);
    }
  }

  // ---- Fault-free stretches ----

  function RunFrom(s: State, steps: seq<Step>): State {
    if steps == [] then s else Next(RunFrom(s, steps[..|steps| - 1]), steps[|steps| - 1])
  }

  predicate OnlyIngests(steps: seq<Step>) {
    forall i :: 0 <= i < |steps| ==> steps[i].Ingest?
  }

  /** Ingestion touches neither the syncer nor the table, and never removes a key. */
  lemma {:induction false} IngestsOnlyCount(s: State, steps: seq<Step>)
    requires OnlyIngests(steps)
    ensures var t := RunFrom(s, steps);
            && t.db == s.db && t.lost == s.lost && t.syncer == s.syncer && s.pending.Keys <= t.pending.Keys
            && forall ch :: Balanced(s, ch) ==> Balanced(t, ch)
  {
    if steps == [] {
    } else {
      var front := RunFrom(s, steps[..|steps| - 1]);
      IngestsOnlyCount(s, steps[..|steps| - 1]);
      forall ch | Balanced(s, ch) ensures Balanced(RunFrom(s, steps), ch) {
        StepBalances(front, steps[|steps| - 1], ch);
      }
    }
  }

  /**
   * A sync of a channel with no fault in it, whatever is ingested between its steps, brings the table to
   * exactly what had been counted and not lost when it began; without ingestion in between nothing is left.
   */
  lemma FaultFreeSyncIsExact(s: State, ch: string, before: seq<Step>, between: seq<Step>)
    requires (forall c :: Balanced(s, c)) && s.syncer.Idle? && ch in s.pending
    requires OnlyIngests(before) && OnlyIngests(between)
    ensures var s1 := RunFrom(Next(s, ReadAndReset(ch)), before);
            var s2 := RunFrom(Next(s1, ReadState), between);
            var t := Next(s2, Upsert(true));
            && t.syncer.Idle?
            && At(t.db, ch) + At(s.lost, ch) == At(s.counted, ch)
            && t.lost == s.lost
            && At(t.counted, ch) == At(t.db, ch) + At(t.pending, ch) + At(t.lost, ch)
            && (forall c :: c != ch ==> At(t.db, c) == At(s.db, c))
  {
    var r := Next(s, ReadAndReset(ch));
    StepBalances(s, ReadAndReset(ch), ch);
    IngestsOnlyCount(r, before);
    var s1 := RunFrom(r, before);
    StepBalances(s1, ReadState, ch);
    IngestsOnlyCount(Next(s1, ReadState), between);
    var s2 := RunFrom(Next(s1, ReadState), between);
    StepBalances(s2, Upsert(true), ch);
    assert Balanced(s, ch);
  }

  // ---- A whole cycle ----

  /** One channel's sync, with what is ingested between its three round trips and before the next channel. */
  datatype Turn = Turn(ch: string, before: seq<Step>, between: seq<Step>, after: seq<Step>)

  predicate IsFaultFree(turn: Turn) {
    OnlyIngests(turn.before) && OnlyIngests(turn.between) && OnlyIngests(turn.after)
  }

  predicate NothingIngested(turn: Turn) { turn.before == [] && turn.between == [] && turn.after == [] }

  function Synced(s: State, turn: Turn): State {
    var s1 := RunFrom(Next(s, ReadAndReset(turn.ch)), turn.before);
    var s2 := RunFrom(Next(s1, ReadState), turn.between);
    Next(s2, Upsert(true))
  }

  function AfterTurn(s: State, turn: Turn): State { RunFrom(Synced(s, turn), turn.after) }

  function Cycle(s: State, turns: seq<Turn>): State {
    if turns == [] then s else AfterTurn(Cycle(s, turns[..|turns| - 1]), turns[|turns| - 1])
  }

  ghost predicate AllBalance(s: State) { forall ch :: Balanced(s, ch) }

  /** Between two turns of a fault-free cycle: nothing lost, no key gone, no figure smaller. */
  ghost predicate Follows(s: State, t: State) {
    && t.syncer.Idle? && t.lost == s.lost && s.pending.Keys <= t.pending.Keys && AllBalance(t)
    && forall ch :: At(s.db, ch) <= At(t.db, ch) && At(s.counted, ch) <= At(t.counted, ch)
  }

  lemma {:induction false} IngestsGrow(s: State, steps: seq<Step>, ch: string)
    requires OnlyIngests(steps)
    ensures At(s.counted, ch) <= At(RunFrom(s, steps).counted, ch)
  {
    if steps == [] {
    } else {
      IngestsGrow(s, steps[..|steps| - 1], ch);
    }
  }

  lemma StepKeepsBalance(s: State, step: Step)
    requires AllBalance(s)
    ensures AllBalance(Next(s, step))
  {
    forall ch ensures Balanced(Next(s, step), ch) {
      assert Balanced(s, ch);
      StepBalances(s, step, ch);
    }
  }

  lemma SyncedFollows(s: State, turn: Turn)
    requires AllBalance(s) && s.syncer.Idle? && turn.ch in s.pending && IsFaultFree(turn)
    ensures Follows(s, Synced(s, turn))
  {
    var r := Next(s, ReadAndReset(turn.ch));
    var s1 := RunFrom(r, turn.before);
    var found := Next(s1, ReadState);
    var s2 := RunFrom(found, turn.between);
    StepKeepsBalance(s, ReadAndReset(turn.ch));
    IngestsOnlyCount(r, turn.before);
    StepKeepsBalance(s1, ReadState);
    IngestsOnlyCount(found, turn.between);
    StepKeepsBalance(s2, Upsert(true));
    forall ch ensures At(s.counted, ch) <= At(s2.counted, ch) {
      IngestsGrow(r, turn.before, ch);
      IngestsGrow(found, turn.between, ch);
    }
  }

  /** After a channel's turn the table and the losses account for all that had been counted when it began. */
  lemma TurnFollows(s: State, turn: Turn)
    requires AllBalance(s) && s.syncer.Idle? && turn.ch in s.pending && IsFaultFree(turn)
    ensures Follows(s, AfterTurn(s, turn))
    ensures At(AfterTurn(s, turn).db, turn.ch) + At(s.lost, turn.ch) == At(s.counted, turn.ch)
  {
    SyncedFollows(s, turn);
    FaultFreeSyncIsExact(s, turn.ch, turn.before, turn.between);
    var t := Synced(s, turn);
    IngestsOnlyCount(t, turn.after);
    forall ch ensures At(t.counted, ch) <= At(RunFrom(t, turn.after).counted, ch) {
      IngestsGrow(t, turn.after, ch);
    }
  }

  predicate HadTurn(turns: seq<Turn>, ch: string) { exists i :: 0 <= i < |turns| && turns[i].ch == ch }

  /** The table accounts for all that had been counted in the start state. */
  predicate Caught(s: State, t: State, ch: string) { At(s.counted, ch) <= At(t.db, ch) + At(s.lost, ch) }

  lemma TurnCatches(s: State, mid: State, turn: Turn, turns: seq<Turn>)
    requires AllBalance(s) && Follows(s, mid) && turn.ch in s.pending && IsFaultFree(turn)
    requires forall ch :: HadTurn(turns, ch) ==> Caught(s, mid, ch)
    ensures Follows(s, AfterTurn(mid, turn))
    ensures forall ch :: HadTurn(turns + [turn], ch) ==> Caught(s, AfterTurn(mid, turn), ch)
  {
    var t := AfterTurn(mid, turn);
    TurnFollows(mid, turn);
    forall ch | HadTurn(turns + [turn], ch) ensures Caught(s, t, ch) {
      if ch != turn.ch {
        var i :| 0 <= i < |turns + [turn]| && (turns + [turn])[i].ch == ch;
        assert turns[i].ch == ch;
        assert HadTurn(turns, ch) && Caught(s, mid, ch) && At(mid.db, ch) <= At(t.db, ch);
      } else {
        assert At(s.counted, ch) <= At(mid.counted, ch);
      }
    }
  }

  lemma {:induction false} CycleCatches(s: State, turns: seq<Turn>)
    requires AllBalance(s) && s.syncer.Idle?
    requires forall i :: 0 <= i < |turns| ==> turns[i].ch in s.pending && IsFaultFree(turns[i])
    ensures Follows(s, Cycle(s, turns))
    ensures forall ch :: HadTurn(turns, ch) ==> Caught(s, Cycle(s, turns), ch)
  {
    if turns == [] {
    } else {
      var front, last := turns[..|turns| - 1], turns[|turns| - 1];
      CycleCatches(s, front);
      TurnCatches(s, Cycle(s, front), last, front);
      assert turns == front + [last];
    }
  }

  lemma SyncerCountsNothing(s: State, step: Step)
    requires step.ReadAndReset? || step.ReadState? || step.Upsert?
    ensures Next(s, step).counted == s.counted
  {}

  lemma QuietTurn(s: State, turn: Turn)
    requires NothingIngested(turn)
    ensures AfterTurn(s, turn).counted == s.counted
  {
    var s1 := Next(s, ReadAndReset(turn.ch));
    var s2 := Next(s1, ReadState);
    SyncerCountsNothing(s, ReadAndReset(turn.ch));
    SyncerCountsNothing(s1, ReadState);
    SyncerCountsNothing(s2, Upsert(true));
  }

  lemma {:induction false} QuietCycle(s: State, turns: seq<Turn>)
    requires forall i :: 0 <= i < |turns| ==> NothingIngested(turns[i])
    ensures Cycle(s, turns).counted == s.counted
  {
    if turns == [] {
    } else {
      QuietCycle(s, turns[..|turns| - 1]);
      QuietTurn(Cycle(s, turns[..|turns| - 1]), turns[|turns| - 1]);
    }
  }

  /**
   * A fault-free cycle over all channels with a state hash, whatever is ingested in between: for every channel the table
   * ends between what had been counted, less the losses, at the start and at the end of the cycle. With nothing ingested
   * in between it is exact, and nothing is left pending anywhere.
   */
  lemma FaultFreeCycleIsExact(s: State, turns: seq<Turn>, ch: string)
    requires AllBalance(s) && s.syncer.Idle?
    requires forall i :: 0 <= i < |turns| ==> turns[i].ch in s.pending && IsFaultFree(turns[i])
    requires forall c :: c in s.pending ==> HadTurn(turns, c)
    ensures var t := Cycle(s, turns);
            && t.syncer.Idle? && t.lost == s.lost
            && At(s.counted, ch) <= At(t.db, ch) + At(s.lost, ch) <= At(t.counted, ch)
            && At(t.counted, ch) == At(t.db, ch) + At(s.lost, ch) + At(t.pending, ch)
    ensures (forall i :: 0 <= i < |turns| ==> NothingIngested(turns[i])) ==>
              var t := Cycle(s, turns);
              At(t.db, ch) + At(s.lost, ch) == At(s.counted, ch) && At(t.pending, ch) == 0
  {
    var t := Cycle(s, turns);
    CycleCatches(s, turns);
    assert Balanced(s, ch) && Balanced(t, ch);
    if ch in s.pending {
      assert HadTurn(turns, ch) && Caught(s, t, ch);
    } else {
      assert At(s.db, ch) <= At(t.db, ch);
    }
    if forall i :: 0 <= i < |turns| ==> NothingIngested(turns[i]) {
      QuietCycle(s, turns);
    }
  }
}
