/** The ledger of `DropLedger`, told from its steps alone: what is counted, and when a state hash is there. */
module LedgerSteps {
  import opened DropLedger

  /** The drops of all batches of the channel. */
  function Ingested(steps: seq<Step>, ch: string): nat {
    if steps == [] then 0 else Ingested(steps[..|steps| - 1], ch) + DropsOf(steps[|steps| - 1], ch)
  }

  function DropsOf(step: Step, ch: string): nat { if step.Ingest? && step.ch == ch then step.drops else 0 }

  predicate ThereNext(there: bool, step: Step, ch: string) {
    match step
    case Ingest(c, drops, packets) => (c == ch && (drops > 0 || packets)) || there
    case Expire(c) => c != ch && there
    case RedisRestart => false
    case _ => there
  }

  /** A batch with drops or packets makes the hash; its expiry and a restart of Redis take it, nothing else does. */
  predicate HashThere(steps: seq<Step>, ch: string) {
    steps != [] && ThereNext(HashThere(steps[..|steps| - 1], ch), steps[|steps| - 1], ch)
  }

  predicate IsCounted(s: State, ch: string, ingested: nat, there: bool) {
    && (ch in s.counted ==> s.counted[ch] == ingested) && (ch !in s.counted ==> ingested == 0)
    && (ch in s.pending <==> there)
  }

  lemma IngestCounts(s: State, ch: string, ingested: nat, there: bool, step: Step)
    requires IsCounted(s, ch, ingested, there) && step.Ingest?
    ensures IsCounted(Next(s, step), ch, ingested + DropsOf(step, ch), ThereNext(there, step, ch))
  {}

  lemma OtherCounts(s: State, ch: string, ingested: nat, there: bool, step: Step)
    requires IsCounted(s, ch, ingested, there) && !step.Ingest?
    ensures IsCounted(Next(s, step), ch, ingested, ThereNext(there, step, ch))
  {}

  /** In every interleaving `counted` is the sum of all drops, and a state hash is there exactly as the steps tell. */
  lemma {:induction false} CountsEveryDrop(steps: seq<Step>, ch: string)
    ensures IsCounted(Run(steps), ch, Ingested(steps, ch), HashThere(steps, ch))
  {
    if steps == [] {
    } else {
      var front, step := steps[..|steps| - 1], steps[|steps| - 1];
      CountsEveryDrop(front, ch);
      if step.Ingest? {
        IngestCounts(Run(front), ch, Ingested(front, ch), HashThere(front, ch), step);
      } else {
        OtherCounts(Run(front), ch, Ingested(front, ch), HashThere(front, ch), step);
      }
    }
  }
}
