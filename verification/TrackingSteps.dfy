/** The interleaved tracker of `ConcurrentTracking`, told from its steps alone. */
module TrackingSteps {
  import opened ConcurrentTracking
  import opened Wrappers

  /** The numbers in the order of their GETs. */
  function NumbersOf(steps: seq<Step>): seq<int> {
    if steps == [] then [] else
    NumbersOf(steps[..|steps| - 1]) + if steps[|steps| - 1].Get? then [steps[|steps| - 1].number] else []
  }

  /** A batch sets its number when its GET found nothing, a lower number, or one more than a million higher. */
  predicate SetsAfter(found: Option<int>, x: int) {
    found.None? || found.value < x || found.value - x > 1_000_000
  }

  predicate HasToNext(had: bool, numbers: seq<int>, found: Option<int>, step: Step, k: nat) {
    match step
    case Get(x) => if |numbers| == k then SetsAfter(found, x) else had
    case Put(k') => k' != k && had
  }

  /** The k-th batch is between its GET and its SET. */
  predicate HasToSet(steps: seq<Step>, k: nat) {
    steps != [] &&
    var front := steps[..|steps| - 1];
    HasToNext(HasToSet(front, k), NumbersOf(front), Found(front), steps[|steps| - 1], k)
  }

  /** The number of the SET that came last. */
  function Found(steps: seq<Step>): Option<int> {
    if steps == [] then None else
    var front, step := steps[..|steps| - 1], steps[|steps| - 1];
    if step.Put? && step.k < |NumbersOf(front)| && HasToSet(front, step.k) then Some(NumbersOf(front)[step.k]) else Found(front)
  }

  function GapAbove(found: Option<int>, step: Step): int {
    if step.Get? && found.Some? && found.value < step.number then step.number - found.value - 1 else 0
  }

  /** A GET counts the gap above what it finds. */
  function GapsFound(steps: seq<Step>): int {
    if steps == [] then 0
    else GapsFound(steps[..|steps| - 1]) + GapAbove(Found(steps[..|steps| - 1]), steps[|steps| - 1])
  }

  predicate IsTold(s: State, numbers: seq<int>, found: Option<int>, gaps: int) {
    s.numbers == numbers && s.stored == found && s.drops == gaps
  }

  lemma GetIsTold(s: State, x: int, k: nat, had: bool)
    requires (k in s.waiting <==> had) && (had ==> k < |s.numbers|)
    ensures var t := Next(s, Get(x));
            && IsTold(t, s.numbers + [x], s.stored, s.drops + GapAbove(s.stored, Get(x)))
            && (k in t.waiting <==> HasToNext(had, s.numbers, s.stored, Get(x), k))
  {}

  lemma PutIsTold(s: State, put: nat, k: nat, had: bool, putHad: bool)
    requires (k in s.waiting <==> had) && (put in s.waiting <==> putHad) && (putHad ==> put < |s.numbers|)
    ensures var t := Next(s, Put(put));
            && IsTold(t, s.numbers, if put < |s.numbers| && putHad then Some(s.numbers[put]) else s.stored, s.drops)
            && (k in t.waiting <==> HasToNext(had, s.numbers, s.stored, Put(put), k))
  {}

  lemma {:induction false} WaitingHaveNumbers(steps: seq<Step>, k: nat)
    ensures HasToSet(steps, k) ==> k < |NumbersOf(steps)|
  {
    if steps == [] {
    } else {
      WaitingHaveNumbers(steps[..|steps| - 1], k);
    }
  }

  /** In every interleaving: numbers, stored number, drops, and which batches are between their GET and their SET. */
  lemma {:induction false} TrackingIsTold(steps: seq<Step>, k: nat)
    ensures IsTold(Run(steps), NumbersOf(steps), Found(steps), GapsFound(steps))
    ensures k in Run(steps).waiting <==> HasToSet(steps, k)
    decreases |steps|
  {
    if steps == [] {
    } else {
      var front, step := steps[..|steps| - 1], steps[|steps| - 1];
      TrackingIsTold(front, k);
      WaitingHaveNumbers(front, k);
      if step.Get? {
        GetIsTold(Run(front), step.number, k, HasToSet(front, k));
      } else {
        TrackingIsTold(front, step.k);
        WaitingHaveNumbers(front, step.k);
        PutIsTold(Run(front), step.k, k, HasToSet(front, k), HasToSet(front, step.k));
        assert NumbersOf(front) + [] == NumbersOf(front);
      }
    }
  }
}
