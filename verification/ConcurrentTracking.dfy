/**
 * Every datagram has its own task, so the GET and the SET of two batches of a channel interleave. What the drop count
 * is then, against the count of the serial tracker on the numbers in the order of their GETs.
 */
module ConcurrentTracking {
  import opened SequenceTracking
  import opened Wrappers

  /** The k-th batch, counting from 0, is the one whose GET came k-th. */
  datatype Step = Get(number: int) | Put(k: nat)

  /** `waiting` are the batches between GET and SET; `latest` only observes whose SET came last. */
  datatype State = State(stored: Option<int>, numbers: seq<int>, waiting: set<nat>, drops: int, latest: Option<nat>)

  const Start := State(None, [], {}, 0, None)

  /** The outcome is settled at the GET; a late or repeated number sets nothing. A disabled SET does nothing. */
  function Next(s: State, step: Step): State {
    match step
    case Get(x) =>
      var o := Process(s.stored, x);
      s.(numbers := s.numbers + [x], drops := s.drops + o.drops,
         waiting := if Some(o.last) == s.stored then s.waiting else s.waiting + {|s.numbers|})
    case Put(k) =>
      if k !in s.waiting || k >= |s.numbers| then s
      else s.(stored := Some(s.numbers[k]), waiting := s.waiting - {k}, latest := Some(k))
  }

  function Run(steps: seq<Step>): State {
    if steps == [] then Start else Next(Run(steps[..|steps| - 1]), steps[|steps| - 1])
  }

  // ---- One batch after the other ----

  /** No GET between a GET and its SET. */
  predicate Serial(steps: seq<Step>) {
    if steps == [] then true else
    Serial(steps[..|steps| - 1]) && (steps[|steps| - 1].Get? ==> Run(steps[..|steps| - 1]).waiting == {})
  }

  /** What the serial tracker has stored, or is about to. */
  predicate Tracks(s: State) {
    && s.drops == TotalDrops(s.numbers)
    && (s.waiting == {} ==> s.stored == LastOf(s.numbers))
    && (s.waiting != {} ==> |s.numbers| > 0 && s.waiting == {|s.numbers| - 1} && LastOf(s.numbers) == Some(s.numbers[|s.numbers| - 1]))
  }

  lemma StepTracks(s: State, step: Step)
    requires Tracks(s) && (step.Get? ==> s.waiting == {})
    ensures Tracks(Next(s, step))
  {
    if step.Get? {
      var x := step.number;
      assert (s.numbers + [x])[..|s.numbers|] == s.numbers;
      assert {} + {|s.numbers|} == {|s.numbers|};
    } else if step.k in s.waiting {
      assert s.waiting - {step.k} == {};
    }
  }

  /** Then the count is the serial one, for all numbers, resets included. */
  lemma {:induction false} SerialIsExact(steps: seq<Step>)
    requires Serial(steps)
    ensures Tracks(Run(steps))
  {
    if steps == [] {
    } else {
      SerialIsExact(steps[..|steps| - 1]);
      StepTracks(Run(steps[..|steps| - 1]), steps[|steps| - 1]);
    }
  }

  // ---- GETs in the order of the numbering ----

  /** How far what a GET finds is behind the number just before, and what a GET that finds nothing leaves uncounted. */
  function LagOf(s: State, step: Step): int {
    if step.Get? && s.stored.Some? && s.numbers != [] then s.numbers[|s.numbers| - 1] - s.stored.value else 0
  }

  function MissedOf(s: State, step: Step): int {
    if step.Get? && s.stored.None? && s.numbers != [] then step.number - s.numbers[|s.numbers| - 1] - 1 else 0
  }

  function Lag(steps: seq<Step>): int {
    if steps == [] then 0 else Lag(steps[..|steps| - 1]) + LagOf(Run(steps[..|steps| - 1]), steps[|steps| - 1])
  }

  function Missed(steps: seq<Step>): int {
    if steps == [] then 0 else Missed(steps[..|steps| - 1]) + MissedOf(Run(steps[..|steps| - 1]), steps[|steps| - 1])
  }

  /** Stored is the number of the latest SET, one of those that have arrived. */
  predicate IsOneOf(s: State) {
    && (forall k :: k in s.waiting ==> k < |s.numbers|)
    && (s.stored.Some? <==> s.latest.Some?)
    && (s.stored.Some? ==> s.latest.value < |s.numbers| && s.stored.value == s.numbers[s.latest.value])
  }

  lemma {:induction false} StoredIsOneOf(steps: seq<Step>)
    ensures IsOneOf(Run(steps))
  {
    if steps == [] {
    } else {
      StoredIsOneOf(steps[..|steps| - 1]);
    }
  }

  /** The serial tracker on one more, higher number. */
  lemma SerialSnoc(xs: seq<int>, x: int)
    requires Increasing(xs + [x])
    ensures TotalDrops(xs + [x]) == TotalDrops(xs) + if xs == [] then 0 else x - xs[|xs| - 1] - 1
  {
    var all := xs + [x];
    assert all[..|xs|] == xs;
    if xs != [] {
      assert forall i :: 0 <= i < |xs| ==> all[i] == xs[i];
      IncreasingAdvances(xs);
      DropsAreGaps(xs);
      assert all[|xs| - 1] < all[|xs|];
    }
  }

  lemma NumbersGrow(s: State, step: Step)
    requires Increasing(Next(s, step).numbers)
    ensures Increasing(s.numbers)
  {
    if step.Get? {
      var after := s.numbers + [step.number];
      assert forall i :: 0 <= i < |s.numbers| ==> after[i] == s.numbers[i];
    }
  }

  lemma GetAdds(s: State, x: int)
    requires IsOneOf(s) && Increasing(s.numbers + [x])
    ensures Next(s, Get(x)).drops - s.drops
            == (if s.numbers == [] then 0 else x - s.numbers[|s.numbers| - 1] - 1) + LagOf(s, Get(x)) - MissedOf(s, Get(x))
    ensures LagOf(s, Get(x)) >= 0 && MissedOf(s, Get(x)) >= 0
    ensures s.stored.Some? && s.numbers != [] ==> (LagOf(s, Get(x)) == 0 <==> s.latest == Some(|s.numbers| - 1))
  {
    var all := s.numbers + [x];
    if s.stored.Some? {
      var k := s.latest.value;
      assert all[k] == s.numbers[k] && all[k] < all[|s.numbers|];
      assert all[|s.numbers| - 1] == s.numbers[|s.numbers| - 1];
      assert k < |s.numbers| - 1 ==> all[k] < all[|s.numbers| - 1];
    } else if s.numbers != [] {
      assert all[|s.numbers| - 1] < all[|s.numbers|];
    }
  }

  /**
   * In every interleaving whose GETs come in the order of the numbering, the count is the serial one, plus how far each
   * GET lagged behind, less what the GETs before the first SET left uncounted.
   */
  lemma {:induction false} CountIsSerialPlusLag(steps: seq<Step>)
    requires Increasing(Run(steps).numbers)
    ensures Run(steps).drops == TotalDrops(Run(steps).numbers) + Lag(steps) - Missed(steps)
    ensures Lag(steps) >= 0 && Missed(steps) >= 0
  {
    if steps == [] {
    } else {
      var front, step := steps[..|steps| - 1], steps[|steps| - 1];
      NumbersGrow(Run(front), step);
      CountIsSerialPlusLag(front);
      if step.Get? {
        StoredIsOneOf(front);
        GetAdds(Run(front), step.number);
        SerialSnoc(Run(front).numbers, step.number);
      }
    }
  }

  /** Whenever a GET finds a number, the latest SET was that of the batch just before. */
  predicate InTurn(steps: seq<Step>) {
    if steps == [] then true else
    var front, step := steps[..|steps| - 1], steps[|steps| - 1];
    InTurn(front) && (step.Get? && Run(front).latest.Some? ==> Run(front).latest == Some(|Run(front).numbers| - 1))
  }

  lemma {:induction false} LagIsZeroIff(steps: seq<Step>)
    requires Increasing(Run(steps).numbers)
    ensures Lag(steps) == 0 <==> InTurn(steps)
  {
    if steps == [] {
    } else {
      var front, step := steps[..|steps| - 1], steps[|steps| - 1];
      NumbersGrow(Run(front), step);
      LagIsZeroIff(front);
      CountIsSerialPlusLag(front);
      StoredIsOneOf(front);
      if step.Get? {
        GetAdds(Run(front), step.number);
      }
    }
  }

  /** Every GET but the first finds a number. */
  predicate BaselineFirst(steps: seq<Step>) {
    if steps == [] then true else
    var front, step := steps[..|steps| - 1], steps[|steps| - 1];
    BaselineFirst(front) && (step.Get? && Run(front).numbers != [] ==> Run(front).latest.Some?)
  }

  lemma {:induction false} NothingMissed(steps: seq<Step>)
    requires BaselineFirst(steps)
    ensures Missed(steps) == 0
  {
    if steps == [] {
    } else {
      NothingMissed(steps[..|steps| - 1]);
      StoredIsOneOf(steps[..|steps| - 1]);
    }
  }

  /** Once the baseline is set in time, the count is right if and only if every GET follows the SET of the batch just before. */
  lemma CountIsRightIff(steps: seq<Step>)
    requires Increasing(Run(steps).numbers) && BaselineFirst(steps)
    ensures Run(steps).drops == TotalDrops(Run(steps).numbers) <==> InTurn(steps)
  {
    CountIsSerialPlusLag(steps);
    LagIsZeroIff(steps);
    NothingMissed(steps);
  }

  predicate Consecutive(xs: seq<int>) { forall i, j :: 0 <= i < j < |xs| ==> xs[j] - xs[i] == j - i }

  lemma {:induction false} NothingToMiss(steps: seq<Step>)
    requires Consecutive(Run(steps).numbers)
    ensures Increasing(Run(steps).numbers) && Missed(steps) == 0 && TotalDrops(Run(steps).numbers) == 0
  {
    if steps == [] {
    } else {
      var front, step := steps[..|steps| - 1], steps[|steps| - 1];
      var xs := Run(front).numbers;
      if step.Get? {
        assert Run(steps).numbers[..|xs|] == xs;
        assert forall i :: 0 <= i < |xs| ==> Run(steps).numbers[i] == xs[i];
        NothingToMiss(front);
        SerialSnoc(xs, step.number);
        assert xs != [] ==> Run(steps).numbers[|xs|] - Run(steps).numbers[|xs| - 1] == 1;
      } else {
        NothingToMiss(front);
      }
    }
  }

  /** With nothing lost and the GETs in order, drops are counted if and only if some GET overtakes a SET. */
  lemma LosslessCountIff(steps: seq<Step>)
    requires Consecutive(Run(steps).numbers)
    ensures Run(steps).drops == 0 <==> InTurn(steps)
  {
    NothingToMiss(steps);
    CountIsSerialPlusLag(steps);
    LagIsZeroIff(steps);
  }

  /** Three batches in a row, the third looked up before the second is stored: a drop is counted. */
  lemma OvertakenSetCounts(n: int)
    ensures var steps := [Get(n), Put(0), Get(n + 1), Get(n + 2)];
            Run(steps).numbers == [n, n + 1, n + 2] && Run(steps).drops == 1
  {
    var one, two, three := [Get(n)], [Get(n), Put(0)], [Get(n), Put(0), Get(n + 1)];
    RunSnoc([], Get(n));
    RunSnoc(one, Put(0));
    RunSnoc(two, Get(n + 1));
    RunSnoc(three, Get(n + 2));
    assert [] + one == one && one + [Put(0)] == two && two + [Get(n + 1)] == three;
    assert three + [Get(n + 2)] == [Get(n), Put(0), Get(n + 1), Get(n + 2)];
    assert Run(two).numbers == [n] && Run(two).stored == Some(n) && Run(two).drops == 0;
  }

  lemma RunSnoc(steps: seq<Step>, step: Step)
    ensures Run(steps + [step]) == Next(Run(steps), step)
  {
    assert (steps + [step])[..|steps|] == steps;
  }
}
