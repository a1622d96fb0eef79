/** The communication node's batch numbers and the tracker that turns gaps in them into a drop count. */
module SequenceTracking {
  import opened Wrappers

  const RESET_THRESHOLD := 1_000_000

  /** The stored last sequence, and what one call reports. */
  datatype Outcome = Outcome(last: int, drops: int, isReset: bool)

  function Process(last: Option<int>, incoming: int): Outcome {
    match last
    case None => Outcome(incoming, 0, false)
    case Some(l) =>
      if l - incoming > RESET_THRESHOLD then Outcome(incoming, 0, true)
      else if incoming <= l then Outcome(l, 0, false)
      else Outcome(incoming, incoming - l - 1, false)
  }

  class SequenceTracker {
    var stored: map<string, int>

    constructor ()
      ensures stored == map[]
    {
      stored := map[];
    }

    function Last(channel: string): Option<int>
      reads this
    {
      if channel in stored then Some(stored[channel]) else None
    }

    method ProcessSequence(channel: string, incoming: int) returns (drops: int, isReset: bool)
      modifies this
      ensures var o := Process(old(Last(channel)), incoming);
              stored == old(stored)[channel := o.last] && drops == o.drops && isReset == o.isReset
    {
      if channel !in stored {
        stored := stored[channel := incoming];
        return 0, false;
      }
      var last := stored[channel];
      if last - incoming > RESET_THRESHOLD {
        stored := stored[channel := incoming];
        return 0, true;
      }
      if incoming > last + 1 {
        stored := stored[channel := incoming];
        return incoming - (last + 1), false;
      }
      if incoming <= last {
        assert stored == stored[channel := last];
        return 0, false;
      }
      stored := stored[channel := incoming];
      return 0, false;
    }
  }

  // ---- Whole runs of one channel, from a fresh baseline to the next reset ----

  function LastOf(xs: seq<int>): Option<int> {
    if xs == [] then None else Some(Process(LastOf(xs[..|xs| - 1]), xs[|xs| - 1]).last)
  }

  function TotalDrops(xs: seq<int>): int {
    if xs == [] then 0
    else TotalDrops(xs[..|xs| - 1]) + Process(LastOf(xs[..|xs| - 1]), xs[|xs| - 1]).drops
  }

  predicate NoReset(xs: seq<int>) {
    xs == [] || (NoReset(xs[..|xs| - 1]) && !Process(LastOf(xs[..|xs| - 1]), xs[|xs| - 1]).isReset)
  }

  /** The highest number seen. */
  function High(xs: seq<int>): int
    requires xs != []
  {
    if |xs| == 1 then xs[0]
    else if xs[|xs| - 1] > High(xs[..|xs| - 1]) then xs[|xs| - 1] else High(xs[..|xs| - 1])
  }

  lemma {:induction false} HighIsHighest(xs: seq<int>)
    requires xs != []
    ensures High(xs) in xs && forall i :: 0 <= i < |xs| ==> xs[i] <= High(xs)
  {
    if |xs| > 1 {
      var front := xs[..|xs| - 1];
      HighIsHighest(front);
      assert forall i :: 0 <= i < |front| ==> xs[i] == front[i];
    }
  }

  /** The numbers that were higher than everything before them, the baseline aside. */
  function Advancing(xs: seq<int>): set<int>
    requires xs != []
  {
    if |xs| == 1 then {} else
    var front, x := xs[..|xs| - 1], xs[|xs| - 1];
    Advancing(front) + if x > High(front) then {x} else {}
  }

  function Span(xs: seq<int>): set<int>
    requires xs != []
  {
    Range(xs[0], High(xs))
  }

  /** Numbers after the baseline and up to the highest that never arrived. */
  function Missing(xs: seq<int>): set<int>
    requires xs != []
  {
    set n | n in Span(xs) && n !in xs
  }

  /** Numbers in that span that did arrive, but only after a higher one. */
  function Late(xs: seq<int>): set<int>
    requires xs != []
  {
    set n | n in Span(xs) && n in xs && n !in Advancing(xs)
  }

  /** The numbers after a and up to b. */
  function Range(a: int, b: int): (s: set<int>)
    ensures forall n :: n in s <==> a < n <= b
    ensures a <= b ==> |s| == b - a
    decreases b - a
  {
    if b <= a then {} else Range(a, b - 1) + {b}
  }

  /** Between resets: stored = highest seen, and drops = highest - baseline - number of advancing batches. */
  lemma {:induction false} DropsAreGaps(xs: seq<int>)
    requires xs != [] && NoReset(xs)
    ensures LastOf(xs) == Some(High(xs))
    ensures Advancing(xs) <= Span(xs)
    ensures TotalDrops(xs) == High(xs) - xs[0] - |Advancing(xs)|
  {
    var front, x := xs[..|xs| - 1], xs[|xs| - 1];
    if |xs| == 1 {
      assert front == [];
    } else {
      DropsAreGaps(front);
      HighIsHighest(front);
      HighIsHighest(xs);
      assert forall n :: n in Span(front) ==> n in Span(xs);
      assert x > High(front) ==> x in Span(xs) && x !in Span(front);
    }
  }

  /**
   * For every delivery order the count is the numbers that never arrived plus the ones that arrived late;
   * so it is exact if and only if no number of the span was overtaken.
   */
  lemma DropsCountMissingAndLate(xs: seq<int>)
    requires xs != [] && NoReset(xs)
    ensures TotalDrops(xs) == |Missing(xs)| + |Late(xs)|
    ensures TotalDrops(xs) == |Missing(xs)| <==> forall x :: x in xs && x > xs[0] ==> x in Advancing(xs)
  {
    DropsAreGaps(xs);
    HighIsHighest(xs);
    AdvancingArrived(xs);
    assert Span(xs) == Advancing(xs) + (Missing(xs) + Late(xs));
    assert Missing(xs) !! Late(xs) && Advancing(xs) !! Missing(xs) + Late(xs);
    if Late(xs) == {} {
      forall x | x in xs && x > xs[0] ensures x in Advancing(xs) {
        assert x !in Late(xs);
      }
    }
  }

  lemma {:induction false} AdvancingArrived(xs: seq<int>)
    requires xs != []
    ensures forall n :: n in Advancing(xs) ==> n in xs
  {
    if |xs| > 1 {
      AdvancingArrived(xs[..|xs| - 1]);
    }
  }

  /** After a reset the tracker is in the state it would be in had the channel just started. */
  lemma ResetStartsAfresh(xs: seq<int>, x: int)
    requires Process(LastOf(xs), x).isReset
    ensures LastOf(xs + [x]) == LastOf([x]) && TotalDrops(xs + [x]) == TotalDrops(xs)
  {}

  /** A run has no reset if and only if no number is more than a million below one before it. */
  lemma {:induction false} NoResetIff(xs: seq<int>)
    ensures NoReset(xs) <==> forall i, j :: 0 <= i < j < |xs| ==> xs[i] - xs[j] <= 1_000_000
  {
    if |xs| <= 1 {
      assert xs != [] ==> NoReset(xs[..0]);
    } else {
      var front, x := xs[..|xs| - 1], xs[|xs| - 1];
      NoResetIff(front);
      assert forall i :: 0 <= i < |front| ==> xs[i] == front[i];
      if NoReset(front) {
        DropsAreGaps(front);
        HighIsHighest(front);
        var k :| 0 <= k < |front| && front[k] == High(front);
        assert xs[k] - x <= 1_000_000 ==> forall i :: 0 <= i < |front| ==> xs[i] - x <= 1_000_000;
      }
    }
  }

  /** A node that starts over within a million of its last number is not noticed until it has passed that number again. */
  lemma RestartIsSilent(last: int, xs: seq<int>)
    requires forall i :: 0 <= i < |xs| ==> last - 1_000_000 <= xs[i] <= last
    ensures var all := [last] + xs; NoReset(all) && LastOf(all) == Some(last) && TotalDrops(all) == 0
  {
    var all := [last] + xs;
    NoResetIff(all);
    assert NoReset(all) by {
      forall i, j | 0 <= i < j < |all| ensures all[i] - all[j] <= 1_000_000 {
        assert all[j] == xs[j - 1] && (i > 0 ==> all[i] == xs[i - 1]);
      }
    }
    DropsAreGaps(all);
    HighIsHighest(all);
    assert High(all) == last && Span(all) == {};
  }

  // ---- In-order lossy delivery of the node's numbering ----

  predicate Increasing(xs: seq<int>) {
    forall i, j :: 0 <= i < j < |xs| ==> xs[i] < xs[j]
  }

  lemma {:induction false} IncreasingAdvances(xs: seq<int>)
    requires xs != [] && Increasing(xs)
    ensures NoReset(xs) && High(xs) == xs[|xs| - 1]
    ensures forall x :: x in xs && x > xs[0] ==> x in Advancing(xs)
  {
    var front := xs[..|xs| - 1];
    if |xs| == 1 {
      assert NoReset(front);
    } else {
      IncreasingAdvances(front);
      DropsAreGaps(front);
      assert xs == front + [xs[|xs| - 1]];
    }
  }

  /** The sender: a batch goes out, with the next number, for every window in which packets arrived. */
  class CommunicationNode<Packet> {
    var sequence: nat
    var queue: seq<Packet>
    var sent: seq<(nat, seq<Packet>)>     // (sequence, packets) of every datagram

    ghost predicate Valid()
      reads this
    {
      sequence == |sent| && forall i :: 0 <= i < |sent| ==> sent[i].0 == i + 1 && sent[i].1 != []
    }

    constructor ()
      ensures Valid() && sent == [] && queue == []
    {
      sequence, queue, sent := 0, [], [];
    }

    method SendWindow()
      requires Valid()
      modifies this
      ensures Valid() && queue == []
      ensures sent == if old(queue) == [] then old(sent) else old(sent) + [(|old(sent)| + 1, old(queue))]
    {
      var packets := [];
      while queue != []
        invariant packets + queue == old(queue)
        invariant forall i :: 0 <= i < |sent| ==> sent[i].0 == i + 1 && sent[i].1 != []
        invariant sent == old(sent) && sequence == old(sequence)
        decreases |queue|
      {
        packets := packets + [queue[0]];
        queue := queue[1..];
      }
      assert packets == old(queue);
      if |packets| > 0 {
        sequence := sequence + 1;
        sent := sent + [(sequence, packets)];
      }
    }
  }

  /** Which of the sent batches got through, in order: their numbers. */
  function Numbers<Packet>(sent: seq<(nat, seq<Packet>)>, through: seq<bool>): seq<int>
    requires |sent| == |through|
  {
    if sent == [] then []
    else Numbers(sent[..|sent| - 1], through[..|sent| - 1]) +
         if through[|sent| - 1] then [sent[|sent| - 1].0 as int] else []
  }

  /** The sent batches strictly between the first and the last delivered one that were lost. */
  function LostBetween(through: seq<bool>, first: int, last: int): set<int> {
    set n | n in Range(first, last - 1) && !Arrived(through, n)
  }

  predicate Arrived(through: seq<bool>, n: int) {
    1 <= n <= |through| && through[n - 1]
  }

  /** Numbered from 1, as the node numbers them. */
  predicate Numbered<Packet>(sent: seq<(nat, seq<Packet>)>) { forall i :: 0 <= i < |sent| ==> sent[i].0 == i + 1 }

  lemma {:induction false} NumbersArrived<Packet>(sent: seq<(nat, seq<Packet>)>, through: seq<bool>, x: int)
    requires |sent| == |through| && Numbered(sent)
    ensures x in Numbers(sent, through) <==> Arrived(through, x)
  {
    if sent == [] {
    } else {
      var n := |sent| - 1;
      NumbersArrived(sent[..n], through[..n], x);
      assert 1 <= x <= n ==> through[..n][x - 1] == through[x - 1];
      assert sent[n].0 == n + 1;
    }
  }

  lemma IncreasingSnoc(xs: seq<int>, x: int)
    requires Increasing(xs) && forall y :: y in xs ==> y < x
    ensures Increasing(xs + [x])
  {
    assert forall i :: 0 <= i < |xs| ==> xs[i] in xs;
  }

  lemma {:induction false} NumbersAreIncreasing<Packet>(sent: seq<(nat, seq<Packet>)>, through: seq<bool>)
    requires |sent| == |through| && Numbered(sent)
    ensures Increasing(Numbers(sent, through))
  {
    if sent == [] {
    } else {
      var n := |sent| - 1;
      var front := Numbers(sent[..n], through[..n]);
      NumbersAreIncreasing(sent[..n], through[..n]);
      forall y | y in front ensures y < n + 1 {
        NumbersArrived(sent[..n], through[..n], y);
      }
      IncreasingSnoc(front, n + 1);
      assert front + [] == front;
    }
  }

  /** Whatever the network loses, in-order delivery of the node's numbering counts exactly the lost batches. */
  lemma LossyDeliveryCountsTheLost<Packet>(sent: seq<(nat, seq<Packet>)>, through: seq<bool>)
    requires |sent| == |through| && Numbered(sent)
    requires Numbers(sent, through) != []
    ensures var xs := Numbers(sent, through);
            TotalDrops(xs) == |LostBetween(through, xs[0], xs[|xs| - 1])|
  {
    var xs := Numbers(sent, through);
    NumbersAreIncreasing(sent, through);
    forall n ensures n in xs <==> Arrived(through, n) {
      NumbersArrived(sent, through, n);
    }
    IncreasingAdvances(xs);
    DropsCountMissingAndLate(xs);
    assert xs[0] in xs && xs[|xs| - 1] in xs;
    assert Missing(xs) == LostBetween(through, xs[0], xs[|xs| - 1]);
  }
}
