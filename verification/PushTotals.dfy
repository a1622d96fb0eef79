/** Where the packets of `PushInterleaving` go, event by event. */
module PushTotals {
  import Lists = PacketBuffer
  import opened PushInterleaving
  import opened Wrappers

  datatype Totals<T> = Totals(received: multiset<T>, refused: multiset<T>, aborted: multiset<T>, evicted: multiset<T>,
                              inserted: multiset<T>, lost: multiset<T>)

  function TotalsOf<T>(s: State<T>): Totals<T> {
    Totals(s.received, s.refused, s.aborted, s.evicted, s.inserted, s.lost)
  }

  /**
   * A datagram's packets are received once; refused when they are more than the cap as the length is read; aborted when the
   * task fails; a trim evicts what stands behind the first `keep` of the list, nothing when that is none; and what was
   * popped is inserted or lost as the insert succeeds or not.
   */
  function TotalsNext<T>(t: Totals<T>, s: State<T>, e: Event<T>): Totals<T> {
    match e
    case Receive(id, _, items) => if id in s.tasks then t else t.(received := t.received + multiset(items))
    case Length(id) =>
      if id in s.tasks && s.tasks[id].phase.Counting? && |s.tasks[id].items| > s.cap
      then t.(refused := t.refused + multiset(s.tasks[id].items)) else t
    case Trim(id) =>
      if id !in s.tasks || !s.tasks[id].phase.Trimming? then t else
      var list, keep := s.List(s.tasks[id].channel), s.tasks[id].phase.keep;
      if 0 < keep < |list| then t.(evicted := t.evicted + multiset(list[keep..])) else t
    case Fail(id) => if id in s.tasks then t.(aborted := t.aborted + multiset(s.tasks[id].items)) else t
    case Insert(ok) =>
      if s.popped.None? then t
      else if ok then t.(inserted := t.inserted + multiset(s.popped.value))
      else t.(lost := t.lost + multiset(s.popped.value))
    case _ => t
  }

  function Told<T>(cap: nat, events: seq<Event<T>>): Totals<T> {
    if events == [] then Totals(multiset{}, multiset{}, multiset{}, multiset{}, multiset{}, multiset{})
    else TotalsNext(Told(cap, events[..|events| - 1]), Run(cap, events[..|events| - 1]), events[|events| - 1])
  }

  lemma TrimEvicts<T>(list: seq<T>, keep: nat)
    ensures var kept := Lists.LTrim(list, 0, keep - 1);
            multiset(list) - multiset(kept) == if 0 < keep < |list| then multiset(list[keep..]) else multiset{}
  {
    if 0 < keep < |list| {
      assert Lists.LTrim(list, 0, keep - 1) == list[..keep] && list == list[..keep] + list[keep..];
    } else {
      assert Lists.LTrim(list, 0, keep - 1) == list;
    }
  }

  lemma TrimTotals<T>(s: State<T>, id: nat)
    requires KeepsSome(s)
    ensures TotalsOf(AfterTrim(s, id)) == TotalsNext(TotalsOf(s), s, Trim(id))
  {
    if id in s.tasks && s.tasks[id].phase.Trimming? {
      TrimEvicts(s.List(s.tasks[id].channel), s.tasks[id].phase.keep);
    }
  }

  lemma LengthTotals<T>(s: State<T>, id: nat)
    ensures TotalsOf(AfterLength(s, id)) == TotalsNext(TotalsOf(s), s, Length(id))
  {}

  lemma StepTotals<T>(s: State<T>, e: Event<T>)
    requires KeepsSome(s)
    ensures TotalsOf(Step(s, e)) == TotalsNext(TotalsOf(s), s, e)
  {
    match e
    case Trim(id) => TrimTotals(s, id);
    case Length(id) => LengthTotals(s, id);
    case _ =>
  }

  /** In every interleaving the packets received, refused, aborted, evicted, inserted and lost are those told. */
  lemma {:induction false} TotalsAreTold<T>(cap: nat, events: seq<Event<T>>)
    ensures TotalsOf(Run(cap, events)) == Told(cap, events)
  {
    if events == [] {
    } else {
      TotalsAreTold(cap, events[..|events| - 1]);
      RunKeepsSome(cap, events[..|events| - 1]);
      StepTotals(Run(cap, events[..|events| - 1]), events[|events| - 1]);
    }
  }
}
