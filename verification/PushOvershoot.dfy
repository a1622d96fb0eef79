/** How long a buffer list can really get: the bound on concurrent pushes is attained, and needs batches below the cap. */
module PushOvershoot {
  import opened PushInterleaving

  // ---- Runs with their states ----

  datatype Link<T> = Link(before: State<T>, event: Event<T>, after: State<T>)

  /** A step that keeps to the batch size and to the tasks 0, …, writers - 1. */
  ghost predicate Fits<T>(l: Link<T>, cap: nat, ch: string, writers: nat, most: nat) {
    l.after == Step(l.before, l.event) && Keeps(l.event, cap, ch, writers, most)
  }

  predicate Keeps<T>(e: Event<T>, cap: nat, ch: string, writers: nat, most: nat) {
    FitsIn(e, ch, cap, most) && (e.Receive? ==> e.id < writers)
  }

  function Last<T>(cap: nat, links: seq<Link<T>>): State<T> {
    if links == [] then Start(cap) else links[|links| - 1].after
  }

  ghost predicate Chain<T>(cap: nat, links: seq<Link<T>>, ch: string, writers: nat, most: nat)
    decreases |links|
  {
    if links == [] then true else
    var front, l := links[..|links| - 1], links[|links| - 1];
    Chain(cap, front, ch, writers, most) && l.before == Last(cap, front) && Fits(l, cap, ch, writers, most)
  }

  function EventsOf<T>(links: seq<Link<T>>): seq<Event<T>> {
    if links == [] then [] else EventsOf(links[..|links| - 1]) + [links[|links| - 1].event]
  }

  lemma {:induction false} FewNumbers(s: set<nat>, n: nat)
    requires forall x :: x in s ==> x < n
    ensures |s| <= n
  {
    if n == 0 {
      assert s == {};
    } else {
      FewNumbers(s - {n - 1}, n - 1);
      assert s <= s - {n - 1} + {n - 1};
    }
  }

  predicate FewTasks<T>(s: State<T>, writers: nat) { forall id :: id in s.tasks ==> id < writers }

  lemma StepKeepsFew<T>(s: State<T>, e: Event<T>, writers: nat)
    requires FewTasks(s, writers) && (e.Receive? ==> e.id < writers)
    ensures FewTasks(Step(s, e), writers)
  {}

  lemma FewInFlight<T>(s: State<T>, ch: string, writers: nat)
    requires FewTasks(s, writers)
    ensures |InFlight(s, ch)| <= writers
  {
    FewNumbers(InFlight(s, ch), writers);
  }

  lemma RunSnoc<T>(cap: nat, front: seq<Event<T>>, l: Link<T>, ch: string, writers: nat, most: nat)
    requires Run(cap, front) == l.before && Calm(cap, front, ch, writers) && Fits(l, cap, ch, writers, most)
    requires FewTasks(l.before, writers)
    ensures Run(cap, front + [l.event]) == l.after && Calm(cap, front + [l.event], ch, writers) && FewTasks(l.after, writers)
  {
    RunAppends(cap, front, l.event);
    StepKeepsFew(l.before, l.event, writers);
    FewInFlight(l.after, ch, writers);
    assert (front + [l.event])[..|front|] == front;
  }

  /** A chain is a run to which the bound applies. */
  lemma {:induction false} ChainIsRun<T>(cap: nat, links: seq<Link<T>>, ch: string, writers: nat, most: nat)
    requires Chain(cap, links, ch, writers, most)
    ensures Run(cap, EventsOf(links)) == Last(cap, links) && Calm(cap, EventsOf(links), ch, writers)
    ensures FewTasks(Last(cap, links), writers)
    ensures forall i :: 0 <= i < |EventsOf(links)| ==> FitsIn(EventsOf(links)[i], ch, cap, most)
    decreases |links|
  {
    if links == [] {
      FewInFlight(Start<T>(cap), ch, writers);
    } else {
      var front, l := links[..|links| - 1], links[|links| - 1];
      ChainIsRun(cap, front, ch, writers, most);
      RunSnoc(cap, EventsOf(front), l, ch, writers, most);
    }
  }

  lemma ChainSnoc<T>(cap: nat, links: seq<Link<T>>, l: Link<T>, ch: string, writers: nat, most: nat)
    requires Chain(cap, links, ch, writers, most) && Fits(l, cap, ch, writers, most) && l.before == Last(cap, links)
    ensures Chain(cap, links + [l], ch, writers, most) && Last(cap, links + [l]) == l.after
  {
    assert (links + [l])[..|links|] == links;
  }

  lemma Extend<T>(cap: nat, links: seq<Link<T>>, e: Event<T>, ch: string, writers: nat, most: nat)
    returns (longer: seq<Link<T>>)
    requires Chain(cap, links, ch, writers, most) && Keeps(e, cap, ch, writers, most)
    ensures Chain(cap, longer, ch, writers, most) && Last(cap, longer) == Step(Last(cap, links), e)
  {
    var s := Last(cap, links);
    var l := Link(s, e, Step(s, e));
    ChainSnoc(cap, links, l, ch, writers, most);
    longer := links + [l];
  }

  // ---- Many pushes that wait to append ----

  /** The tasks lo, …, hi - 1 are all about to append the same batch. */
  ghost predicate Waiting<T>(tasks: map<nat, Task<T>>, ch: string, lo: nat, hi: nat, batch: seq<T>) {
    && lo <= hi && |tasks.Keys| == hi - lo
    && (forall id :: id in tasks <==> lo <= id < hi)
    && (forall id :: id in tasks ==> tasks[id] == Task(ch, batch, Appending))
  }

  ghost predicate At<T>(s: State<T>, cap: nat, ch: string, len: nat, lo: nat, hi: nat, batch: seq<T>) {
    s.cap == cap && |s.List(ch)| == len && Waiting(s.tasks, ch, lo, hi, batch)
  }

  lemma OneMoreWaits<T>(tasks: map<nat, Task<T>>, ch: string, k: nat, batch: seq<T>)
    requires Waiting(tasks, ch, 0, k, batch)
    ensures Waiting(tasks[k := Task(ch, batch, Appending)], ch, 0, k + 1, batch)
  {
    assert tasks[k := Task(ch, batch, Appending)].Keys == tasks.Keys + {k};
  }

  lemma OneLessWaits<T>(tasks: map<nat, Task<T>>, ch: string, lo: nat, hi: nat, batch: seq<T>)
    requires Waiting(tasks, ch, lo, hi, batch) && lo < hi
    ensures Waiting(tasks - {lo}, ch, lo + 1, hi, batch)
  {
    assert lo in tasks.Keys && (tasks - {lo}).Keys == tasks.Keys - {lo};
  }

  lemma Twice<K, V>(m: map<K, V>, k: K, v: V, w: V)
    ensures m[k := v][k := w] == m[k := w]
  {}

  lemma LookedState<T>(s: State<T>, ch: string, k: nat, batch: seq<T>)
    requires k !in s.tasks && batch != [] && |s.List(ch)| + |batch| <= s.cap
    ensures var received := AfterReceive(s, k, ch, batch);
            var registered := AfterRegister(received, k);
            var looked := AfterLength(registered, k);
            && received.tasks == s.tasks[k := Task(ch, batch, Arrived)]
            && registered.tasks == s.tasks[k := Task(ch, batch, Counting)]
            && looked.tasks == s.tasks[k := Task(ch, batch, Appending)]
            && looked.cap == s.cap && looked.List(ch) == s.List(ch)
  {
    Twice(s.tasks, k, Task(ch, batch, Arrived), Task(ch, batch, Counting));
    Twice(s.tasks, k, Task(ch, batch, Counting), Task(ch, batch, Appending));
  }

  lemma LookSteps<T>(s: State<T>, cap: nat, ch: string, len: nat, k: nat, batch: seq<T>)
    requires At(s, cap, ch, len, 0, k, batch) && batch != [] && len + |batch| <= cap
    ensures At(AfterLength(AfterRegister(AfterReceive(s, k, ch, batch), k), k), cap, ch, len, 0, k + 1, batch)
  {
    LookedState(s, ch, k, batch);
    OneMoreWaits(s.tasks, ch, k, batch);
  }

  /** One more push arrives and looks at the list while it still has room. */
  lemma Look<T>(cap: nat, links: seq<Link<T>>, ch: string, writers: nat, most: nat, len: nat, k: nat, batch: seq<T>)
    returns (after: seq<Link<T>>)
    requires Chain(cap, links, ch, writers, most) && At(Last(cap, links), cap, ch, len, 0, k, batch)
    requires batch != [] && len + |batch| <= cap && |batch| <= most && k < writers
    ensures Chain(cap, after, ch, writers, most) && At(Last(cap, after), cap, ch, len, 0, k + 1, batch)
  {
    LookSteps(Last(cap, links), cap, ch, len, k, batch);
    var received := Extend(cap, links, Receive(k, ch, batch), ch, writers, most);
    var registered := Extend(cap, received, Register(k), ch, writers, most);
    after := Extend(cap, registered, Length(k), ch, writers, most);
  }

  lemma AppendState<T>(s: State<T>, cap: nat, ch: string, len: nat, lo: nat, hi: nat, batch: seq<T>)
    requires At(s, cap, ch, len, lo, hi, batch) && lo < hi
    ensures At(AfterAppend(s, lo), cap, ch, len + |batch|, lo + 1, hi, batch)
  {
    OneLessWaits(s.tasks, ch, lo, hi, batch);
  }

  lemma AppendOne<T>(cap: nat, links: seq<Link<T>>, ch: string, writers: nat, most: nat, len: nat, lo: nat, hi: nat,
                     batch: seq<T>)
    returns (after: seq<Link<T>>)
    requires Chain(cap, links, ch, writers, most) && At(Last(cap, links), cap, ch, len, lo, hi, batch) && lo < hi <= writers
    ensures Chain(cap, after, ch, writers, most)
    ensures At(Last(cap, after), cap, ch, len + |batch|, lo + 1, hi, batch)
  {
    AppendState(Last(cap, links), cap, ch, len, lo, hi, batch);
    after := Extend(cap, links, Append(lo), ch, writers, most);
  }

  /** `len` and k times `size`. */
  function Longer(len: nat, k: nat, size: nat): nat
    decreases k
  {
    if k == 0 then len else Longer(len + size, k - 1, size)
  }

  lemma {:induction false} LongerIs(len: nat, k: nat, size: nat)
    ensures Longer(len, k, size) == len + k * size
    decreases k
  {
    if k == 0 {
    } else {
      LongerIs(len + size, k - 1, size);
      assert k * size == (k - 1) * size + size;
    }
  }

  /** All the waiting tasks append, none of them looking again. */
  function Drained<T>(s: State<T>, lo: nat, hi: nat): State<T>
    decreases hi - lo
  {
    if lo >= hi then s else Drained(AfterAppend(s, lo), lo + 1, hi)
  }

  lemma {:induction false} DrainedLength<T>(s: State<T>, cap: nat, ch: string, len: nat, lo: nat, hi: nat, batch: seq<T>)
    requires At(s, cap, ch, len, lo, hi, batch)
    ensures |Drained(s, lo, hi).List(ch)| == Longer(len, hi - lo, |batch|)
    decreases hi - lo
  {
    if lo == hi {
    } else {
      AppendState(s, cap, ch, len, lo, hi, batch);
      DrainedLength(AfterAppend(s, lo), cap, ch, len + |batch|, lo + 1, hi, batch);
    }
  }

  lemma {:induction false} AppendAll<T>(cap: nat, links: seq<Link<T>>, ch: string, writers: nat, most: nat, lo: nat, hi: nat)
    returns (after: seq<Link<T>>)
    requires Chain(cap, links, ch, writers, most)
    ensures Chain(cap, after, ch, writers, most) && Last(cap, after) == Drained(Last(cap, links), lo, hi)
    decreases hi - lo
  {
    if lo >= hi {
      after := links;
    } else {
      var one := Extend(cap, links, Append(lo), ch, writers, most);
      after := AppendAll(cap, one, ch, writers, most, lo + 1, hi);
    }
  }

  lemma NobodyWaits<T>(s: State<T>, cap: nat, ch: string, len: nat, n: nat, batch: seq<T>, next: seq<T>)
    requires At(s, cap, ch, len, n, n, batch)
    ensures At(s, cap, ch, len, 0, 0, next)
  {}

  lemma PushOne<T>(cap: nat, links: seq<Link<T>>, ch: string, writers: nat, most: nat, len: nat, x: T, next: seq<T>)
    returns (after: seq<Link<T>>)
    requires Chain(cap, links, ch, writers, most) && At(Last(cap, links), cap, ch, len, 0, 0, [x])
    requires len < cap && writers >= 1 && most >= 1
    ensures Chain(cap, after, ch, writers, most) && At(Last(cap, after), cap, ch, len + 1, 0, 0, next)
  {
    var looked := Look(cap, links, ch, writers, most, len, 0, [x]);
    after := AppendOne(cap, looked, ch, writers, most, len, 0, 1, [x]);
    NobodyWaits(Last(cap, after), cap, ch, len + 1, 1, [x], next);
  }

  /** One packet after the other, the list grows to any length up to the cap. */
  lemma {:induction false} Fill<T>(cap: nat, ch: string, writers: nat, most: nat, len: nat, x: T, next: seq<T>)
    returns (links: seq<Link<T>>)
    requires len <= cap && writers >= 1 && most >= 1
    ensures Chain(cap, links, ch, writers, most) && At(Last(cap, links), cap, ch, len, 0, 0, next)
    decreases len
  {
    if len == 0 {
      links := [];
    } else {
      var front := Fill(cap, ch, writers, most, len - 1, x, [x]);
      links := PushOne(cap, front, ch, writers, most, len - 1, x, next);
    }
  }

  lemma {:induction false} LookAll<T>(cap: nat, ch: string, writers: nat, most: nat, len: nat, k: nat, x: T, batch: seq<T>)
    returns (links: seq<Link<T>>)
    requires batch != [] && len + |batch| <= cap && |batch| <= most && 1 <= writers && k <= writers
    ensures Chain(cap, links, ch, writers, most) && At(Last(cap, links), cap, ch, len, 0, k, batch)
    decreases k
  {
    if k == 0 {
      links := Fill(cap, ch, writers, most, len, x, batch);
    } else {
      var front := LookAll(cap, ch, writers, most, len, k - 1, x, batch);
      links := Look(cap, front, ch, writers, most, len, k - 1, batch);
    }
  }

  lemma AllAppended(cap: nat, writers: nat, most: nat)
    requires most < cap && writers >= 1
    ensures Longer(cap - most, writers, most) == cap + (writers - 1) * most
  {
    LongerIs(cap - most, writers, most);
    assert writers * most == (writers - 1) * most + most;
  }

  lemma WillDrain<T>(s: State<T>, cap: nat, ch: string, len: nat, k: nat, batch: seq<T>)
    requires At(s, cap, ch, len, 0, k, batch)
    ensures |Drained(s, 0, k).List(ch)| == Longer(len, k, |batch|)
  {
    DrainedLength(s, cap, ch, len, 0, k, batch);
  }

  lemma AllLook<T>(cap: nat, ch: string, writers: nat, most: nat, len: nat, x: T, batch: seq<T>)
    returns (links: seq<Link<T>>)
    requires batch != [] && len + |batch| <= cap && |batch| <= most && writers >= 1
    ensures Chain(cap, links, ch, writers, most)
    ensures |Drained(Last(cap, links), 0, writers).List(ch)| == Longer(len, writers, |batch|)
  {
    links := LookAll(cap, ch, writers, most, len, writers, x, batch);
    WillDrain(Last(cap, links), cap, ch, len, writers, batch);
  }

  lemma AllPush<T>(cap: nat, ch: string, writers: nat, most: nat, len: nat, x: T, batch: seq<T>)
    returns (links: seq<Link<T>>)
    requires batch != [] && len + |batch| <= cap && |batch| <= most && writers >= 1
    ensures Chain(cap, links, ch, writers, most) && |Last(cap, links).List(ch)| == Longer(len, writers, |batch|)
  {
    var looked := AllLook(cap, ch, writers, most, len, x, batch);
    links := AppendAll(cap, looked, ch, writers, most, 0, writers);
  }

  /**
   * The bound cap + (writers - 1) * most is attained, for every cap, number of writers and batch size below the cap: a run
   * to which it applies fills the list up to one batch below the cap; then all writers look, and then all append.
   */
  lemma BoundIsAttained<T>(cap: nat, ch: string, writers: nat, most: nat, x: T) returns (events: seq<Event<T>>)
    requires 1 <= most < cap && writers >= 1
    ensures Calm(cap, events, ch, writers) && forall i :: 0 <= i < |events| ==> FitsIn(events[i], ch, cap, most)
    ensures |Run(cap, events).List(ch)| == cap + (writers - 1) * most
  {
    var batch := seq(most, _ => x);
    var links := AllPush(cap, ch, writers, most, cap - most, x, batch);
    AllAppended(cap, writers, most);
    ChainIsRun(cap, links, ch, writers, most);
    events := EventsOf(links);
  }

  // ---- Batches of exactly the cap ----

  /** LTRIM 0 -1 keeps the whole list. */
  lemma TrimsNothing<T>(s: State<T>, id: nat, ch: string, batch: seq<T>)
    requires id in s.tasks && s.tasks[id] == Task(ch, batch, Trimming(0))
    ensures AfterTrim(s, id).tasks == s.tasks[id := Task(ch, batch, Appending)]
    ensures AfterTrim(s, id).cap == s.cap && AfterTrim(s, id).List(ch) == s.List(ch)
  {}

  lemma CountingState<T>(s: State<T>, ch: string, id: nat, batch: seq<T>)
    requires id !in s.tasks
    ensures var t := AfterRegister(AfterReceive(s, id, ch, batch), id);
            t.tasks == s.tasks[id := Task(ch, batch, Counting)] && t.cap == s.cap && t.List(ch) == s.List(ch)
  {
    Twice(s.tasks, id, Task(ch, batch, Arrived), Task(ch, batch, Counting));
  }

  lemma OverflowState<T>(s: State<T>, ch: string, id: nat, batch: seq<T>)
    requires id in s.tasks && s.tasks[id] == Task(ch, batch, Counting) && |batch| == s.cap > 0
    ensures var t := AfterTrim(AfterLength(s, id), id);
            t.tasks == s.tasks[id := Task(ch, batch, Appending)] && t.cap == s.cap && t.List(ch) == s.List(ch)
  {
    var looked := AfterLength(s, id);
    if s.List(ch) == [] {
      assert looked == Moved(s, id, Appending);
    } else {
      assert looked == Moved(s, id, Trimming(0));
      TrimsNothing(looked, id, ch, batch);
      Twice(s.tasks, id, Task(ch, batch, Trimming(0)), Task(ch, batch, Appending));
    }
  }

  /** One push is about to look at the list. */
  predicate Looking<T>(s: State<T>, cap: nat, ch: string, len: nat, batch: seq<T>) {
    s.cap == cap && |s.List(ch)| == len && s.tasks == map[0 := Task(ch, batch, Counting)]
  }

  lemma ArrivesState<T>(s: State<T>, cap: nat, ch: string, len: nat, batch: seq<T>)
    requires At(s, cap, ch, len, 0, 0, batch)
    ensures Looking(AfterRegister(AfterReceive(s, 0, ch, batch), 0), cap, ch, len, batch)
  {
    assert s.tasks == map[];
    CountingState(s, ch, 0, batch);
  }

  lemma OverflowsState<T>(s: State<T>, cap: nat, ch: string, len: nat, batch: seq<T>)
    requires Looking(s, cap, ch, len, batch) && |batch| == cap > 0
    ensures At(AfterTrim(AfterLength(s, 0), 0), cap, ch, len, 0, 1, batch)
  {
    OverflowState(s, ch, 0, batch);
    Twice(map[], 0, Task(ch, batch, Counting), Task(ch, batch, Appending));
    OneMoreWaits(map[], ch, 0, batch);
  }

  lemma ArriveAtCap<T>(cap: nat, links: seq<Link<T>>, ch: string, len: nat, batch: seq<T>) returns (after: seq<Link<T>>)
    requires Chain(cap, links, ch, 1, cap) && At(Last(cap, links), cap, ch, len, 0, 0, batch) && |batch| == cap
    ensures Chain(cap, after, ch, 1, cap) && Looking(Last(cap, after), cap, ch, len, batch)
  {
    ArrivesState(Last(cap, links), cap, ch, len, batch);
    var received := Extend(cap, links, Receive(0, ch, batch), ch, 1, cap);
    after := Extend(cap, received, Register(0), ch, 1, cap);
  }

  lemma LookAtCap<T>(cap: nat, links: seq<Link<T>>, ch: string, len: nat, batch: seq<T>) returns (after: seq<Link<T>>)
    requires Chain(cap, links, ch, 1, cap) && Looking(Last(cap, links), cap, ch, len, batch) && |batch| == cap > 0
    ensures Chain(cap, after, ch, 1, cap) && At(Last(cap, after), cap, ch, len, 0, 1, batch)
  {
    OverflowsState(Last(cap, links), cap, ch, len, batch);
    var looked := Extend(cap, links, Length(0), ch, 1, cap);
    after := Extend(cap, looked, Trim(0), ch, 1, cap);
  }

  lemma PushAtCap<T>(cap: nat, links: seq<Link<T>>, ch: string, len: nat, batch: seq<T>) returns (after: seq<Link<T>>)
    requires Chain(cap, links, ch, 1, cap) && At(Last(cap, links), cap, ch, len, 0, 0, batch) && |batch| == cap > 0
    ensures Chain(cap, after, ch, 1, cap) && At(Last(cap, after), cap, ch, len + cap, 0, 0, batch)
  {
    var arrived := ArriveAtCap(cap, links, ch, len, batch);
    var looked := LookAtCap(cap, arrived, ch, len, batch);
    after := AppendOne(cap, looked, ch, 1, cap, len, 0, 1, batch);
    NobodyWaits(Last(cap, after), cap, ch, len + cap, 1, batch, batch);
  }

  lemma {:induction false} PushesAtCap<T>(cap: nat, ch: string, k: nat, batch: seq<T>, total: nat)
    returns (links: seq<Link<T>>)
    requires |batch| == cap > 0 && total == k * cap
    ensures Chain(cap, links, ch, 1, cap) && At(Last(cap, links), cap, ch, total, 0, 0, batch)
    decreases k
  {
    if k == 0 {
      links := [];
    } else {
      OneCapMore(k, cap);
      var front := PushesAtCap(cap, ch, k - 1, batch, (k - 1) * cap);
      links := PushAtCap(cap, front, ch, (k - 1) * cap, batch);
    }
  }

  lemma OneCapMore(k: nat, cap: nat)
    requires k > 0
    ensures (k - 1) * cap >= 0 && k * cap == (k - 1) * cap + cap
  {}

  /** With batches of the cap itself there is no bound at all, even with one writer: k pushes leave k times the cap. */
  lemma CapBatchesPileUp<T>(cap: nat, ch: string, k: nat, x: T) returns (events: seq<Event<T>>)
    requires cap > 0
    ensures Calm(cap, events, ch, 1) && forall i :: 0 <= i < |events| ==> FitsIn(events[i], ch, cap, cap)
    ensures |Run(cap, events).List(ch)| == k * cap
  {
    var links := PushesAtCap(cap, ch, k, seq(cap, _ => x), k * cap);
    ChainIsRun(cap, links, ch, 1, cap);
    events := EventsOf(links);
  }
}
