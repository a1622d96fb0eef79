/**
 * Every datagram gets its own asyncio task, so the LLEN, LTRIM and LPUSH of many pushes interleave with each
 * other and with the flusher. One step here is one Redis command; a disabled step does nothing.
 */
module PushInterleaving {
  import Lists = PacketBuffer
  import opened SetSums
  import opened Wrappers

  /** Where `_handle_batch` stands: before `register_channel`, before LLEN, before LTRIM, before LPUSH. */
  datatype Phase = Arrived | Counting | Trimming(keep: int) | Appending

  datatype Task<T> = Task(channel: string, items: seq<T>, phase: Phase)

  datatype State<T> = State(cap: nat, lists: map<string, seq<T>>, tasks: map<nat, Task<T>>, registered: set<string>,
                            popped: Option<seq<T>>,
                            received: multiset<T>, refused: multiset<T>, aborted: multiset<T>, evicted: multiset<T>,
                            inserted: multiset<T>, lost: multiset<T>)
  {
    function List(ch: string): seq<T> { if ch in lists then lists[ch] else [] }
  }

  datatype Event<T> = Receive(id: nat, channel: string, items: seq<T>)
                    | Register(id: nat) | Length(id: nat) | Trim(id: nat) | Append(id: nat) | Fail(id: nat)
                    | Pop(channel: string) | Insert(ok: bool)

  /** One process run starts on empty lists. */
  function Start<T>(cap: nat): State<T> {
    State(cap, map[], map[], {}, None, multiset{}, multiset{}, multiset{}, multiset{}, multiset{}, multiset{})
  }

  function Moved<T>(s: State<T>, id: nat, phase: Phase): State<T>
    requires id in s.tasks
  {
    s.(tasks := s.tasks[id := s.tasks[id].(phase := phase)])
  }

  function Done<T>(s: State<T>, id: nat): State<T> {
    s.(tasks := s.tasks - {id})
  }

  function AfterReceive<T>(s: State<T>, id: nat, channel: string, items: seq<T>): State<T> {
    if id in s.tasks then s else
    s.(tasks := s.tasks[id := Task(channel, items, Arrived)], received := s.received + multiset(items))
  }

  function AfterRegister<T>(s: State<T>, id: nat): State<T> {
    if id !in s.tasks || !s.tasks[id].phase.Arrived? then s else
    Moved(s, id, Counting).(registered := s.registered + {s.tasks[id].channel})
  }

  function AfterLength<T>(s: State<T>, id: nat): State<T> {
    if id !in s.tasks || !s.tasks[id].phase.Counting? then s else
    var n := |s.tasks[id].items|;
    if n == 0 then Done(s, id)
    else if |s.List(s.tasks[id].channel)| + n <= s.cap then Moved(s, id, Appending)
    else if s.cap - n < 0 then Done(s, id).(refused := s.refused + multiset(s.tasks[id].items))
    else Moved(s, id, Trimming(s.cap - n))
  }

  function AfterTrim<T>(s: State<T>, id: nat): State<T> {
    if id !in s.tasks || !s.tasks[id].phase.Trimming? then s else
    var list := s.List(s.tasks[id].channel);
    var kept := Lists.LTrim(list, 0, s.tasks[id].phase.keep - 1);
    Moved(s, id, Appending).(lists := s.lists[s.tasks[id].channel := kept],
                             evicted := s.evicted + (multiset(list) - multiset(kept)))
  }

  function AfterAppend<T>(s: State<T>, id: nat): State<T> {
    if id !in s.tasks || !s.tasks[id].phase.Appending? then s else
    var ch := s.tasks[id].channel;
    Done(s, id).(lists := s.lists[ch := Lists.LPush(s.List(ch), s.tasks[id].items)])
  }

  function AfterFail<T>(s: State<T>, id: nat): State<T> {
    if id !in s.tasks then s else
    Done(s, id).(aborted := s.aborted + multiset(s.tasks[id].items))
  }

  function AfterPop<T>(s: State<T>, channel: string): State<T> {
    if channel !in s.registered || s.popped.Some? then s else
    s.(lists := s.lists - {channel}, popped := Some(s.List(channel)))
  }

  function AfterInsert<T>(s: State<T>, ok: bool): State<T> {
    if s.popped.None? then s else
    var items := multiset(s.popped.value);
    if ok then s.(popped := None, inserted := s.inserted + items) else s.(popped := None, lost := s.lost + items)
  }

  function Step<T>(s: State<T>, e: Event<T>): State<T> {
    match e
    case Receive(id, channel, items) => AfterReceive(s, id, channel, items)
    case Register(id) => AfterRegister(s, id)
    case Length(id) => AfterLength(s, id)
    case Trim(id) => AfterTrim(s, id)
    case Append(id) => AfterAppend(s, id)
    case Fail(id) => AfterFail(s, id)
    case Pop(channel) => AfterPop(s, channel)
    case Insert(ok) => AfterInsert(s, ok)
  }

  function Run<T>(cap: nat, events: seq<Event<T>>): State<T> {
    if events == [] then Start(cap) else Step(Run(cap, events[..|events| - 1]), events[|events| - 1])
  }

  /** Undisturbed, the three steps are one push of the serial specification. */
  lemma UndisturbedPush<T>(s: State<T>, id: nat)
    requires id in s.tasks && s.tasks[id].phase.Counting?
    ensures var ch, t := s.tasks[id].channel, AfterAppend(AfterTrim(AfterLength(s, id), id), id);
            && t.List(ch) == Lists.Pushed(s.List(ch), s.tasks[id].items, s.cap)
            && id !in t.tasks && forall other :: other != ch ==> t.List(other) == s.List(other)
  {
    LengthCases(s, id);
    var n := |s.tasks[id].items|;
    if n > 0 && |s.List(s.tasks[id].channel)| + n > s.cap && n <= s.cap {
      TrimmedPush(s, id);
    }
  }

  lemma TrimmedPush<T>(s: State<T>, id: nat)
    requires id in s.tasks && s.tasks[id].phase.Counting? && 0 < |s.tasks[id].items| <= s.cap
    requires |s.List(s.tasks[id].channel)| + |s.tasks[id].items| > s.cap
    ensures var ch := s.tasks[id].channel;
            var looked := Moved(s, id, Trimming(s.cap - |s.tasks[id].items|));
            var t := AfterAppend(AfterTrim(looked, id), id);
            && t.List(ch) == Lists.Pushed(s.List(ch), s.tasks[id].items, s.cap)
            && id !in t.tasks && forall other :: other != ch ==> t.List(other) == s.List(other)
  {}

  // ---- Conservation ----

  ghost function Stored<T>(lists: map<string, seq<T>>): string -> multiset<T> {
    ch => if ch in lists then multiset(lists[ch]) else multiset{}
  }

  ghost function Carried<T>(tasks: map<nat, Task<T>>): nat -> multiset<T> {
    id => if id in tasks then multiset(tasks[id].items) else multiset{}
  }

  ghost function Buffered<T>(s: State<T>): multiset<T> { Gather(s.lists.Keys, Stored(s.lists)) }
  ghost function InTasks<T>(s: State<T>): multiset<T> { Gather(s.tasks.Keys, Carried(s.tasks)) }
  function InFlush<T>(s: State<T>): multiset<T> { if s.popped.Some? then multiset(s.popped.value) else multiset{} }

  /** Every packet received is in exactly one place. */
  ghost predicate Conserved<T>(s: State<T>) {
    s.received == InTasks(s) + Buffered(s) + InFlush(s) + s.inserted + s.evicted + s.refused + s.aborted + s.lost
  }

  /** The same, packet by packet. */
  ghost predicate ConservedAt<T>(s: State<T>, x: T) {
    s.received[x] == InTasks(s)[x] + Buffered(s)[x] + InFlush(s)[x] + s.inserted[x] + s.evicted[x] + s.refused[x]
                     + s.aborted[x] + s.lost[x]
  }

  lemma StoredUpdate<T>(lists: map<string, seq<T>>, ch: string, list: seq<T>)
    ensures Gather(lists[ch := list].Keys, Stored(lists[ch := list]))
            == multiset(list) + Gather((lists - {ch}).Keys, Stored(lists - {ch}))
  {
    var after := lists[ch := list];
    GatherExtract(after.Keys, ch, Stored(after));
    assert after.Keys - {ch} == (lists - {ch}).Keys;
    GatherSame((lists - {ch}).Keys, Stored(after), Stored(lists - {ch}));
  }

  lemma StoredSplit<T>(lists: map<string, seq<T>>, ch: string)
    ensures Gather(lists.Keys, Stored(lists))
            == (if ch in lists then multiset(lists[ch]) else multiset{}) + Gather((lists - {ch}).Keys, Stored(lists - {ch}))
  {
    if ch in lists {
      assert lists[ch := lists[ch]] == lists;
      StoredUpdate(lists, ch, lists[ch]);
    } else {
      assert lists - {ch} == lists;
    }
  }

  lemma CarriedUpdate<T>(tasks: map<nat, Task<T>>, id: nat, task: Task<T>)
    ensures Gather(tasks[id := task].Keys, Carried(tasks[id := task]))
            == multiset(task.items) + Gather((tasks - {id}).Keys, Carried(tasks - {id}))
  {
    var after := tasks[id := task];
    GatherExtract(after.Keys, id, Carried(after));
    assert after.Keys - {id} == (tasks - {id}).Keys;
    GatherSame((tasks - {id}).Keys, Carried(after), Carried(tasks - {id}));
  }

  /** What task `id` carries, and what the others do. */
  lemma CarriedSplit<T>(tasks: map<nat, Task<T>>, id: nat)
    ensures Gather(tasks.Keys, Carried(tasks))
            == (if id in tasks then multiset(tasks[id].items) else multiset{})
               + Gather((tasks - {id}).Keys, Carried(tasks - {id}))
  {
    if id in tasks {
      assert tasks[id := tasks[id]] == tasks;
      CarriedUpdate(tasks, id, tasks[id]);
    } else {
      assert tasks - {id} == tasks;
    }
  }

  lemma MovedKeeps<T>(s: State<T>, id: nat, phase: Phase)
    requires id in s.tasks
    ensures InTasks(Moved(s, id, phase)) == InTasks(s)
  {
    CarriedSplit(s.tasks, id);
    CarriedUpdate(s.tasks, id, s.tasks[id].(phase := phase));
  }

  lemma DoneDrops<T>(s: State<T>, id: nat)
    requires id in s.tasks
    ensures InTasks(s) == multiset(s.tasks[id].items) + InTasks(Done(s, id))
  {
    CarriedSplit(s.tasks, id);
  }

  lemma ReverseSame<T>(s: seq<T>)
    ensures multiset(Lists.Reverse(s)) == multiset(s)
  {
    if s == [] {
    } else {
      var n := |s| - 1;
      ReverseSame(s[..n]);
      assert s == s[..n] + [s[n]] && Lists.Reverse(s) == [s[n]] + Lists.Reverse(s[..n]);
    }
  }

  lemma TrimTakes<T>(list: seq<T>, keep: int)
    requires keep >= 0
    ensures var kept := Lists.LTrim(list, 0, keep - 1);
            multiset(list) == multiset(kept) + (multiset(list) - multiset(kept))
    ensures keep > 0 ==> |Lists.LTrim(list, 0, keep - 1)| <= keep
  {
    var kept := Lists.LTrim(list, 0, keep - 1);
    assert list == kept + list[|kept|..];
  }

  /** A trimming task keeps a non-negative number of records. */
  ghost predicate KeepsSome<T>(s: State<T>) {
    forall id :: id in s.tasks && s.tasks[id].phase.Trimming? ==> s.tasks[id].phase.keep == s.cap - |s.tasks[id].items| >= 0
  }

  lemma AppendConserves<T>(s: State<T>, id: nat, x: T)
    requires ConservedAt(s, x)
    ensures ConservedAt(AfterAppend(s, id), x)
  {
    if id in s.tasks {
      var ch := s.tasks[id].channel;
      DoneDrops(s, id);
      StoredSplit(s.lists, ch);
      StoredUpdate(s.lists, ch, Lists.LPush(s.List(ch), s.tasks[id].items));
      ReverseSame(s.tasks[id].items);
    }
  }

  lemma TrimmedLists<T>(lists: map<string, seq<T>>, ch: string, kept: seq<T>, x: T)
    requires ch in lists ==> multiset(lists[ch]) >= multiset(kept)
    requires ch !in lists ==> kept == []
    ensures Gather(lists.Keys, Stored(lists))[x]
            == Gather(lists[ch := kept].Keys, Stored(lists[ch := kept]))[x]
               + (multiset(if ch in lists then lists[ch] else []) - multiset(kept))[x]
  {
    StoredSplit(lists, ch);
    StoredUpdate(lists, ch, kept);
  }

  lemma TrimConserves<T>(s: State<T>, id: nat, x: T)
    requires ConservedAt(s, x) && KeepsSome(s)
    ensures ConservedAt(AfterTrim(s, id), x)
  {
    if id in s.tasks && s.tasks[id].phase.Trimming? {
      var kept := TrimCase(s, id);
      TrimBalances(s, id, kept, x);
    }
  }

  lemma TrimCase<T>(s: State<T>, id: nat) returns (kept: seq<T>)
    requires KeepsSome(s) && id in s.tasks && s.tasks[id].phase.Trimming?
    ensures var list := s.List(s.tasks[id].channel);
            && multiset(kept) <= multiset(list) && (list == [] ==> kept == [])
            && AfterTrim(s, id) == Moved(s, id, Appending).(lists := s.lists[s.tasks[id].channel := kept],
                                                            evicted := s.evicted + (multiset(list) - multiset(kept)))
  {
    kept := Lists.LTrim(s.List(s.tasks[id].channel), 0, s.tasks[id].phase.keep - 1);
    TrimTakes(s.List(s.tasks[id].channel), s.tasks[id].phase.keep);
  }

  lemma TrimBalances<T>(s: State<T>, id: nat, kept: seq<T>, x: T)
    requires ConservedAt(s, x) && id in s.tasks
    requires var list := s.List(s.tasks[id].channel); multiset(kept) <= multiset(list) && (list == [] ==> kept == [])
    ensures var list := s.List(s.tasks[id].channel);
            ConservedAt(Moved(s, id, Appending).(lists := s.lists[s.tasks[id].channel := kept],
                                                 evicted := s.evicted + (multiset(list) - multiset(kept))), x)
  {
    MovedKeeps(s, id, Appending);
    TrimmedLists(s.lists, s.tasks[id].channel, kept, x);
  }

  lemma DoneDropsAt<T>(s: State<T>, id: nat, x: T)
    requires id in s.tasks
    ensures InTasks(s)[x] == multiset(s.tasks[id].items)[x] + InTasks(Done(s, id))[x]
  {
    DoneDrops(s, id);
  }

  lemma LengthConserves<T>(s: State<T>, id: nat, x: T)
    requires ConservedAt(s, x)
    ensures ConservedAt(AfterLength(s, id), x)
  {
    if id in s.tasks {
      LengthCases(s, id);
      EndConserves(s, id, x);
      MovedConserves(s, id, Appending, x);
      MovedConserves(s, id, Trimming(s.cap - |s.tasks[id].items|), x);
    }
  }

  lemma LengthCases<T>(s: State<T>, id: nat)
    requires id in s.tasks
    ensures var t := AfterLength(s, id);
            || t == s || t == Moved(s, id, Appending) || t == Moved(s, id, Trimming(s.cap - |s.tasks[id].items|))
            || (s.tasks[id].items == [] && t == Done(s, id))
            || t == Done(s, id).(refused := s.refused + multiset(s.tasks[id].items))
  {}

  lemma MovedConserves<T>(s: State<T>, id: nat, phase: Phase, x: T)
    requires ConservedAt(s, x) && id in s.tasks
    ensures ConservedAt(Moved(s, id, phase), x)
  {
    MovedKeeps(s, id, phase);
  }

  lemma EndConserves<T>(s: State<T>, id: nat, x: T)
    requires ConservedAt(s, x) && id in s.tasks
    ensures s.tasks[id].items == [] ==> ConservedAt(Done(s, id), x)
    ensures ConservedAt(Done(s, id).(refused := s.refused + multiset(s.tasks[id].items)), x)
  {
    DoneDropsAt(s, id, x);
  }

  lemma StepConserves<T>(s: State<T>, e: Event<T>, x: T)
    requires ConservedAt(s, x) && KeepsSome(s)
    ensures ConservedAt(Step(s, e), x)
  {
    match e
    case Receive(id, channel, items) => ReceiveConserves(s, id, channel, items, x);
    case Register(id) => RegisterConserves(s, id, x);
    case Length(id) => LengthConserves(s, id, x);
    case Trim(id) => TrimConserves(s, id, x);
    case Append(id) => AppendConserves(s, id, x);
    case Fail(id) => FailConserves(s, id, x);
    case Pop(channel) => PopConserves(s, channel, x);
    case Insert(ok) => InsertConserves(s, ok, x);
  }

  lemma ReceiveConserves<T>(s: State<T>, id: nat, channel: string, items: seq<T>, x: T)
    requires ConservedAt(s, x)
    ensures ConservedAt(AfterReceive(s, id, channel, items), x)
  {
    CarriedSplit(s.tasks, id);
    CarriedUpdate(s.tasks, id, Task(channel, items, Arrived));
  }

  lemma RegisterConserves<T>(s: State<T>, id: nat, x: T)
    requires ConservedAt(s, x)
    ensures ConservedAt(AfterRegister(s, id), x)
  {
    if id in s.tasks {
      MovedKeeps(s, id, Counting);
    }
  }

  lemma FailConserves<T>(s: State<T>, id: nat, x: T)
    requires ConservedAt(s, x)
    ensures ConservedAt(AfterFail(s, id), x)
  {
    if id in s.tasks {
      DoneDropsAt(s, id, x);
    }
  }

  lemma PopConserves<T>(s: State<T>, channel: string, x: T)
    requires ConservedAt(s, x)
    ensures ConservedAt(AfterPop(s, channel), x)
  {
    StoredSplit(s.lists, channel);
  }

  lemma InsertConserves<T>(s: State<T>, ok: bool, x: T)
    requires ConservedAt(s, x)
    ensures ConservedAt(AfterInsert(s, ok), x)
  {}

  lemma MoveKeepsSome<T>(s: State<T>, id: nat, phase: Phase)
    requires KeepsSome(s) && id in s.tasks && (phase.Trimming? ==> phase.keep == s.cap - |s.tasks[id].items| >= 0)
    ensures KeepsSome(Moved(s, id, phase))
  {}

  lemma TaskStepKeepsSome<T>(s: State<T>, e: Event<T>)
    requires KeepsSome(s) && (e.Register? || e.Length? || e.Trim?)
    ensures KeepsSome(Step(s, e)) && Step(s, e).cap == s.cap
  {
    match e
    case Register(id) => if id in s.tasks { MoveKeepsSome(s, id, Counting); }
    case Length(id) =>
      if id in s.tasks && s.cap - |s.tasks[id].items| >= 0 {
        MoveKeepsSome(s, id, Trimming(s.cap - |s.tasks[id].items|));
      }
    case Trim(id) => if id in s.tasks { MoveKeepsSome(s, id, Appending); }
  }

  lemma StepKeepsSome<T>(s: State<T>, e: Event<T>)
    requires KeepsSome(s)
    ensures KeepsSome(Step(s, e)) && Step(s, e).cap == s.cap
  {
    if e.Register? || e.Length? || e.Trim? {
      TaskStepKeepsSome(s, e);
    }
  }

  lemma {:induction false} RunKeepsSome<T>(cap: nat, events: seq<Event<T>>)
    ensures KeepsSome(Run(cap, events)) && Run(cap, events).cap == cap
  {
    if events == [] {
    } else {
      RunKeepsSome(cap, events[..|events| - 1]);
      StepKeepsSome(Run(cap, events[..|events| - 1]), events[|events| - 1]);
    }
  }

  lemma {:induction false} RunConserves<T>(cap: nat, events: seq<Event<T>>, x: T)
    ensures ConservedAt(Run(cap, events), x)
  {
    if events == [] {
    } else {
      var front := events[..|events| - 1];
      RunConserves(cap, front, x);
      RunKeepsSome(cap, front);
      StepConserves(Run(cap, front), events[|events| - 1], x);
    }
  }

  /** In every interleaving no packet is duplicated and none disappears unaccounted. */
  lemma PacketsAreConserved<T(!new)>(cap: nat, events: seq<Event<T>>)
    ensures Conserved(Run(cap, events))
  {
    forall x: T ensures ConservedAt(Run(cap, events), x) {
      RunConserves(cap, events, x);
    }
    FromCounts(Run(cap, events));
  }

  lemma FromCounts<T(!new)>(s: State<T>)
    requires forall x: T :: ConservedAt(s, x)
    ensures Conserved(s)
  {
    var places := InTasks(s) + Buffered(s) + InFlush(s) + s.inserted + s.evicted + s.refused + s.aborted + s.lost;
    forall x: T ensures s.received[x] == places[x] {
      assert ConservedAt(s, x);
    }
  }

  // ---- Registration: the flusher looks at every list that holds something ----

  ghost predicate Watched<T>(s: State<T>) {
    && (forall ch :: s.List(ch) != [] ==> ch in s.registered)
    && (forall id :: id in s.tasks && !s.tasks[id].phase.Arrived? ==> s.tasks[id].channel in s.registered)
  }

  lemma TaskStepKeepsWatched<T>(s: State<T>, e: Event<T>)
    requires Watched(s) && (e.Receive? || e.Register? || e.Length? || e.Fail?)
    ensures Watched(Step(s, e))
  {}

  lemma TrimKeepsWatched<T>(s: State<T>, id: nat)
    requires Watched(s)
    ensures Watched(AfterTrim(s, id))
  {}

  lemma AppendKeepsWatched<T>(s: State<T>, id: nat)
    requires Watched(s)
    ensures Watched(AfterAppend(s, id))
  {}

  lemma StepKeepsWatched<T>(s: State<T>, e: Event<T>)
    requires Watched(s)
    ensures Watched(Step(s, e))
  {
    match e
    case Trim(id) => TrimKeepsWatched(s, id);
    case Append(id) => AppendKeepsWatched(s, id);
    case Pop(_) =>
    case Insert(_) =>
    case _ => TaskStepKeepsWatched(s, e);
  }

  lemma {:induction false} EveryListIsWatched<T>(cap: nat, events: seq<Event<T>>)
    ensures Watched(Run(cap, events))
  {
    if events == [] {
    } else {
      EveryListIsWatched(cap, events[..|events| - 1]);
      StepKeepsWatched(Run(cap, events[..|events| - 1]), events[|events| - 1]);
    }
  }

  /** A flush pass over a snapshot of the registered channels, with every insert succeeding. */
  function Pass<T>(order: seq<string>): seq<Event<T>> {
    if order == [] then [] else Pass(order[..|order| - 1]) + [Pop(order[|order| - 1]), Insert(true)]
  }

  lemma {:induction false} RunAppends<T>(cap: nat, events: seq<Event<T>>, e: Event<T>)
    ensures Run(cap, events + [e]) == Step(Run(cap, events), e)
  {
    assert (events + [e])[..|events|] == events;
  }

  /** What a fault-free flush of the channels in `order` does to the state. */
  ghost predicate Flushed<T>(s: State<T>, t: State<T>, order: seq<string>) {
    && t.popped.None? && t.registered == s.registered && t.tasks == s.tasks && t.received == s.received
    && t.evicted == s.evicted && t.refused == s.refused && t.aborted == s.aborted && t.lost == s.lost
    && forall ch :: t.List(ch) == if ch in order && ch in s.registered then [] else s.List(ch)
  }

  lemma FlushOneMore<T>(s: State<T>, t: State<T>, order: seq<string>, ch: string)
    requires Flushed(s, t, order)
    ensures Flushed(s, AfterInsert(AfterPop(t, ch), true), order + [ch])
  {}

  lemma RunTwo<T>(cap: nat, events: seq<Event<T>>, e: Event<T>, f: Event<T>)
    ensures Run(cap, events + [e, f]) == Step(Step(Run(cap, events), e), f)
  {
    RunAppends(cap, events, e);
    RunAppends(cap, events + [e], f);
    assert events + [e, f] == events + [e] + [f];
  }

  lemma RunFlushes<T>(cap: nat, events: seq<Event<T>>, ch: string)
    ensures Run(cap, events + [Pop(ch), Insert(true)]) == AfterInsert(AfterPop(Run(cap, events), ch), true)
  {
    RunTwo(cap, events, Pop(ch), Insert(true));
  }

  lemma PassSnoc<T>(cap: nat, events: seq<Event<T>>, order: seq<string>)
    requires order != []
    ensures var front, ch := order[..|order| - 1], order[|order| - 1];
            Run(cap, events + Pass(order)) == AfterInsert(AfterPop(Run(cap, events + Pass(front)), ch), true)
  {
    var front, ch := order[..|order| - 1], order[|order| - 1];
    var sofar := events + Pass(front);
    assert events + Pass(order) == sofar + [Pop(ch), Insert(true)];
    RunFlushes(cap, sofar, ch);
  }

  lemma FlushAll<T>(s: State<T>, t: State<T>, order: seq<string>)
    requires order != [] && Flushed(s, t, order[..|order| - 1])
    ensures Flushed(s, AfterInsert(AfterPop(t, order[|order| - 1]), true), order)
  {
    FlushOneMore(s, t, order[..|order| - 1], order[|order| - 1]);
    assert order[..|order| - 1] + [order[|order| - 1]] == order;
  }

  lemma {:induction false} PassEmpties<T>(cap: nat, events: seq<Event<T>>, order: seq<string>)
    requires Run(cap, events).popped.None?
    ensures Flushed(Run(cap, events), Run(cap, events + Pass(order)), order)
  {
    if order == [] {
      assert events + Pass(order) == events;
    } else {
      PassEmpties(cap, events, order[..|order| - 1]);
      PassSnoc(cap, events, order);
      FlushAll(Run(cap, events), Run(cap, events + Pass(order[..|order| - 1])), order);
    }
  }

  lemma EmptyMeansNone<T>(t: State<T>)
    requires forall ch :: t.List(ch) == []
    ensures Buffered(t) == multiset{}
  {
    forall ch | ch in t.lists.Keys ensures Stored(t.lists)(ch) == multiset{} {
      assert t.List(ch) == [];
    }
    GatherEmpty(t.lists.Keys, Stored(t.lists));
  }

  lemma AllAreFlushed<T>(s: State<T>, t: State<T>, order: seq<string>)
    requires Watched(s) && Flushed(s, t, order) && forall ch :: ch in s.registered ==> ch in order
    ensures forall ch :: t.List(ch) == []
  {}

  lemma InsertedAt<T>(s: State<T>, t: State<T>, order: seq<string>, x: T)
    requires s.popped.None? && Flushed(s, t, order) && ConservedAt(s, x) && ConservedAt(t, x)
    requires Buffered(t) == multiset{}
    ensures t.inserted[x] == s.inserted[x] + Buffered(s)[x]
  {}

  /** After any interleaving, one fault-free pass over the registered channels inserts all that was buffered. */
  lemma PassDrains<T(!new)>(cap: nat, events: seq<Event<T>>, order: seq<string>)
    requires Run(cap, events).popped.None?
    requires forall ch :: ch in Run(cap, events).registered ==> ch in order
    ensures forall ch :: Run(cap, events + Pass(order)).List(ch) == []
    ensures Run(cap, events + Pass(order)).inserted == Run(cap, events).inserted + Buffered(Run(cap, events))
  {
    var s, t := Run(cap, events), Run(cap, events + Pass(order));
    PassEmpties(cap, events, order);
    EveryListIsWatched(cap, events);
    AllAreFlushed(s, t, order);
    EmptyMeansNone(t);
    forall x: T ensures t.inserted[x] == (s.inserted + Buffered(s))[x] {
      RunConserves(cap, events, x);
      RunConserves(cap, events + Pass(order), x);
      InsertedAt(s, t, order, x);
    }
  }

  // ---- The bound ----

  predicate IsInFlight(phase: Phase) { phase.Trimming? || phase.Appending? }

  /** Tasks of a channel that have taken their LLEN and not yet finished. */
  function InFlight<T>(s: State<T>, ch: string): set<nat> {
    set id | id in s.tasks && s.tasks[id].channel == ch && IsInFlight(s.tasks[id].phase)
  }

  /** The sizes of the batches that tasks in `ids` are about to append, without looking at the list again. */
  ghost function Pending<T>(s: State<T>, ids: set<nat>): nat
    decreases |ids|
  {
    if ids == {} then 0 else
    var id :| id in ids;
    Pending(s, ids - {id}) + if id in s.tasks && s.tasks[id].phase.Appending? then |s.tasks[id].items| else 0
  }

  lemma {:induction false} PendingExtract<T>(s: State<T>, ids: set<nat>, id: nat)
    requires id in ids
    ensures Pending(s, ids)
            == Pending(s, ids - {id}) + if id in s.tasks && s.tasks[id].phase.Appending? then |s.tasks[id].items| else 0
    decreases |ids|
  {
    var y :| y in ids && Pending(s, ids) == Pending(s, ids - {y})
                          + if y in s.tasks && s.tasks[y].phase.Appending? then |s.tasks[y].items| else 0;
    if y != id {
      PendingExtract(s, ids - {y}, id);
      PendingExtract(s, ids - {id}, y);
      assert ids - {y} - {id} == ids - {id} - {y};
    }
  }

  lemma {:induction false} PendingSame<T>(s: State<T>, t: State<T>, ids: set<nat>)
    requires forall id :: id in ids ==> id in s.tasks && id in t.tasks && s.tasks[id] == t.tasks[id]
    ensures Pending(s, ids) == Pending(t, ids)
    decreases |ids|
  {
    if ids == {} {
    } else {
      var id :| id in ids;
      PendingExtract(s, ids, id);
      PendingExtract(t, ids, id);
      PendingSame(s, t, ids - {id});
    }
  }

  /** A batch larger than the cap never gets past its look at the list. */
  ghost predicate Small<T>(s: State<T>, ch: string, most: nat) {
    forall id :: id in s.tasks && s.tasks[id].channel == ch ==>
      |s.tasks[id].items| <= most || (|s.tasks[id].items| > s.cap && !IsInFlight(s.tasks[id].phase))
  }

  lemma {:induction false} PendingAtMost<T>(s: State<T>, ch: string, ids: set<nat>, most: nat)
    requires Small(s, ch, most) && forall id :: id in ids ==> id in s.tasks && s.tasks[id].channel == ch
    ensures Pending(s, ids) <= |ids| * most
    decreases |ids|
  {
    if ids == {} {
    } else {
      var id :| id in ids;
      PendingExtract(s, ids, id);
      PendingAtMost(s, ch, ids - {id}, most);
      assert |ids| * most == (|ids| - 1) * most + most;
    }
  }

  /** What a channel's list holds and is about to hold. */
  ghost predicate Bounded<T>(s: State<T>, ch: string, writers: nat, most: nat) {
    |s.List(ch)| + Pending(s, InFlight(s, ch)) <= s.cap + (if writers == 0 then 0 else (writers - 1) * most)
  }

  lemma OthersAtMost<T>(s: State<T>, ch: string, id: nat, writers: nat, most: nat)
    requires Small(s, ch, most) && id in InFlight(s, ch) && |InFlight(s, ch)| <= writers
    ensures Pending(s, InFlight(s, ch) - {id}) <= (writers - 1) * most
  {
    var others := InFlight(s, ch) - {id};
    PendingAtMost(s, ch, others, most);
    Scale(|others|, writers - 1, most);
  }

  lemma Scale(a: nat, b: nat, c: nat)
    requires a <= b
    ensures a * c <= b * c
  {}

  /** A task that has just looked, or just trimmed, leaves room for its own batch; the others may overshoot. */
  lemma RoomForOwn<T>(t: State<T>, ch: string, id: nat, writers: nat, most: nat)
    requires Small(t, ch, most) && |InFlight(t, ch)| <= writers
    requires id in InFlight(t, ch) && t.tasks[id].phase.Appending? && |t.List(ch)| + |t.tasks[id].items| <= t.cap
    ensures Bounded(t, ch, writers, most)
  {
    PendingExtract(t, InFlight(t, ch), id);
    OthersAtMost(t, ch, id, writers, most);
  }

  /** A step that leaves the tasks in flight alone and does not lengthen the list. */
  lemma OthersKeepBounded<T>(s: State<T>, t: State<T>, ch: string, writers: nat, most: nat)
    requires Bounded(s, ch, writers, most) && t.cap == s.cap
    requires InFlight(t, ch) == InFlight(s, ch) && |t.List(ch)| <= |s.List(ch)|
    requires forall id :: id in InFlight(s, ch) ==> t.tasks[id] == s.tasks[id]
    ensures Bounded(t, ch, writers, most)
  {
    PendingSame(s, t, InFlight(s, ch));
  }

  lemma FlushKeepsBounded<T>(s: State<T>, e: Event<T>, ch: string, writers: nat, most: nat)
    requires Bounded(s, ch, writers, most)
    requires e.Pop? || e.Insert?
    ensures Bounded(Step(s, e), ch, writers, most)
  {
    OthersKeepBounded(s, Step(s, e), ch, writers, most);
  }

  lemma ReceiveKeepsBounded<T>(s: State<T>, id: nat, channel: string, items: seq<T>, ch: string, writers: nat, most: nat)
    requires Bounded(s, ch, writers, most)
    ensures Bounded(AfterReceive(s, id, channel, items), ch, writers, most)
  {
    OthersKeepBounded(s, AfterReceive(s, id, channel, items), ch, writers, most);
  }

  lemma RegisterKeepsBounded<T>(s: State<T>, id: nat, ch: string, writers: nat, most: nat)
    requires Bounded(s, ch, writers, most)
    ensures Bounded(AfterRegister(s, id), ch, writers, most)
  {
    OthersKeepBounded(s, AfterRegister(s, id), ch, writers, most);
  }

  lemma StepKeepsBounded<T>(s: State<T>, e: Event<T>, ch: string, writers: nat, most: nat)
    requires Bounded(s, ch, writers, most) && KeepsSome(s) && Small(s, ch, most)
    requires Small(Step(s, e), ch, most) && |InFlight(Step(s, e), ch)| <= writers && most < s.cap
    ensures Bounded(Step(s, e), ch, writers, most)
  {
    match e
    case Length(id) => LengthKeepsBounded(s, id, ch, writers, most);
    case Trim(id) => TrimKeepsBounded(s, id, ch, writers, most);
    case Append(id) => AppendKeepsBounded(s, id, ch, writers, most);
    case Fail(id) => FailKeepsBounded(s, id, ch, writers, most);
    case Receive(id, channel, items) => ReceiveKeepsBounded(s, id, channel, items, ch, writers, most);
    case Register(id) => RegisterKeepsBounded(s, id, ch, writers, most);
    case Pop(_) => FlushKeepsBounded(s, e, ch, writers, most);
    case Insert(_) => FlushKeepsBounded(s, e, ch, writers, most);
  }

  /** The push ends, or stays as it is. */
  lemma LookEnds<T>(s: State<T>, t: State<T>, ch: string, id: nat, writers: nat, most: nat)
    requires Bounded(s, ch, writers, most) && t.cap == s.cap && t.List(ch) == s.List(ch)
    requires id in s.tasks && !IsInFlight(s.tasks[id].phase) && t.tasks == s.tasks - {id}
    ensures Bounded(t, ch, writers, most)
  {
    assert InFlight(t, ch) == InFlight(s, ch);
    OthersKeepBounded(s, t, ch, writers, most);
  }

  /** The push found no room: it appends nothing before its LTRIM. */
  lemma LookTrims<T>(s: State<T>, ch: string, id: nat, keep: int, writers: nat, most: nat)
    requires Bounded(s, ch, writers, most) && id in s.tasks && s.tasks[id].phase.Counting?
    ensures Bounded(Moved(s, id, Trimming(keep)), ch, writers, most)
  {
    var t := Moved(s, id, Trimming(keep));
    var before, after := InFlight(s, ch), InFlight(t, ch);
    if s.tasks[id].channel == ch {
      PendingExtract(t, after, id);
      assert after - {id} == before;
    } else {
      assert after == before;
    }
    PendingSame(s, t, before);
  }

  /** The push found room. */
  lemma LookAppends<T>(s: State<T>, ch: string, id: nat, writers: nat, most: nat)
    requires Bounded(s, ch, writers, most) && id in s.tasks && s.tasks[id].phase.Counting?
    requires |s.List(s.tasks[id].channel)| + |s.tasks[id].items| <= s.cap
    requires Small(Moved(s, id, Appending), ch, most) && |InFlight(Moved(s, id, Appending), ch)| <= writers
    ensures Bounded(Moved(s, id, Appending), ch, writers, most)
  {
    var t := Moved(s, id, Appending);
    if s.tasks[id].channel == ch {
      RoomForOwn(t, ch, id, writers, most);
    } else {
      OthersKeepBounded(s, t, ch, writers, most);
    }
  }

  lemma LengthKeepsBounded<T>(s: State<T>, id: nat, ch: string, writers: nat, most: nat)
    requires Bounded(s, ch, writers, most)
    requires Small(AfterLength(s, id), ch, most) && |InFlight(AfterLength(s, id), ch)| <= writers
    ensures Bounded(AfterLength(s, id), ch, writers, most)
  {
    if id in s.tasks && s.tasks[id].phase.Counting? {
      var n := |s.tasks[id].items|;
      if n > 0 && |s.List(s.tasks[id].channel)| + n <= s.cap {
        LookAppends(s, ch, id, writers, most);
      } else if n > 0 && s.cap - n >= 0 {
        LookTrims(s, ch, id, s.cap - n, writers, most);
      } else {
        LookEnds(s, AfterLength(s, id), ch, id, writers, most);
      }
    }
  }

  lemma TrimMakesRoom<T>(s: State<T>, id: nat, ch: string, most: nat)
    requires KeepsSome(s) && most < s.cap && id in s.tasks && s.tasks[id].phase.Trimming? && s.tasks[id].channel == ch
    requires Small(s, ch, most)
    ensures var t := AfterTrim(s, id);
            && id in InFlight(t, ch) && t.tasks[id].phase.Appending? && t.cap == s.cap
            && |t.List(ch)| + |t.tasks[id].items| <= t.cap
  {
    TrimTakes(s.List(ch), s.tasks[id].phase.keep);
  }

  lemma TrimKeepsBounded<T>(s: State<T>, id: nat, ch: string, writers: nat, most: nat)
    requires Bounded(s, ch, writers, most) && KeepsSome(s) && most < s.cap && Small(s, ch, most)
    requires Small(AfterTrim(s, id), ch, most) && |InFlight(AfterTrim(s, id), ch)| <= writers
    ensures Bounded(AfterTrim(s, id), ch, writers, most)
  {
    var t := AfterTrim(s, id);
    if id in s.tasks && s.tasks[id].phase.Trimming? && s.tasks[id].channel == ch {
      TrimMakesRoom(s, id, ch, most);
      RoomForOwn(t, ch, id, writers, most);
    } else {
      OthersKeepBounded(s, t, ch, writers, most);
    }
  }

  lemma AppendKeepsBounded<T>(s: State<T>, id: nat, ch: string, writers: nat, most: nat)
    requires Bounded(s, ch, writers, most)
    ensures Bounded(AfterAppend(s, id), ch, writers, most)
  {
    var t := AfterAppend(s, id);
    if id in InFlight(s, ch) && s.tasks[id].phase.Appending? {
      PendingExtract(s, InFlight(s, ch), id);
      assert InFlight(t, ch) == InFlight(s, ch) - {id};
      PendingSame(s, t, InFlight(t, ch));
    } else {
      OthersKeepBounded(s, t, ch, writers, most);
    }
  }

  lemma FailKeepsBounded<T>(s: State<T>, id: nat, ch: string, writers: nat, most: nat)
    requires Bounded(s, ch, writers, most)
    ensures Bounded(AfterFail(s, id), ch, writers, most)
  {
    var t := AfterFail(s, id);
    if id in InFlight(s, ch) {
      PendingExtract(s, InFlight(s, ch), id);
      assert InFlight(t, ch) == InFlight(s, ch) - {id};
      PendingSame(s, t, InFlight(t, ch));
    } else {
      OthersKeepBounded(s, t, ch, writers, most);
    }
  }

  /** At every moment of the run, at most `writers` pushes of the channel are in flight. */
  ghost predicate Calm<T>(cap: nat, events: seq<Event<T>>, ch: string, writers: nat) {
    |InFlight(Run(cap, events), ch)| <= writers && (events == [] || Calm(cap, events[..|events| - 1], ch, writers))
  }

  predicate FitsIn<T>(e: Event<T>, ch: string, cap: nat, most: nat) {
    e.Receive? && e.channel == ch ==> |e.items| <= most || |e.items| > cap
  }

  /** A task keeps its channel and its batch, and goes past its look at the list only if the batch is within the cap. */
  lemma SmallStays<T>(s: State<T>, t: State<T>, ch: string, id: nat, most: nat)
    requires Small(s, ch, most) && t.cap == s.cap
    requires forall x :: x in t.tasks ==> x in s.tasks && (x != id ==> t.tasks[x] == s.tasks[x])
    requires id in t.tasks ==>
               && t.tasks[id].channel == s.tasks[id].channel && t.tasks[id].items == s.tasks[id].items
               && (IsInFlight(t.tasks[id].phase) ==> IsInFlight(s.tasks[id].phase) || |t.tasks[id].items| <= s.cap)
    ensures Small(t, ch, most)
  {}

  lemma ReceiveKeepsSmall<T>(s: State<T>, id: nat, channel: string, items: seq<T>, ch: string, most: nat)
    requires Small(s, ch, most) && (channel == ch ==> |items| <= most || |items| > s.cap)
    ensures Small(AfterReceive(s, id, channel, items), ch, most)
  {}

  lemma LengthKeepsSmall<T>(s: State<T>, id: nat, ch: string, most: nat)
    requires Small(s, ch, most)
    ensures Small(AfterLength(s, id), ch, most)
  {
    SmallStays(s, AfterLength(s, id), ch, id, most);
  }

  lemma TrimKeepsSmall<T>(s: State<T>, id: nat, ch: string, most: nat)
    requires Small(s, ch, most) && KeepsSome(s)
    ensures Small(AfterTrim(s, id), ch, most)
  {
    SmallStays(s, AfterTrim(s, id), ch, id, most);
  }

  lemma EndKeepsSmall<T>(s: State<T>, id: nat, ch: string, most: nat)
    requires Small(s, ch, most)
    ensures Small(AfterRegister(s, id), ch, most) && Small(AfterAppend(s, id), ch, most) && Small(AfterFail(s, id), ch, most)
  {
    SmallStays(s, AfterRegister(s, id), ch, id, most);
    SmallStays(s, AfterAppend(s, id), ch, id, most);
    SmallStays(s, AfterFail(s, id), ch, id, most);
  }

  lemma StepKeepsSmall<T>(s: State<T>, e: Event<T>, ch: string, most: nat)
    requires Small(s, ch, most) && KeepsSome(s) && FitsIn(e, ch, s.cap, most)
    ensures Small(Step(s, e), ch, most)
  {
    match e
    case Receive(id, channel, items) => ReceiveKeepsSmall(s, id, channel, items, ch, most);
    case Register(id) => EndKeepsSmall(s, id, ch, most);
    case Length(id) => LengthKeepsSmall(s, id, ch, most);
    case Trim(id) => TrimKeepsSmall(s, id, ch, most);
    case Append(id) => EndKeepsSmall(s, id, ch, most);
    case Fail(id) => EndKeepsSmall(s, id, ch, most);
    case Pop(_) =>
    case Insert(_) =>
  }

  /**
   * With at most `writers` pushes of a channel in flight at any time, each of at most `most` < cap packets or of more
   * than the cap, which is refused, its list never exceeds cap + (writers - 1) * most, whatever the interleaving with
   * other pushes and with the flusher. One writer at a time keeps the cap itself.
   */
  lemma {:induction false} ListIsBounded<T>(cap: nat, events: seq<Event<T>>, ch: string, writers: nat, most: nat)
    requires most < cap && Calm(cap, events, ch, writers)
    requires forall i :: 0 <= i < |events| ==> FitsIn(events[i], ch, cap, most)
    ensures Small(Run(cap, events), ch, most)
    ensures Bounded(Run(cap, events), ch, writers, most)
    ensures |Run(cap, events).List(ch)| <= cap + (if writers == 0 then 0 else (writers - 1) * most)
  {
    RunKeepsSome(cap, events);
    if events == [] {
      assert InFlight(Run<T>(cap, events), ch) == {};
    } else {
      var front, last := events[..|events| - 1], events[|events| - 1];
      ListIsBounded(cap, front, ch, writers, most);
      RunKeepsSome(cap, front);
      StepKeepsSmall(Run(cap, front), last, ch, most);
      StepKeepsBounded(Run(cap, front), last, ch, writers, most);
    }
  }
}
