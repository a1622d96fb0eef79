/**
 * Subscribe, unsubscribe, disconnect clean-up and the ghost scan, split into their Redis round trips and
 * interleaved arbitrarily, with sessions that come and go and processes that crash. A pipeline is one step.
 */
module Interleaving {
  import opened CompositeKeys
  import opened SubscriptionContract
  import opened SubscriptionStore
  import opened SubscriptionService
  import opened GhostCleaner

  type Proc = nat

  /** The loop or the last command that a process comes back to. */
  datatype Loop =
    | Untracking(client: string, entry: string)                 // unsubscribe: SREM of the tracking set
    | Collecting(client: string, pairs: set<(string, string)>)  // disconnect: SREM of the next pair
    | Scanning(todo: set<string>)                               // scan: SMEMBERS of the next hash

  /** Where a process stands, that is, which command it issues next. */
  datatype Pc =
    | Tracking(client: string, entry: string)                   // subscribe: SADD of the tracking set
    | Counting(hash: string, loop: Loop)                        // SCARD after an SREM
    | Dropping(hash: string, loop: Loop)                        // found empty: the clean-up pipeline
    | Checking(hash: string, unchecked: set<string>, stale: set<string>, todo: set<string>)  // EXISTS per client
    | In(loop: Loop)
    | Done

  datatype State = State(store: Store, pcs: map<Proc, Pc>)

  datatype Step =
    | Subscribe(p: Proc, client: string, r: Request)     // the registration pipeline
    | Unsubscribe(p: Proc, client: string, r: Request)   // SREM of the listener
    | Collect(p: Proc, client: string)                   // SMEMBERS of the tracking set
    | Scan(p: Proc)                                      // SMEMBERS of the index
    | Advance(p: Proc, pick: string, pick': string)      // the next command of p; the picks order its loops
    | SessionBorn(client: string)                        // HSET, EXPIRE and the DEL of the tracking set
    | SessionLapsed(client: string)                      // the TTL of the session key
    | SessionDestroyed(client: string)                   // DEL of both keys
    | Crash(p: Proc)

  /** The clean-up pipeline as it stands: whatever is under the hash goes. */
  function Dropped(s: Store, hash: string): Store {
    s.(registry := s.registry - {hash}, active := s.active - {hash},
       listeners := set row | row in s.listeners && row.0 != hash)
  }

  function Looped(s: Store, loop: Loop, pick: string, pick': string): (Store, Pc) {
    match loop
    case Untracking(c, entry) => (s.(subs := s.subs - {(c, entry)}), Done)
    case Collecting(c, pairs) =>
      if pairs == {} then (s, Done)
      else if (pick, pick') !in pairs then (s, In(loop))
      else
        var row, rest := (pick, Composite(c, pick')), Collecting(c, pairs - {(pick, pick')});
        if row in s.listeners then (s.(listeners := s.listeners - {row}), Counting(pick, rest)) else (s, In(rest))
    case Scanning(todo) =>
      if todo == {} then (s, Done)
      else if pick !in todo then (s, In(loop))
      else if !Heard(s.listeners, pick) then (s, Dropping(pick, Scanning(todo - {pick})))
      else (s, Checking(pick, set m | m in s.Members(pick) && RSplit(m).Parts?, {}, todo - {pick}))
  }

  function Advanced(s: Store, pc: Pc, pick: string, pick': string): (Store, Pc) {
    match pc
    case Tracking(c, entry) => (s.(subs := s.subs + {(c, entry)}), Done)
    case Counting(h, loop) => (s, if Heard(s.listeners, h) then In(loop) else Dropping(h, loop))
    case Dropping(h, loop) => (Dropped(s, h), In(loop))
    case Checking(h, unchecked, stale, todo) =>
      if unchecked == {} then
        (s.(listeners := set row | row in s.listeners && !(row.0 == h && row.1 in stale)),
         Counting(h, Scanning(todo)))
      else
        var mine := set m | m in unchecked && Owner(m) == pick;
        (s, Checking(h, unchecked - mine, if KeyExists(s, pick) then stale else stale + mine, todo))
    case In(loop) => Looped(s, loop, pick, pick')
    case Done => (s, Done)
  }

  function Untracked(s: Store, client: string): Store {
    s.(subs := set row | row in s.subs && row.0 != client)
  }

  function Next(g: State, d: Digest, step: Step): State {
    var s := g.store;
    match step
    case Subscribe(p, c, r) =>
      var subscribed := Subscribed(s, d, c, r);
      State(subscribed.(subs := s.subs), g.pcs[p := Tracking(c, Composite(d(KeyOf(r)), r.id))])
    case Unsubscribe(p, c, r) =>
      var hash := d(KeyOf(r));
      State(s.(listeners := s.listeners - {(hash, Composite(c, r.id))}),
            g.pcs[p := Counting(hash, Untracking(c, Composite(hash, r.id)))])
    case Collect(p, c) =>
      g.(pcs := g.pcs[p := if Parseable(s, c) then In(Collecting(c, TrackedPairs(s, c))) else Done])
    case Scan(p) => g.(pcs := g.pcs[p := In(Scanning(s.active))])
    case Advance(p, pick, pick') =>
      if p !in g.pcs then g else
      var (s', pc) := Advanced(s, g.pcs[p], pick, pick');
      State(s', g.pcs[p := pc])
    case SessionBorn(c) => g.(store := Untracked(s, c).(sessions := s.sessions + {c}))
    case SessionLapsed(c) => g.(store := s.(sessions := s.sessions - {c}))
    case SessionDestroyed(c) => g.(store := Untracked(s, c).(sessions := s.sessions - {c}))
    case Crash(p) => g.(pcs := g.pcs - {p})
  }

  const Start := State(Store(map[], {}, {}, {}, {}), map[])

  function Reach(d: Digest, steps: seq<Step>): State {
    if steps == [] then Start else Next(Reach(d, steps[..|steps| - 1]), d, steps[|steps| - 1])
  }

  // ---- The registry, the index and the listeners stay in step ----

  ghost predicate RegistryInv(s: Store, d: Digest) {
    && s.registry.Keys == s.active
    && (forall row :: row in s.listeners ==> row.0 in s.active)
    && (forall h :: h in s.registry ==> d(KeyOf(s.registry[h])) == h)
  }

  lemma StepKeepsRegistry(g: State, d: Digest, step: Step)
    requires RegistryInv(g.store, d)
    ensures RegistryInv(Next(g, d, step).store, d)
  {}

  /** In every state of every interleaving: registry keys = active hashes, and every listener is indexed. */
  lemma {:induction false} RegistryAlwaysIndexed(d: Digest, steps: seq<Step>)
    ensures RegistryInv(Reach(d, steps).store, d)
  {
    if steps == [] {
    } else {
      RegistryAlwaysIndexed(d, steps[..|steps| - 1]);
      StepKeepsRegistry(Reach(d, steps[..|steps| - 1]), d, steps[|steps| - 1]);
    }
  }

  // ---- What a clean-up pipeline destroys ----

  /** The state after the first k steps. */
  function At(d: Digest, steps: seq<Step>, k: nat): State
    requires k <= |steps|
  {
    Reach(d, steps[..k])
  }

  predicate Adds(d: Digest, step: Step, row: (string, string)) {
    step.Subscribe? && row == (d(KeyOf(step.r)), Composite(step.client, step.r.id))
  }

  predicate Removes(d: Digest, steps: seq<Step>, k: nat, row: (string, string))
    requires k < |steps|
  {
    row in At(d, steps, k).store.listeners && row !in At(d, steps, k + 1).store.listeners
  }

  lemma OneStep(d: Digest, steps: seq<Step>, k: nat)
    requires k < |steps|
    ensures At(d, steps, k + 1) == Next(At(d, steps, k), d, steps[k])
  {
    assert steps[..k + 1][..k] == steps[..k];
  }

  /** Subscribed after step i and still there before step j. */
  predicate LateSubscriber(d: Digest, steps: seq<Step>, i: nat, j: nat, row: (string, string))
    requires i < j <= |steps|
  {
    exists k :: i < k < j && Adds(d, steps[k], row) && Stays(d, steps, k, j, row)
  }

  predicate Stays(d: Digest, steps: seq<Step>, k: nat, j: nat, row: (string, string))
    requires j <= |steps|
  {
    forall l :: k < l < j ==> !Removes(d, steps, l, row)
  }

  /** A listener appears only by its own subscribe, and that always makes it appear. */
  lemma OnlySubscribeAdds(d: Digest, steps: seq<Step>, k: nat, row: (string, string))
    requires k < |steps|
    ensures Adds(d, steps[k], row) ==> row in At(d, steps, k + 1).store.listeners
    ensures row in At(d, steps, k + 1).store.listeners ==>
              row in At(d, steps, k).store.listeners || Adds(d, steps[k], row)
  {
    OneStep(d, steps, k);
  }

  lemma {:induction false} LateSubscribersAreThere(d: Digest, steps: seq<Step>, i: nat, j: nat, row: (string, string))
    requires i < j <= |steps| && row !in At(d, steps, i + 1).store.listeners
    ensures row in At(d, steps, j).store.listeners <==> LateSubscriber(d, steps, i, j, row)
    decreases j
  {
    if i + 1 < j {
      var k := j - 1;
      LateSubscribersAreThere(d, steps, i, k, row);
      OnlySubscribeAdds(d, steps, k, row);
      if row in At(d, steps, j).store.listeners {
        StillThere(d, steps, i, k, row);
      }
      if LateSubscriber(d, steps, i, j, row) {
        var k' :| i < k' < j && Adds(d, steps[k'], row) && Stays(d, steps, k', j, row);
        if k' < k {
          assert Stays(d, steps, k', k, row);
          assert LateSubscriber(d, steps, i, k, row);
          assert !Removes(d, steps, k, row);
        }
      }
    }
  }

  lemma StillThere(d: Digest, steps: seq<Step>, i: nat, k: nat, row: (string, string))
    requires i < k < |steps| && row in At(d, steps, k + 1).store.listeners
    requires LateSubscriber(d, steps, i, k, row) || Adds(d, steps[k], row)
    ensures LateSubscriber(d, steps, i, k + 1, row)
  {}

  predicate AboutToDrop(d: Digest, steps: seq<Step>, k: nat, p: Proc, hash: string)
    requires k <= |steps|
  {
    var pcs := At(d, steps, k).pcs;
    p in pcs && pcs[p].Dropping? && pcs[p].hash == hash
  }

  /** Only a command that sees the hash empty sends a process to its clean-up pipeline. */
  lemma EmptyReadBefore(d: Digest, steps: seq<Step>, k: nat, p: Proc, hash: string)
    requires k < |steps| && AboutToDrop(d, steps, k + 1, p, hash)
    ensures AboutToDrop(d, steps, k, p, hash) || !Heard(At(d, steps, k + 1).store.listeners, hash)
  {
    OneStep(d, steps, k);
  }

  /** The last step at which p read the hash empty; p has been waiting to drop it ever since. */
  lemma {:induction false} WindowOpens(d: Digest, steps: seq<Step>, j: nat, p: Proc, hash: string) returns (i: nat)
    requires j <= |steps| && AboutToDrop(d, steps, j, p, hash)
    ensures i < j && !Heard(At(d, steps, i + 1).store.listeners, hash)
    ensures forall k :: i < k <= j ==> AboutToDrop(d, steps, k, p, hash)
    decreases j
  {
    assert steps[..0] == [] && At(d, steps, 0) == Start;
    EmptyReadBefore(d, steps, j - 1, p, hash);
    if !Heard(At(d, steps, j).store.listeners, hash) {
      i := j - 1;
    } else {
      i := WindowOpens(d, steps, j - 1, p, hash);
    }
  }

  /**
   * In every run, a process that drops a hash at step j read it empty at some earlier step i and has been
   * waiting since; its pipeline destroys exactly the listeners whose subscription came in that window and
   * was not taken back. It is harmless if and only if there are none.
   */
  lemma DropDestroysLateSubscribers(d: Digest, steps: seq<Step>, j: nat, p: Proc, hash: string) returns (i: nat)
    requires j < |steps| && AboutToDrop(d, steps, j, p, hash) && steps[j].Advance? && steps[j].p == p
    ensures i < j && !Heard(At(d, steps, i + 1).store.listeners, hash)
    ensures forall k :: i < k <= j ==> AboutToDrop(d, steps, k, p, hash)
    ensures forall row :: Removes(d, steps, j, row) <==> row.0 == hash && LateSubscriber(d, steps, i, j, row)
  {
    i := WindowOpens(d, steps, j, p, hash);
    OneStep(d, steps, j);
    forall row ensures Removes(d, steps, j, row) <==> row.0 == hash && LateSubscriber(d, steps, i, j, row) {
      if row.0 == hash {
        assert row !in At(d, steps, i + 1).store.listeners;
        LateSubscribersAreThere(d, steps, i, j, row);
      }
    }
  }

  /** The window is real: whoever subscribes between SCARD and the pipeline is tracked but hears nothing. */
  lemma SubscribingInTheWindowIsLost(d: Digest, c: string, r: Request, c': string, r': Request)
    requires KeyOf(r) == KeyOf(r')
    ensures var steps := Overtaken(c, r, c', r');
            var s, hash := Reach(d, steps).store, d(KeyOf(r));
            && (c', Composite(hash, r'.id)) in s.subs
            && s.listeners == {} && s.registry == map[] && s.active == {}
  {
    var hash := d(KeyOf(r));
    var one, two, three := [Step.Subscribe(0, c, r)], Left(c, r), Left(c, r) + [Step.Advance(1, "", "")];
    ReachSnoc(d, [], Step.Subscribe(0, c, r));
    ReachSnoc(d, one, Step.Unsubscribe(1, c, r));
    ReachSnoc(d, two, Step.Advance(1, "", ""));
    assert [] + one == one && Reach(d, two).store.listeners == {};
    var g := Reach(d, three);
    assert g.pcs[1] == Dropping(hash, Untracking(c, Composite(hash, r.id)));
    OvertakesTheDrop(g, d, hash, Untracking(c, Composite(hash, r.id)), c', r');
    var four := three + [Step.Subscribe(2, c', r')];
    ReachSnoc(d, three, Step.Subscribe(2, c', r'));
    ReachSnoc(d, four, Step.Advance(2, "", ""));
    ReachSnoc(d, four + [Step.Advance(2, "", "")], Step.Advance(1, "", ""));
  }

  function Left(c: string, r: Request): seq<Step> { [Step.Subscribe(0, c, r)] + [Step.Unsubscribe(1, c, r)] }

  function Overtaken(c: string, r: Request, c': string, r': Request): seq<Step> {
    Left(c, r) + [Step.Advance(1, "", "")] + [Step.Subscribe(2, c', r')] + [Step.Advance(2, "", "")]
    + [Step.Advance(1, "", "")]
  }

  lemma ReachSnoc(d: Digest, steps: seq<Step>, step: Step)
    ensures Reach(d, steps + [step]) == Next(Reach(d, steps), d, step)
  {}

  lemma OvertakesTheDrop(g: State, d: Digest, hash: string, loop: Loop, c: string, r: Request)
    requires 1 in g.pcs && g.pcs[1] == Dropping(hash, loop) && hash == d(KeyOf(r)) && g.store.active <= {hash}
    requires g.store.registry.Keys <= {hash} && forall row :: row in g.store.listeners ==> row.0 == hash
    ensures var joined := Next(g, d, Step.Subscribe(2, c, r));
            var tracked := Next(joined, d, Step.Advance(2, "", ""));
            var s := Next(tracked, d, Step.Advance(1, "", "")).store;
            && (c, Composite(hash, r.id)) in s.subs
            && s.listeners == {} && s.registry == map[] && s.active == {}
  {}

  // ---- Why the pipelines have to be atomic ----

  datatype Command =
    | SetNx(hash: string, r: Request) | AddListener(hash: string, m: string) | AddActive(hash: string)
    | DelRegistry(hash: string) | DelListeners(hash: string) | RemActive(hash: string)

  function Exec(s: Store, cmd: Command): Store {
    match cmd
    case SetNx(h, r) => if h in s.registry then s else s.(registry := s.registry[h := r])
    case AddListener(h, m) => s.(listeners := s.listeners + {(h, m)})
    case AddActive(h) => s.(active := s.active + {h})
    case DelRegistry(h) => s.(registry := s.registry - {h})
    case DelListeners(h) => s.(listeners := set row | row in s.listeners && row.0 != h)
    case RemActive(h) => s.(active := s.active - {h})
  }

  function ExecAll(s: Store, cmds: seq<Command>): Store {
    if cmds == [] then s else Exec(ExecAll(s, cmds[..|cmds| - 1]), cmds[|cmds| - 1])
  }

  /**
   * Run as separate commands (`transaction=False` sends no MULTI), the two pipelines can interleave so
   * that a listener stays under a hash that is neither registered nor indexed: it is never polled, and no
   * scan ever visits it, whatever the sessions.
   */
  lemma SplitPipelinesOrphanAListener(s: Store, h: string, m: string, r: Request, sessions: set<string>)
    ensures var t := ExecAll(s, [SetNx(h, r), DelRegistry(h), DelListeners(h), AddListener(h, m), AddActive(h),
                                 RemActive(h)]).(sessions := sessions);
            && (h, m) in t.listeners && h !in t.registry && h !in t.active
            && (h, m) in Scanned(t, t.active).listeners
  {
    var cmds := [SetNx(h, r), DelRegistry(h), DelListeners(h), AddListener(h, m), AddActive(h), RemActive(h)];
    assert cmds[..5][..4] == cmds[..4];
    var s3, s4 := ExecAll(s, cmds[..3]), ExecAll(s, cmds[..4]);
    assert cmds[..4][..3] == cmds[..3] && cmds[..3][..2] == cmds[..2];
    assert h !in ExecAll(s, cmds[..2]).registry;
    assert s3 == Exec(ExecAll(s, cmds[..2]), DelListeners(h));
    assert s4 == Exec(s3, AddListener(h, m));
    assert ExecAll(s, cmds[..5]) == Exec(s4, AddActive(h));
  }
}
