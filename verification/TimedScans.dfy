/**
 * The ghost scan in its Redis round trips, interleaved with everything else and put on a clock: what it may take
 * from a client whose session lives, and by when it has taken everything of one that crashed.
 */
module TimedScans {
  import opened CompositeKeys
  import opened SubscriptionContract
  import opened SubscriptionStore
  import opened GhostCleaner
  import opened Interleaving
  import opened Heartbeat

  // ---- One visit to a hash: SMEMBERS, EXISTS per client, SREM ----

  predicate Visiting(d: Digest, steps: seq<Step>, k: nat, p: Proc, h: string)
    requires k <= |steps|
  {
    Checks(At(d, steps, k), p, h)
  }

  function StaleAt(d: Digest, steps: seq<Step>, k: nat, p: Proc): set<string>
    requires k <= |steps|
  {
    var pcs := At(d, steps, k).pcs;
    if p in pcs && pcs[p].Checking? then pcs[p].stale else {}
  }

  predicate Checks(g: State, p: Proc, h: string) { p in g.pcs && g.pcs[p].Checking? && g.pcs[p].hash == h }

  lemma VisitStep(g: State, d: Digest, step: Step, p: Proc, h: string, m: string)
    requires Checks(Next(g, d, step), p, h)
    ensures !Checks(g, p, h) ==> Next(g, d, step).pcs[p].stale == {}
    ensures Checks(g, p, h) && m in Next(g, d, step).pcs[p].stale && m !in g.pcs[p].stale ==>
              !KeyExists(g.store, Owner(m)) && step.Advance? && step.p == p
  {}

  lemma VisitStarts(d: Digest, steps: seq<Step>, j: nat, p: Proc, h: string)
    requires j < |steps| && Visiting(d, steps, j + 1, p, h)
    ensures !Visiting(d, steps, j, p, h) ==> StaleAt(d, steps, j + 1, p) == {}
  {
    OneStep(d, steps, j);
    VisitStep(At(d, steps, j), d, steps[j], p, h, "");
  }

  /** The step that read the members; p has been checking them since. */
  lemma {:induction false} VisitBegins(d: Digest, steps: seq<Step>, j: nat, p: Proc, h: string) returns (i: nat)
    requires j <= |steps| && Visiting(d, steps, j, p, h)
    ensures i < j && (forall k :: i < k <= j ==> Visiting(d, steps, k, p, h)) && StaleAt(d, steps, i + 1, p) == {}
    decreases j
  {
    assert steps[..0] == [] && At(d, steps, 0) == Start;
    VisitStarts(d, steps, j - 1, p, h);
    if Visiting(d, steps, j - 1, p, h) {
      i := VisitBegins(d, steps, j - 1, p, h);
    } else {
      i := j - 1;
    }
  }

  /** What a visit holds for stale it has found without a key at some moment of the visit. */
  lemma {:induction false} StaleWasMissing(d: Digest, steps: seq<Step>, i: nat, j: nat, p: Proc, h: string, m: string)
      returns (k: nat)
    requires i < j <= |steps| && StaleAt(d, steps, i + 1, p) == {} && m in StaleAt(d, steps, j, p)
    requires forall k :: i < k <= j ==> Visiting(d, steps, k, p, h)
    ensures i < k < j && Advances(steps, k, p) && !KeyExists(At(d, steps, k).store, Owner(m))
    decreases j
  {
    assert i + 1 < j;
    assert Visiting(d, steps, j - 1, p, h) && Visiting(d, steps, j, p, h);
    OneStep(d, steps, j - 1);
    VisitStep(At(d, steps, j - 1), d, steps[j - 1], p, h, m);
    if m in StaleAt(d, steps, j - 1, p) {
      k := StaleWasMissing(d, steps, i, j - 1, p, h, m);
    } else {
      k := j - 1;
    }
  }

  predicate Advances(steps: seq<Step>, j: nat, p: Proc) {
    j < |steps| && steps[j].Advance? && steps[j].p == p
  }

  /** The SREM that ends a visit spares every client whose session was there since the members were read. */
  lemma VisitSparesThePresent(d: Digest, steps: seq<Step>, i: nat, j: nat, p: Proc, h: string, row: (string, string))
    requires i < j && Advances(steps, j, p) && StaleAt(d, steps, i + 1, p) == {}
    requires forall k :: i < k <= j ==> Visiting(d, steps, k, p, h)
    requires forall k :: i < k < j && Advances(steps, k, p) ==> Owner(row.1) in At(d, steps, k).store.sessions
    ensures !Removes(d, steps, j, row)
  {
    OneStep(d, steps, j);
    assert Visiting(d, steps, j, p, h);
    if row.1 in StaleAt(d, steps, j, p) {
      var k := StaleWasMissing(d, steps, i, j, p, h, row.1);
    }
  }

  // ---- Beats and sessions on one clock ----

  /** times[k] is the instant of step k. */
  predicate Clocked(steps: seq<Step>, times: seq<int>) {
    |times| == |steps| && forall i, j :: 0 <= i <= j < |times| ==> times[i] <= times[j]
  }

  /** Every round trip finds c's session key exactly while its beats keep it. */
  predicate SessionFollows(d: Digest, steps: seq<Step>, times: seq<int>, c: string, beats: seq<int>)
    requires Clocked(steps, times)
  {
    && beats != [] && InOrder(beats)
    && forall k :: 0 <= k < |steps| && steps[k].Advance? ==>
         (c in At(d, steps, k).store.sessions <==> AliveAt(beats, times[k]))
  }

  lemma PresentSince(d: Digest, steps: seq<Step>, times: seq<int>, c: string, beats: seq<int>, k: nat, j: nat)
    requires Clocked(steps, times) && SessionFollows(d, steps, times, c, beats) && k <= j < |steps| && steps[k].Advance?
    requires beats[0] <= times[k] && SteadyAt(beats, times[j])
    ensures c in At(d, steps, k).store.sessions
  {
    SteadyBefore(beats, times[k], times[j]);
    AliveAtIffSteadyAt(beats, times[k]);
  }

  predicate InScan(pc: Pc) {
    || pc.Checking?
    || (pc.In? && pc.loop.Scanning?)
    || ((pc.Counting? || pc.Dropping?) && pc.loop.Scanning?)
  }

  /**
   * What a scan may take from a client with steady beats, at any of its round trips. Its SREM takes nothing, if
   * the members were read since the session's creation (step i). Its clean-up pipeline takes exactly the listeners
   * that subscribed after the scan last saw the hash empty (after step i) and are still there. No other round
   * trip takes anything.
   */
  lemma SteadyClientsLoseOnlyLate(d: Digest, steps: seq<Step>, times: seq<int>, c: string, beats: seq<int>, j: nat, p: Proc)
      returns (i: nat)
    requires Clocked(steps, times) && SessionFollows(d, steps, times, c, beats)
    requires Advances(steps, j, p) && p in At(d, steps, j).pcs && InScan(At(d, steps, j).pcs[p])
    ensures var pc := At(d, steps, j).pcs[p];
            && i <= j
            && (pc.Checking? ==>
                  && i < j && (forall k :: i < k <= j ==> Visiting(d, steps, k, p, pc.hash))
                  && (beats[0] <= times[i + 1] && SteadyAt(beats, times[j]) ==>
                        forall row: (string, string) :: Owner(row.1) == c ==> !Removes(d, steps, j, row)))
            && (pc.Dropping? ==>
                  && i < j && !Heard(At(d, steps, i + 1).store.listeners, pc.hash)
                  && forall row :: Removes(d, steps, j, row) <==> row.0 == pc.hash && LateSubscriber(d, steps, i, j, row))
            && (!pc.Checking? && !pc.Dropping? ==> forall row :: !Removes(d, steps, j, row))
  {
    var pc := At(d, steps, j).pcs[p];
    if pc.Checking? {
      i := VisitBegins(d, steps, j, p, pc.hash);
      if beats[0] <= times[i + 1] && SteadyAt(beats, times[j]) {
        forall row: (string, string) | Owner(row.1) == c ensures !Removes(d, steps, j, row) {
          forall k | i < k < j && Advances(steps, k, p) ensures c in At(d, steps, k).store.sessions {
            PresentSince(d, steps, times, c, beats, k, j);
          }
          VisitSparesThePresent(d, steps, i, j, p, pc.hash, row);
        }
      }
    } else if pc.Dropping? {
      i := DropDestroysLateSubscribers(d, steps, j, p, pc.hash);
    } else {
      i := j;
      OneStep(d, steps, j);
    }
  }

  // ---- The pipeline does take such a listener ----

  /** Steps and states given by number. */
  function Script(n: nat, f: nat -> Step): seq<Step> { seq(n, k requires 0 <= k < n => f(k)) }

  predicate Leads(d: Digest, n: nat, f: nat -> Step, s: nat -> State) {
    s(0) == Start && forall k: nat :: k < n ==> Next(s(k), d, f(k)) == s(k + 1)
  }

  lemma {:induction false} ScriptMoment(d: Digest, n: nat, f: nat -> Step, s: nat -> State, k: nat)
    requires k <= n && Leads(d, n, f, s)
    ensures At(d, Script(n, f), k) == s(k) && (k < n ==> Script(n, f)[k] == f(k))
  {
    if k == 0 {
      assert Script(n, f)[..0] == [];
    } else {
      ScriptMoment(d, n, f, s, k - 1);
      OneStep(d, Script(n, f), k - 1);
      assert Script(n, f)[k - 1] == f(k - 1);
    }
  }

  /** A client gives its only listener up and subscribes again, while a scan is between its SMEMBERS and its pipeline. */
  function LosingStep(k: nat, c: string, r: Request, h: string): Step {
    match k
    case 0 => Step.SessionBorn(c)
    case 1 => Step.Subscribe(0, c, r)
    case 2 => Step.Scan(1)
    case 3 => Step.Unsubscribe(2, c, r)
    case 4 => Step.Advance(1, h, "")
    case 5 => Step.Subscribe(3, c, r)
    case _ => Step.Advance(1, "", "")
  }

  const LOSING := 7

  function LosingStore(k: nat, c: string, r: Request, h: string): Store {
    var row := (h, Composite(c, r.id));
    if k == 0 then Start.store
    else if k == 1 then Store(map[], {}, {}, {c}, {})
    else if k == LOSING then Store(map[], {}, {}, {c}, {})
    else Store(map[h := r], if k == 4 || k == 5 then {} else {row}, {h}, {c}, {})
  }

  function LosingPcs(k: nat, c: string, r: Request, h: string): map<Proc, Pc> {
    var entry := Composite(h, r.id);
    var subscribed := map[0 := Tracking(c, entry)];
    var scan := if k <= 4 then In(Scanning({h})) else if k <= 6 then Dropping(h, Scanning({})) else In(Scanning({}));
    if k <= 1 then map[]
    else if k == 2 then subscribed
    else if k == 3 then subscribed[1 := scan]
    else if k <= 5 then subscribed[1 := scan][2 := Counting(h, Untracking(c, entry))]
    else subscribed[1 := scan][2 := Counting(h, Untracking(c, entry))][3 := Tracking(c, entry)]
  }

  function LosingState(k: nat, c: string, r: Request, h: string): State {
    State(LosingStore(k, c, r, h), LosingPcs(k, c, r, h))
  }

  lemma LosingNext(d: Digest, k: nat, c: string, r: Request, h: string)
    requires k < LOSING && h == d(KeyOf(r))
    ensures Next(LosingState(k, c, r, h), d, LosingStep(k, c, r, h)) == LosingState(k + 1, c, r, h)
  {
    var s := LosingStore(k, c, r, h);
    if k == 4 {
      assert !Heard(s.listeners, h) && {h} - {h} == {};
    } else if k == 6 {
      assert Dropped(s, h) == LosingStore(LOSING, c, r, h);
    }
  }

  /** The run, in which all happens at the instant of the client's only beat. */
  function LosingSteps(c: string, r: Request, h: string): seq<Step> { Script(LOSING, Losing(c, r, h)) }
  function Losing(c: string, r: Request, h: string): nat -> Step { (k: nat) => LosingStep(k, c, r, h) }
  function AllAt(t: int): seq<int> { seq(LOSING, _ => t) }

  lemma LosingMoment(d: Digest, k: nat, c: string, r: Request, h: string)
    requires k <= LOSING && h == d(KeyOf(r))
    ensures At(d, LosingSteps(c, r, h), k) == LosingState(k, c, r, h)
    ensures k < LOSING ==> LosingSteps(c, r, h)[k] == LosingStep(k, c, r, h)
  {
    var s := (k: nat) => LosingState(k, c, r, h);
    forall k: nat | k < LOSING ensures Next(s(k), d, Losing(c, r, h)(k)) == s(k + 1) {
      LosingNext(d, k, c, r, h);
    }
    ScriptMoment(d, LOSING, Losing(c, r, h), s, k);
  }

  /**
   * A client whose session is there all the time loses its new listener in a run from the start: the scan saw the hash
   * empty before the client came back to it.
   */
  lemma SteadyClientCanLose(d: Digest, c: string, r: Request)
    ensures var steps, times, row := LosingSteps(c, r, d(KeyOf(r))), AllAt(0), (d(KeyOf(r)), Composite(c, r.id));
            && |steps| == LOSING && Clocked(steps, times) && SessionFollows(d, steps, times, c, [0])
            && SteadyAt([0], times[LOSING - 1]) && steps[5].Subscribe? && steps[5].client == c
            && Adds(d, steps[5], row) && Removes(d, steps, LOSING - 1, row)
            && forall k :: 1 <= k <= LOSING ==> c in At(d, steps, k).store.sessions
  {
    var h := d(KeyOf(r));
    forall k: nat | k <= LOSING
      ensures At(d, LosingSteps(c, r, h), k) == LosingState(k, c, r, h)
      ensures k < LOSING ==> LosingSteps(c, r, h)[k] == LosingStep(k, c, r, h)
    {
      LosingMoment(d, k, c, r, h);
    }
    assert Upto([0], 0) == [0] && KeyAfter([0]) == Until(SESSION_TTL);
  }

  // ---- A pass after the session is gone ----

  /** The steps that would take p away from what it is doing. */
  predicate Interrupts(step: Step, p: Proc) {
    match step
    case Subscribe(q, _, _) => q == p
    case Unsubscribe(q, _, _) => q == p
    case Collect(q, _) => q == p
    case Scan(q) => q == p
    case Crash(q) => q == p
    case _ => false
  }

  /** p reads the index at step a and has worked through it by step b. */
  predicate Pass(d: Digest, steps: seq<Step>, p: Proc, a: nat, b: nat) {
    && a < b <= |steps| && steps[a] == Step.Scan(p)
    && (forall k :: a < k < b ==> !Interrupts(steps[k], p))
    && p in At(d, steps, b).pcs && At(d, steps, b).pcs[p].Done?
  }

  /** From step a to step b no round trip finds the client's session, and it subscribes nothing. */
  predicate Silent(d: Digest, steps: seq<Step>, c: string, a: nat, b: nat)
    requires b <= |steps|
  {
    forall k :: a <= k < b ==>
      (steps[k].Advance? ==> c !in At(d, steps, k).store.sessions) && !(steps[k].Subscribe? && steps[k].client == c)
  }

  lemma StepOnlyShrinks(g: State, d: Digest, step: Step, c: string)
    requires !(step.Subscribe? && step.client == c) && ':' !in c
    ensures RowsOf(Next(g, d, step).store, c) <= RowsOf(g.store, c)
  {
    if step.Subscribe? {
      forall row | row in RowsOf(Next(g, d, step).store, c) ensures row in RowsOf(g.store, c) {
        NotOfOther(step.client, step.r.id, c);
      }
    }
  }

  /** An entry that subscribe wrote for one client is never read back as another's. */
  lemma NotOfOther(c: string, id: string, c': string)
    requires ':' !in c'
    ensures c != c' ==> Owner(Composite(c, id)) != c'
  {
    RSplitUndoesComposite(c, id);
    if ':' in id {
      ColonMovesTheCut(c, id);
    }
  }

  lemma {:induction false} RowsOnlyShrink(d: Digest, steps: seq<Step>, c: string, i: nat, j: nat)
    requires i <= j <= |steps| && ':' !in c
    requires forall k :: i <= k < j ==> !(steps[k].Subscribe? && steps[k].client == c)
    ensures RowsOf(At(d, steps, j).store, c) <= RowsOf(At(d, steps, i).store, c)
    decreases j
  {
    if i < j {
      RowsOnlyShrink(d, steps, c, i, j - 1);
      OneStep(d, steps, j - 1);
      StepOnlyShrinks(At(d, steps, j - 1), d, steps[j - 1], c);
    }
  }

  /** The rows that p, at pc, has still ahead of it or has already marked. */
  predicate Ahead(pc: Pc, row: (string, string)) {
    match pc
    case In(loop) => loop.Scanning? && row.0 in loop.todo
    case Checking(h, unchecked, stale, todo) => row.0 in todo || (row.0 == h && (row.1 in unchecked || row.1 in stale))
    case Counting(_, loop) => loop.Scanning? && row.0 in loop.todo
    case Dropping(_, loop) => loop.Scanning? && row.0 in loop.todo
    case _ => false
  }

  ghost predicate AllAhead(g: State, p: Proc, c: string) {
    p in g.pcs && forall row :: row in RowsOf(g.store, c) ==> Ahead(g.pcs[p], row)
  }

  /** One round trip of the scan leaves no row of c behind. */
  lemma ScanStep(g: State, d: Digest, p: Proc, pick: string, pick': string, c: string)
    requires AllAhead(g, p, c) && c !in g.store.sessions && ':' !in c
    ensures AllAhead(Next(g, d, Step.Advance(p, pick, pick')), p, c)
  {
    var t := Next(g, d, Step.Advance(p, pick, pick'));
    forall row | row in RowsOf(t.store, c) ensures Ahead(t.pcs[p], row) {
      AdvanceOnlyShrinks(g.store, g.pcs[p], pick, pick', row);
      StaysAhead(g.store, g.pcs[p], pick, pick', row);
    }
  }

  lemma AdvanceOnlyShrinks(s: Store, pc: Pc, pick: string, pick': string, row: (string, string))
    ensures row in Advanced(s, pc, pick, pick').0.listeners ==> row in s.listeners
  {}

  lemma StaysAhead(s: Store, pc: Pc, pick: string, pick': string, row: (string, string))
    requires Ahead(pc, row) && RSplit(row.1).Parts? && Owner(row.1) !in s.sessions && ':' !in Owner(row.1)
    requires row in s.listeners && row in Advanced(s, pc, pick, pick').0.listeners
    ensures Ahead(Advanced(s, pc, pick, pick').1, row)
  {
    KeyOfClient(s, Owner(row.1));
    match pc
    case In(loop) =>
      MembersAreRows(s, pick);
      assert row.0 == pick ==> Heard(s.listeners, pick) && row.1 in s.Members(pick);
    case Checking(h, unchecked, stale, todo) =>
      if unchecked == {} {
        assert row.0 == h ==> row.1 !in stale;
      } else {
        assert row.1 in unchecked && Owner(row.1) == pick ==> !KeyExists(s, pick);
      }
    case _ =>
  }

  lemma OtherStep(g: State, d: Digest, step: Step, p: Proc, c: string)
    requires AllAhead(g, p, c) && ':' !in c && !(step.Subscribe? && step.client == c)
    requires !Interrupts(step, p) && !(step.Advance? && step.p == p)
    ensures AllAhead(Next(g, d, step), p, c)
  {
    StepOnlyShrinks(g, d, step, c);
  }

  lemma PassStarts(g: State, d: Digest, p: Proc, c: string)
    requires RegistryInv(g.store, d)
    ensures AllAhead(Next(g, d, Step.Scan(p)), p, c)
  {}

  lemma PassStep(g: State, d: Digest, step: Step, p: Proc, c: string)
    requires AllAhead(g, p, c) && ':' !in c && !(step.Subscribe? && step.client == c) && !Interrupts(step, p)
    requires step.Advance? ==> c !in g.store.sessions
    ensures AllAhead(Next(g, d, step), p, c)
  {
    if step.Advance? && step.p == p {
      ScanStep(g, d, p, step.pick, step.pick', c);
    } else {
      OtherStep(g, d, step, p, c);
    }
  }

  lemma {:induction false} PassProgress(d: Digest, steps: seq<Step>, p: Proc, c: string, a: nat, b: nat)
    requires a < b <= |steps| && steps[a] == Step.Scan(p) && (forall k :: a < k < b ==> !Interrupts(steps[k], p))
    requires Silent(d, steps, c, a, b) && ':' !in c
    ensures AllAhead(At(d, steps, b), p, c)
    decreases b
  {
    OneStep(d, steps, b - 1);
    if b == a + 1 {
      RegistryAlwaysIndexed(d, steps[..a]);
      PassStarts(At(d, steps, a), d, p, c);
    } else {
      PassProgress(d, steps, p, c, a, b - 1);
      PassStep(At(d, steps, b - 1), d, steps[b - 1], p, c);
    }
  }

  /**
   * A pass that begins when the session is gone leaves none of the client's listeners, whatever subscribes,
   * unsubscribes, disconnects and other scans run between its round trips.
   */
  lemma PassClearsTheDead(d: Digest, steps: seq<Step>, p: Proc, c: string, a: nat, b: nat)
    requires Pass(d, steps, p, a, b) && Silent(d, steps, c, a, b) && ':' !in c
    ensures RowsOf(At(d, steps, b).store, c) == {}
  {
    PassProgress(d, steps, p, c, a, b);
  }

  // ---- The deadline ----

  datatype Sweep = Sweep(p: Proc, start: nat, end: nat)

  /** The cleaner's loop: every pass takes at most `scan`, and the next one starts `interval` after it ended. */
  predicate CleanerLoop(d: Digest, steps: seq<Step>, times: seq<int>, sweeps: seq<Sweep>, interval: nat, scan: nat)
    requires Clocked(steps, times)
  {
    && (forall k :: 0 <= k < |sweeps| ==> Pass(d, steps, sweeps[k].p, sweeps[k].start, sweeps[k].end))
    && (forall k :: 0 <= k < |sweeps| ==> times[sweeps[k].end - 1] <= times[sweeps[k].start] + scan)
    && (forall k :: 0 <= k < |sweeps| - 1 ==> times[sweeps[k + 1].start] == times[sweeps[k].end - 1] + interval)
  }

  lemma {:induction false} FirstPassAfter(d: Digest, steps: seq<Step>, times: seq<int>, sweeps: seq<Sweep>,
                                          interval: nat, scan: nat, lapse: int) returns (k: nat)
    requires Clocked(steps, times) && CleanerLoop(d, steps, times, sweeps, interval, scan) && sweeps != []
    requires times[sweeps[0].start] <= lapse <= times[sweeps[|sweeps| - 1].start]
    ensures k < |sweeps| && lapse <= times[sweeps[k].start] <= lapse + scan + interval
  {
    var last := |sweeps| - 1;
    if last == 0 {
      k := last;
    } else if times[sweeps[last - 1].start] < lapse {
      k := last;
      assert times[sweeps[last - 1 + 1].start] == times[sweeps[last - 1].end - 1] + interval;
    } else {
      k := FirstPassAfter(d, steps, times, sweeps[..last], interval, scan, lapse);
    }
  }

  /** The client's last beat is given, and from its lapse on it subscribes nothing. */
  predicate Crashed(steps: seq<Step>, times: seq<int>, c: string, lapse: int)
    requires Clocked(steps, times)
  {
    forall k :: 0 <= k < |steps| && times[k] >= lapse ==> !(steps[k].Subscribe? && steps[k].client == c)
  }

  lemma LapsedIsSilent(d: Digest, steps: seq<Step>, times: seq<int>, c: string, beats: seq<int>, a: nat, b: nat)
    requires Clocked(steps, times) && SessionFollows(d, steps, times, c, beats) && a < b <= |steps|
    requires times[a] >= beats[|beats| - 1] + SESSION_TTL
    requires Crashed(steps, times, c, beats[|beats| - 1] + SESSION_TTL)
    ensures Silent(d, steps, c, a, b)
  {
    forall k | a <= k < b && steps[k].Advance? ensures c !in At(d, steps, k).store.sessions {
      assert Upto(beats, times[k]) == beats;
      AliveAtIffSteadyAt(beats, times[k]);
    }
  }

  /**
   * Once a client stops beating, its listeners are gone no later than the TTL, one interval and two scan times after
   * its last beat, and stay gone: the pass under way may already be past its hashes, the next one is not.
   */
  lemma CrashIsCleanedInTime(d: Digest, steps: seq<Step>, times: seq<int>, c: string, beats: seq<int>,
                             sweeps: seq<Sweep>, interval: nat, scan: nat) returns (end: nat)
    requires Clocked(steps, times) && SessionFollows(d, steps, times, c, beats) && ':' !in c
    requires Crashed(steps, times, c, beats[|beats| - 1] + SESSION_TTL)
    requires CleanerLoop(d, steps, times, sweeps, interval, scan) && sweeps != []
    requires times[sweeps[0].start] <= beats[|beats| - 1] + SESSION_TTL <= times[sweeps[|sweeps| - 1].start]
    ensures 0 < end <= |steps| && times[end - 1] <= beats[|beats| - 1] + SESSION_TTL + interval + 2 * scan
    ensures forall j :: end <= j <= |steps| ==> RowsOf(At(d, steps, j).store, c) == {}
  {
    var lapse := beats[|beats| - 1] + SESSION_TTL;
    var k := FirstPassAfter(d, steps, times, sweeps, interval, scan, lapse);
    end := sweeps[k].end;
    LapsedIsSilent(d, steps, times, c, beats, sweeps[k].start, end);
    PassClearsTheDead(d, steps, sweeps[k].p, c, sweeps[k].start, end);
    forall j | end <= j <= |steps| ensures RowsOf(At(d, steps, j).store, c) == {} {
      RowsOnlyShrink(d, steps, c, end, j);
    }
  }

  // ---- The deadline is tight ----

  /** A pass that looks just before the lapse, and one that comes back as late as it may. */
  function LateStep(k: nat, c: string, r: Request, h: string): Step {
    if k == 0 then Step.SessionBorn(c)
    else if k == 1 then Step.Subscribe(0, c, r)
    else if k == 2 then Step.Scan(1)
    else if k == 3 then Step.Advance(1, h, "")
    else if k == 4 then Step.Advance(1, c, "")
    else if k <= 6 then Step.Advance(1, "", "")
    else if k == 7 then Step.SessionLapsed(c)
    else if k == 8 then Step.Advance(1, "", "")
    else if k == 9 then Step.Scan(2)
    else if k == 10 then Step.Advance(2, h, "")
    else if k == 11 then Step.Advance(2, c, "")
    else Step.Advance(2, "", "")
  }

  const LATE := 16

  function LateSteps(n: nat, c: string, r: Request, h: string): seq<Step> {
    if n == 0 then [] else LateSteps(n - 1, c, r, h) + [LateStep(n - 1, c, r, h)]
  }

  function LateTime(k: nat, interval: nat, scan: nat): int {
    if k <= 1 then 0
    else if k <= 6 then SESSION_TTL - 1
    else if k == 7 then SESSION_TTL
    else if k == 8 then SESSION_TTL - 1 + scan
    else if k <= 11 then SESSION_TTL - 1 + scan + interval
    else SESSION_TTL - 1 + 2 * scan + interval
  }

  function LateStore(k: nat, c: string, r: Request, h: string): Store {
    var row := (h, Composite(c, r.id));
    if k == 0 then Start.store
    else if k == 1 then Store(map[], {}, {}, {c}, {})
    else if k <= 7 then Store(map[h := r], {row}, {h}, {c}, {})
    else if k <= 12 then Store(map[h := r], {row}, {h}, {}, {})
    else if k <= 14 then Store(map[h := r], {}, {h}, {}, {})
    else Store(map[], {}, {}, {}, {})
  }

  /** The first pass, which finds the session. */
  function EarlyPc(k: nat, m: string, h: string): Pc {
    if k <= 3 then In(Scanning({h}))
    else if k == 4 then Checking(h, {m}, {}, {})
    else if k == 5 then Checking(h, {}, {}, {})
    else if k == 6 then Counting(h, Scanning({}))
    else if k <= 8 then In(Scanning({}))
    else Done
  }

  /** The second, which does not. */
  function LatePc(k: nat, m: string, h: string): Pc {
    if k <= 10 then In(Scanning({h}))
    else if k == 11 then Checking(h, {m}, {}, {})
    else if k == 12 then Checking(h, {}, {m}, {})
    else if k == 13 then Counting(h, Scanning({}))
    else if k == 14 then Dropping(h, Scanning({}))
    else if k == 15 then In(Scanning({}))
    else Done
  }

  function LatePcs(k: nat, c: string, r: Request, h: string): map<Proc, Pc> {
    var m, tracking := Composite(c, r.id), Tracking(c, Composite(h, r.id));
    if k <= 1 then map[]
    else if k == 2 then map[0 := tracking]
    else if k <= 9 then map[0 := tracking, 1 := EarlyPc(k, m, h)]
    else map[0 := tracking, 1 := EarlyPc(k, m, h), 2 := LatePc(k, m, h)]
  }

  function LateState(k: nat, c: string, r: Request, h: string): State {
    State(LateStore(k, c, r, h), LatePcs(k, c, r, h))
  }

  lemma LateBeginning(d: Digest, k: nat, c: string, r: Request, h: string)
    requires k < 3 && h == d(KeyOf(r))
    ensures Next(LateState(k, c, r, h), d, LateStep(k, c, r, h)) == LateState(k + 1, c, r, h)
  {}

  lemma LateRead(s: Store, c: string, r: Request, h: string)
    requires ':' !in r.id && s.listeners == {(h, Composite(c, r.id))}
    ensures Advanced(s, In(Scanning({h})), h, "") == (s, Checking(h, {Composite(c, r.id)}, {}, {}))
  {
    RSplitUndoesComposite(c, r.id);
    MembersAreRows(s, h);
    assert (h, Composite(c, r.id)) in s.listeners;
    assert (set m | m in s.Members(h) && RSplit(m).Parts?) == {Composite(c, r.id)};
    assert {h} - {h} == {};
  }

  lemma LateCheck(s: Store, c: string, r: Request, h: string)
    requires ':' !in r.id && s.subs == {}
    ensures var m := Composite(c, r.id);
            Advanced(s, Checking(h, {m}, {}, {}), c, "") == (s, Checking(h, {}, if c in s.sessions then {} else {m}, {}))
  {
    var m := Composite(c, r.id);
    RSplitUndoesComposite(c, r.id);
    var pc := Advanced(s, Checking(h, {m}, {}, {}), c, "").1;
    assert m in {m} && KeyExists(s, c) <==> c in s.sessions;
    assert pc.unchecked == {};
    assert pc.stale == if c in s.sessions then {} else {m};
  }

  lemma LateRemove(s: Store, row: (string, string), stale: set<string>)
    requires s.listeners == {row} && stale <= {row.1}
    ensures Advanced(s, Checking(row.0, {}, stale, {}), "", "")
            == (s.(listeners := if stale == {} then {row} else {}), Counting(row.0, Scanning({})))
  {
    var left := set x | x in s.listeners && !(x.0 == row.0 && x.1 in stale);
    assert left == if stale == {} then {row} else {};
  }

  lemma LateFirstPass(d: Digest, k: nat, c: string, r: Request, h: string)
    requires 3 <= k < 9 && h == d(KeyOf(r)) && ':' !in r.id
    ensures Next(LateState(k, c, r, h), d, LateStep(k, c, r, h)) == LateState(k + 1, c, r, h)
  {
    var s, row := LateStore(k, c, r, h), (h, Composite(c, r.id));
    if k == 3 {
      LateRead(s, c, r, h);
    } else if k == 4 {
      LateCheck(s, c, r, h);
    } else if k == 5 {
      LateRemove(s, row, {});
    } else if k == 6 {
      assert row in s.listeners;
    }
  }

  lemma LateSecondPass(d: Digest, k: nat, c: string, r: Request, h: string)
    requires 9 <= k < 13 && h == d(KeyOf(r)) && ':' !in r.id
    ensures Next(LateState(k, c, r, h), d, LateStep(k, c, r, h)) == LateState(k + 1, c, r, h)
  {
    var s, row := LateStore(k, c, r, h), (h, Composite(c, r.id));
    if k == 10 {
      LateRead(s, c, r, h);
    } else if k == 11 {
      LateCheck(s, c, r, h);
    } else if k == 12 {
      LateRemove(s, row, {row.1});
    }
  }

  lemma LateEnd(d: Digest, k: nat, c: string, r: Request, h: string)
    requires 13 <= k < LATE && h == d(KeyOf(r))
    ensures Next(LateState(k, c, r, h), d, LateStep(k, c, r, h)) == LateState(k + 1, c, r, h)
  {}

  lemma {:induction false} LateRun(d: Digest, n: nat, c: string, r: Request, h: string)
    requires n <= LATE && h == d(KeyOf(r)) && ':' !in r.id
    ensures |LateSteps(n, c, r, h)| == n && Reach(d, LateSteps(n, c, r, h)) == LateState(n, c, r, h)
  {
    if n == 0 {
      assert LateState(0, c, r, h) == Start;
    } else {
      LateRun(d, n - 1, c, r, h);
      ReachSnoc(d, LateSteps(n - 1, c, r, h), LateStep(n - 1, c, r, h));
      if n - 1 < 3 {
        LateBeginning(d, n - 1, c, r, h);
      } else if n - 1 < 9 {
        LateFirstPass(d, n - 1, c, r, h);
      } else if n - 1 < 13 {
        LateSecondPass(d, n - 1, c, r, h);
      } else {
        LateEnd(d, n - 1, c, r, h);
      }
    }
  }

  lemma {:induction false} LatePrefix(n: nat, k: nat, c: string, r: Request, h: string)
    requires k <= n
    ensures |LateSteps(n, c, r, h)| == n && LateSteps(n, c, r, h)[..k] == LateSteps(k, c, r, h)
    ensures k < n ==> LateSteps(n, c, r, h)[k] == LateStep(k, c, r, h)
  {
    if k < n {
      LatePrefix(n - 1, k, c, r, h);
      assert LateSteps(n, c, r, h)[..n - 1] == LateSteps(n - 1, c, r, h);
    } else if n > 0 {
      LatePrefix(n - 1, n - 1, c, r, h);
    }
  }

  /** What is at moment k of the late run, and which step follows. */
  lemma LateMoment(d: Digest, k: nat, c: string, r: Request, h: string)
    requires k <= LATE && h == d(KeyOf(r)) && ':' !in r.id
    ensures var steps := LateSteps(LATE, c, r, h);
            && |steps| == LATE && At(d, steps, k) == LateState(k, c, r, h)
            && (k < LATE ==> steps[k] == LateStep(k, c, r, h))
  {
    LatePrefix(LATE, k, c, r, h);
    LateRun(d, k, c, r, h);
  }

  function LateTimes(interval: nat, scan: nat): seq<int> { seq(LATE, k requires 0 <= k < LATE => LateTime(k, interval, scan)) }

  lemma LateFollows(d: Digest, c: string, r: Request, interval: nat, scan: nat)
    requires ':' !in r.id && scan > 0
    ensures var steps, times := LateSteps(LATE, c, r, d(KeyOf(r))), LateTimes(interval, scan);
            |steps| == LATE && Clocked(steps, times) && SessionFollows(d, steps, times, c, [0])
  {
    var h := d(KeyOf(r));
    var steps, times := LateSteps(LATE, c, r, h), LateTimes(interval, scan);
    LateMoment(d, 0, c, r, h);
    forall k | 0 <= k < LATE && steps[k].Advance?
      ensures c in At(d, steps, k).store.sessions <==> AliveAt([0], times[k])
    {
      LateMoment(d, k, c, r, h);
      assert Upto([0], times[k]) == [0] && KeyAfter([0]) == Until(SESSION_TTL);
    }
  }

  lemma LatePass(d: Digest, c: string, r: Request, p: Proc, a: nat, b: nat)
    requires ':' !in r.id && ((p == 1 && a == 2 && b == 9) || (p == 2 && a == 9 && b == LATE))
    ensures Pass(d, LateSteps(LATE, c, r, d(KeyOf(r))), p, a, b)
  {
    var h := d(KeyOf(r));
    var steps := LateSteps(LATE, c, r, h);
    LateMoment(d, a, c, r, h);
    LateMoment(d, b, c, r, h);
    forall k | a < k < b ensures !Interrupts(steps[k], p) {
      LateMoment(d, k, c, r, h);
    }
  }

  lemma LateIsCrashed(d: Digest, c: string, r: Request, interval: nat, scan: nat)
    requires ':' !in r.id && scan > 0
    ensures var steps, times := LateSteps(LATE, c, r, d(KeyOf(r))), LateTimes(interval, scan);
            |steps| == LATE && Clocked(steps, times) && Crashed(steps, times, c, SESSION_TTL)
  {
    LateFollows(d, c, r, interval, scan);
    var steps := LateSteps(LATE, c, r, d(KeyOf(r)));
    forall k | 1 < k < LATE ensures !steps[k].Subscribe? {
      LateMoment(d, k, c, r, d(KeyOf(r)));
    }
  }

  function LateSweeps(): seq<Sweep> { [Sweep(1, 2, 9), Sweep(2, 9, LATE)] }

  lemma LateLoop(d: Digest, c: string, r: Request, interval: nat, scan: nat)
    requires ':' !in r.id && scan > 0
    ensures var steps, times := LateSteps(LATE, c, r, d(KeyOf(r))), LateTimes(interval, scan);
            |steps| == LATE && Clocked(steps, times) && CleanerLoop(d, steps, times, LateSweeps(), interval, scan)
  {
    LateFollows(d, c, r, interval, scan);
    LatePass(d, c, r, 1, 2, 9);
    LatePass(d, c, r, 2, 9, LATE);
  }

  /**
   * One scan time is not enough, and two are: for every interval and every scan time there is a run in which the
   * listener is still there until one tick before the deadline.
   */
  lemma DeadlineIsTight(d: Digest, c: string, r: Request, interval: nat, scan: nat)
    requires ':' !in c && ':' !in r.id && scan > 0
    ensures var steps, times := LateSteps(LATE, c, r, d(KeyOf(r))), LateTimes(interval, scan);
            && |steps| == LATE && Clocked(steps, times) && SessionFollows(d, steps, times, c, [0])
            && Crashed(steps, times, c, SESSION_TTL) && CleanerLoop(d, steps, times, LateSweeps(), interval, scan)
            && times[LateSweeps()[0].start] <= SESSION_TTL <= times[LateSweeps()[1].start]
            && times[12] == SESSION_TTL + interval + 2 * scan - 1
            && (d(KeyOf(r)), Composite(c, r.id)) in RowsOf(At(d, steps, 12).store, c)
  {
    LateFollows(d, c, r, interval, scan);
    LateIsCrashed(d, c, r, interval, scan);
    LateLoop(d, c, r, interval, scan);
    LateMoment(d, 12, c, r, d(KeyOf(r)));
    RSplitUndoesComposite(c, r.id);
  }
}
