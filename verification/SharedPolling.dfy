/**
 * Shared polling against its specification: one query per subscriber. Equal queries share one registry
 * entry and one execution, and the result is fanned out to the listeners with their own ids.
 */
module SharedPolling {
  import opened Wrappers
  import opened SetSums
  import opened CompositeKeys
  import opened SubscriptionContract
  import opened SubscriptionStore
  import opened SubscriptionService
  import opened GhostCleaner
  import opened WebSocketServer

  /** Field names to the JSON text of their values. */
  type Payload = map<string, string>

  datatype Message = Message(client: string, payload: Payload)

  /** What a handler's SQL yields at this tick; no data and an exception both publish nothing. */
  type Handler = Request -> Option<Payload>
  type Handlers = map<string, Handler>

  function Execute(handlers: Handlers, r: Request): Option<Payload> {
    if r.target in handlers then handlers[r.target](r) else None
  }

  /** A handler reads the query, never the action, the client's id or a parameter called `id`. */
  ghost predicate ReadsOnlyTheQuery(handlers: Handlers) {
    forall t: string, r: Request, r': Request ::
      t in handlers && SameQuery(r, r') ==> handlers[t](r) == handlers[t](r')
  }

  // ---- The shared system: what one tick publishes and what the consumer sends ----

  function Published(s: Store, handlers: Handlers, hash: string): Option<Payload> {
    if s.Members(hash) == {} || hash !in s.registry then None else Execute(handlers, s.registry[hash])
  }

  /** A payload is published if and only if somebody listens, the entry is there, and its target's handler yields it. */
  lemma PublishedIff(s: Store, handlers: Handlers, hash: string, p: Payload)
    ensures Published(s, handlers, hash) == Some(p)
            <==> && (exists member :: (hash, member) in s.listeners)
                 && hash in s.registry && s.registry[hash].target in handlers
                 && handlers[s.registry[hash].target](s.registry[hash]) == Some(p)
  {
    if member :| (hash, member) in s.listeners {
      assert member in s.Members(hash);
    }
    if s.Members(hash) != {} {
      var member :| member in s.Members(hash);
      assert (hash, member) in s.listeners;
    }
  }

  function Delivery(connected: map<string, string>, member: string, p: Payload): multiset<Message> {
    if Owner(member) in connected
    then multiset{Message(Owner(member), p["id" := Suffix(member)])}
    else multiset{}
  }

  ghost function DeliveryFn(connected: map<string, string>, p: Payload): string -> multiset<Message> {
    m => Delivery(connected, m, p)
  }

  ghost function FanOut(s: Store, connected: map<string, string>, hash: string, p: Payload): multiset<Message> {
    Gather(s.Members(hash), DeliveryFn(connected, p))
  }

  ghost function HashMessages(sys: System, handlers: Handlers, hash: string): multiset<Message> {
    match Published(sys.store, handlers, hash)
    case None => multiset{}
    case Some(p) => FanOut(sys.store, sys.connected, hash, p)
  }

  ghost function SharedTick(sys: System, handlers: Handlers): multiset<Message> {
    Gather(sys.store.active, h => HashMessages(sys, handlers, h))
  }

  // ---- The naive system: every subscription runs its own request ----

  datatype Sub = Sub(client: string, id: string, key: QueryKey)

  datatype Naive = Naive(entries: map<Sub, Request>, connected: map<string, string>, used: set<string>,
                         sessions: set<string>)

  const NaiveEmpty := Naive(map[], map[], {}, {})

  function SubOf(client: string, r: Request): Sub {
    Sub(client, r.id, KeyOf(r))
  }

  function Without(n: Naive, client: string): Naive {
    n.(entries := map e | e in n.entries && e.client != client :: n.entries[e],
       connected := n.connected - {client}, sessions := n.sessions - {client})
  }

  function NaiveApply(n: Naive, e: Event): Naive {
    match e
    case Open(c, ch) =>
      if c !in n.used && ':' !in c
      then n.(connected := n.connected[c := ch], used := n.used + {c}, sessions := n.sessions + {c})
      else n
    case Receive(c, r) =>
      if c !in n.connected then n
      else if r.channelId != n.connected[c] then Without(n, c)
      else if r.action.Subscribe? then n.(entries := n.entries[SubOf(c, r) := r])
      else n.(entries := n.entries - {SubOf(c, r)})
    case Close(c) => if c in n.connected then Without(n, c) else n
    case Lapse(c) => n.(sessions := n.sessions - {c})
    case Crash => n.(connected := map[])
    case Scan => n.(entries := map e | e in n.entries && e.client in n.sessions :: n.entries[e])
  }

  function NaiveRun(events: seq<Event>): Naive {
    if events == [] then NaiveEmpty else NaiveApply(NaiveRun(events[..|events| - 1]), events[|events| - 1])
  }

  /** Its target has a handler, and that has data. */
  predicate HasData(handlers: Handlers, r: Request) { r.target in handlers && handlers[r.target](r).Some? }

  function NaiveMessage(n: Naive, handlers: Handlers, e: Sub): multiset<Message> {
    if e !in n.entries || e.client !in n.connected || !HasData(handlers, n.entries[e]) then multiset{} else
    var own := n.entries[e];
    multiset{Message(e.client, handlers[own.target](own).value["id" := e.id])}
  }

  ghost function NaiveTick(n: Naive, subs: set<Sub>, handlers: Handlers): multiset<Message> {
    Gather(subs, e => NaiveMessage(n, handlers, e))
  }

  /** The subscriptions whose id the consumer can cut off again. */
  function Deliverable(n: Naive): set<Sub> {
    set e | e in n.entries && ':' !in e.id
  }

  // ---- The refinement relation ----

  function RowOf(d: Digest, e: Sub): (string, string) {
    (d(e.key), Composite(e.client, e.id))
  }

  function Rows(d: Digest, subs: set<Sub>): set<(string, string)> {
    set e | e in subs :: RowOf(d, e)
  }

  function Readable(rows: set<(string, string)>): set<(string, string)> {
    set row | row in rows && ':' !in Owner(row.1)
  }

  /** Registry and index are exactly the hashes with a listener; every entry is for the query it is filed under. */
  ghost predicate StoreInv(s: Store, d: Digest) {
    && s.registry.Keys == s.active
    && (forall h :: h in s.registry ==> d(KeyOf(s.registry[h])) == h)
    && (forall h :: h in s.active <==> Heard(s.listeners, h))
    && (forall row :: row in s.listeners ==> RSplit(row.1).Parts?)
    && (forall row :: row in s.subs ==> RSplit(row.1).Parts?)
  }

  /** Every listener that can be read back is in the tracking set of its owner. */
  ghost predicate Tracked(s: Store) {
    forall row :: row in s.listeners && ':' !in Owner(row.1) ==>
      (Owner(row.1), Composite(row.0, Suffix(row.1))) in s.subs
  }

  ghost predicate Refines(sys: System, n: Naive, d: Digest) {
    && sys.connected == n.connected && sys.used == n.used && sys.store.sessions == n.sessions
    && (forall c :: c in n.used ==> ':' !in c)
    && n.connected.Keys <= n.used
    && StoreInv(sys.store, d)
    && Tracked(sys.store)
    && (forall e :: e in n.entries ==> e.client in n.used && KeyOf(n.entries[e]) == e.key)
    && Readable(sys.store.listeners) == Rows(d, Deliverable(n))
  }

  lemma OwnerOfComposite(c: string, q: string)
    ensures RSplit(Composite(c, q)).Parts?
    ensures ':' !in q ==> Owner(Composite(c, q)) == c && Suffix(Composite(c, q)) == q
    ensures ':' in q ==> ':' in Owner(Composite(c, q))
  {
    RSplitUndoesComposite(c, q);
    if ':' in q { ColonMovesTheCut(c, q); }
  }

  lemma RowsAreDistinct(d: Digest, e: Sub, e': Sub)
    requires GoodDigest(d) && ':' !in e.client && ':' !in e'.client && RowOf(d, e) == RowOf(d, e')
    ensures e == e'
  {
    CompositeInjective(e.client, e.id, e'.client, e'.id);
  }

  // ---- Every whole operation keeps the store invariant and the tracking ----

  lemma HeardWithout(rows: set<(string, string)>, gone: set<(string, string)>)
    ensures forall h :: Heard(rows - gone, h) ==> Heard(rows, h)
    ensures forall h :: Heard(rows, h) && !Heard(rows - gone, h) ==> Heard(gone * rows, h)
  {}

  lemma SubscribedStore(s: Store, d: Digest, c: string, r: Request)
    requires StoreInv(s, d)
    ensures StoreInv(Subscribed(s, d, c, r), d)
  {
    var hash := d(KeyOf(r));
    var s', row := Subscribed(s, d, c, r), (hash, Composite(c, r.id));
    OwnerOfComposite(c, r.id);
    OwnerOfComposite(hash, r.id);
    assert row in s'.listeners && Heard(s'.listeners, hash);
    forall h ensures h in s'.active <==> Heard(s'.listeners, h) {
      if Heard(s.listeners, h) {
        var p :| p in s.listeners && p.0 == h;
        assert p in s'.listeners;
      }
    }
  }

  lemma SubscribedTracked(s: Store, d: Digest, c: string, r: Request)
    requires Tracked(s) && ':' !in c
    ensures Tracked(Subscribed(s, d, c, r))
  {
    OwnerOfComposite(c, r.id);
  }

  lemma RemovedStore(s: Store, d: Digest, gone: set<(string, string)>)
    requires StoreInv(s, d)
    ensures StoreInv(RemoveRows(s, gone), d)
  {}

  lemma UnsubscribedStore(s: Store, d: Digest, c: string, r: Request)
    requires StoreInv(s, d)
    ensures StoreInv(Unsubscribed(s, d, c, r), d)
  {}

  lemma UnsubscribedTracked(s: Store, d: Digest, c: string, r: Request)
    requires StoreInv(s, d) && Tracked(s) && GoodDigest(d)
    ensures Tracked(Unsubscribed(s, d, c, r))
  {
    var hash := d(KeyOf(r));
    var s', row := Unsubscribed(s, d, c, r), (hash, Composite(c, r.id));
    forall p | p in s'.listeners && ':' !in Owner(p.1)
      ensures (Owner(p.1), Composite(p.0, Suffix(p.1))) in s'.subs
    {
      assert p in s.listeners && Heard(s.listeners, p.0);
      assert ':' !in d(KeyOf(s.registry[p.0]));
      if (Owner(p.1), Composite(p.0, Suffix(p.1))) == (c, Composite(hash, r.id)) {
        CompositeInjective(p.0, Suffix(p.1), hash, r.id);
      }
    }
  }

  /** The rows a client's tracking set leads to are exactly its readable listeners. */
  lemma CollectedRows(s: Store, d: Digest, c: string)
    requires StoreInv(s, d) && Tracked(s) && ':' !in c
    ensures var t := Collected(s, c);
            && t == RemoveRows(s, ListenerRows(c, TrackedPairs(s, c)))
            && (forall row :: row in t.listeners <==> row in s.listeners && Owner(row.1) != c)
  {
    var gone := ListenerRows(c, TrackedPairs(s, c));
    forall row | row in gone ensures Owner(row.1) == c {
      var pair :| pair in TrackedPairs(s, c) && row == (pair.0, Composite(c, pair.1));
      OwnerOfComposite(c, pair.1);
    }
    forall row | row in s.listeners && Owner(row.1) == c ensures row in gone {
      var sub := Suffix(row.1);
      assert row.1 == Composite(c, sub);
      OwnerOfComposite(row.0, sub);
      var entry := (c, Composite(row.0, sub));
      assert entry in s.subs && RSplit(entry.1).Parts?;
      assert (row.0, sub) in TrackedPairs(s, c);
    }
  }

  lemma ClosedStore(s: Store, d: Digest, c: string)
    requires StoreInv(s, d) && Tracked(s) && ':' !in c
    ensures var t := Destroyed(Collected(s, c), c);
            StoreInv(t, d) && Tracked(t) && forall row :: row in t.listeners <==> row in s.listeners && Owner(row.1) != c
  {
    CollectedRows(s, d, c);
    RemovedStore(s, d, ListenerRows(c, TrackedPairs(s, c)));
  }

  lemma ScannedStore(s: Store, d: Digest)
    requires StoreInv(s, d) && Tracked(s)
    ensures var t := Scanned(s, s.active);
            StoreInv(t, d) && Tracked(t) &&
            forall row :: row in t.listeners <==> row in s.listeners && KeyExists(s, Owner(row.1))
  {
    assert forall row :: row in s.listeners ==> Heard(s.listeners, row.0);
    IndexedScanIsExact(s);
    FullScanHeals(s);
    var t := Scanned(s, s.active);
    assert forall row :: row in t.listeners ==> Heard(t.listeners, row.0);
  }

  /** A subscribe adds an entry if and only if none is there for the same query; it listens to that query's entry. */
  lemma SubscribeSharesIff(s: Store, d: Digest, c: string, r: Request)
    requires StoreInv(s, d) && GoodDigest(d)
    ensures var t := Subscribed(s, d, c, r);
            && (t.registry == s.registry <==> exists h :: h in s.registry && SameQuery(s.registry[h], r))
            && exists h :: (h, Composite(c, r.id)) in t.listeners && h in t.registry && SameQuery(t.registry[h], r)
  {
    var t, hash := Subscribed(s, d, c, r), d(KeyOf(r));
    if h :| h in s.registry && SameQuery(s.registry[h], r) {
      KeyIsTheQuery(s.registry[h], r);
    }
    if hash in s.registry {
      KeyIsTheQuery(s.registry[hash], r);
    } else {
      KeyIsTheQuery(r, r);
      assert hash in t.registry;
    }
    assert (hash, Composite(c, r.id)) in t.listeners;
  }

  /** In every run no two entries are for the same query. */
  lemma EntryPerQuery(d: Digest, events: seq<Event>, h: string, h': string)
    requires GoodDigest(d) && h in Run(d, events).store.registry && h' in Run(d, events).store.registry
    ensures SameQuery(Run(d, events).store.registry[h], Run(d, events).store.registry[h']) <==> h == h'
  {
    RunRefines(d, events);
    KeyIsTheQuery(Run(d, events).store.registry[h], Run(d, events).store.registry[h']);
  }

  // ---- Every event keeps the refinement relation ----

  lemma RowsInsert(d: Digest, subs: set<Sub>, e: Sub)
    ensures Rows(d, subs + {e}) == Rows(d, subs) + {RowOf(d, e)}
  {}

  lemma RowsFilter(d: Digest, subs: set<Sub>, kept: set<Sub>, rows: set<(string, string)>)
    requires kept <= subs
    requires forall e :: e in subs ==> (e in kept <==> RowOf(d, e) in rows)
    requires rows <= Rows(d, subs)
    ensures Rows(d, kept) == rows
  {}

  lemma OpenKeeps(sys: System, n: Naive, d: Digest, c: string, ch: string)
    requires Refines(sys, n, d) && FreshId(sys, c)
    ensures Refines(Opened(sys, c, ch), NaiveApply(n, Event.Open(c, ch)), d)
  {
    var s, s' := sys.store, Created(sys.store, c);
    forall row | row in s'.listeners && ':' !in Owner(row.1)
      ensures (Owner(row.1), Composite(row.0, Suffix(row.1))) in s'.subs
    {
      assert row in Readable(s.listeners);
      var e :| e in Deliverable(n) && row == RowOf(d, e);
      OwnerOfComposite(e.client, e.id);
    }
    assert Deliverable(NaiveApply(n, Event.Open(c, ch))) == Deliverable(n);
  }

  lemma SubscribeRows(s: Store, n: Naive, d: Digest, c: string, r: Request)
    requires Readable(s.listeners) == Rows(d, Deliverable(n)) && ':' !in c
    ensures Readable(Subscribed(s, d, c, r).listeners) ==
            Rows(d, Deliverable(n.(entries := n.entries[SubOf(c, r) := r])))
  {
    var s', e := Subscribed(s, d, c, r), SubOf(c, r);
    var n' := n.(entries := n.entries[e := r]);
    OwnerOfComposite(c, r.id);
    if ':' in r.id {
      assert Deliverable(n') == Deliverable(n);
      assert Readable(s'.listeners) == Readable(s.listeners);
    } else {
      assert Deliverable(n') == Deliverable(n) + {e};
      assert Readable(s'.listeners) == Readable(s.listeners) + {RowOf(d, e)};
      RowsInsert(d, Deliverable(n), e);
    }
  }

  lemma SubscribeKeeps(sys: System, n: Naive, d: Digest, c: string, r: Request)
    requires Refines(sys, n, d) && c in n.connected
    ensures Refines(sys.(store := Subscribed(sys.store, d, c, r)), n.(entries := n.entries[SubOf(c, r) := r]), d)
  {
    SubscribedStore(sys.store, d, c, r);
    SubscribedTracked(sys.store, d, c, r);
    SubscribeRows(sys.store, n, d, c, r);
  }

  lemma UnsubscribeKeeps(sys: System, n: Naive, d: Digest, c: string, r: Request)
    requires Refines(sys, n, d) && GoodDigest(d) && c in n.connected
    ensures Refines(sys.(store := Unsubscribed(sys.store, d, c, r)), n.(entries := n.entries - {SubOf(c, r)}), d)
  {
    UnsubscribedStore(sys.store, d, c, r);
    UnsubscribedTracked(sys.store, d, c, r);
    UnsubscribeRows(sys.store, n, d, c, r);
  }

  lemma UnsubscribeRows(s: Store, n: Naive, d: Digest, c: string, r: Request)
    requires Readable(s.listeners) == Rows(d, Deliverable(n)) && ':' !in c && GoodDigest(d)
    requires forall e :: e in n.entries ==> ':' !in e.client
    ensures Readable(Unsubscribed(s, d, c, r).listeners) ==
            Rows(d, Deliverable(n.(entries := n.entries - {SubOf(c, r)})))
  {
    var s', e := Unsubscribed(s, d, c, r), SubOf(c, r);
    var n' := n.(entries := n.entries - {e});
    var row := RowOf(d, e);
    assert s'.listeners == s.listeners - {row};
    forall x | x in Deliverable(n)
      ensures x in Deliverable(n') <==> RowOf(d, x) in Readable(s'.listeners)
    {
      assert RowOf(d, x) in Readable(s.listeners);
      if RowOf(d, x) == row { RowsAreDistinct(d, x, e); }
    }
    assert Readable(s'.listeners) <= Readable(s.listeners);
    RowsFilter(d, Deliverable(n), Deliverable(n'), Readable(s'.listeners));
  }

  lemma WithoutKeeps(sys: System, n: Naive, d: Digest, c: string)
    requires Refines(sys, n, d) && c in n.connected
    ensures Refines(Closed(sys, c), Without(n, c), d)
  {
    var s' := Closed(sys, c).store;
    ClosedStore(sys.store, d, c);
    forall e | e in Deliverable(n) ensures Owner(RowOf(d, e).1) == e.client {
      OwnerOfComposite(e.client, e.id);
    }
    forall e | e in Deliverable(n) ensures e in Deliverable(Without(n, c)) <==> RowOf(d, e) in Readable(s'.listeners) {
      assert RowOf(d, e) in Readable(sys.store.listeners);
    }
    RowsFilter(d, Deliverable(n), Deliverable(Without(n, c)), Readable(s'.listeners));
  }

  lemma ScanKeeps(sys: System, n: Naive, d: Digest)
    requires Refines(sys, n, d)
    ensures Refines(sys.(store := Scanned(sys.store, sys.store.active)), NaiveApply(n, Event.Scan), d)
  {
    var s', n' := Scanned(sys.store, sys.store.active), NaiveApply(n, Event.Scan);
    ScannedStore(sys.store, d);
    FullScanHeals(sys.store);
    forall e | e in Deliverable(n) ensures Owner(RowOf(d, e).1) == e.client {
      OwnerOfComposite(e.client, e.id);
    }
    forall e | e in Deliverable(n) ensures e in Deliverable(n') <==> RowOf(d, e) in Readable(s'.listeners) {
      assert RowOf(d, e) in Readable(sys.store.listeners);
      KeyOfClient(sys.store, e.client);
    }
    RowsFilter(d, Deliverable(n), Deliverable(n'), Readable(s'.listeners));
  }

  lemma StepRefines(sys: System, n: Naive, d: Digest, e: Event)
    requires Refines(sys, n, d) && GoodDigest(d)
    ensures Refines(Apply(sys, d, e), NaiveApply(n, e), d)
  {
    match e
    case Open(c, ch) => if FreshId(sys, c) { OpenKeeps(sys, n, d, c, ch); }
    case Receive(c, r) =>
      if c in n.connected {
        if r.channelId != n.connected[c] { WithoutKeeps(sys, n, d, c); }
        else if r.action.Subscribe? { SubscribeKeeps(sys, n, d, c, r); }
        else { UnsubscribeKeeps(sys, n, d, c, r); }
      }
    case Close(c) => if c in n.connected { WithoutKeeps(sys, n, d, c); }
    case Lapse(c) => assert Deliverable(NaiveApply(n, e)) == Deliverable(n);
    case Crash => assert Deliverable(NaiveApply(n, e)) == Deliverable(n);
    case Scan => ScanKeeps(sys, n, d);
  }

  /** Every run of whole operations refines the naive run of the same events. */
  lemma {:induction false} RunRefines(d: Digest, events: seq<Event>)
    requires GoodDigest(d)
    ensures Refines(Run(d, events), NaiveRun(events), d)
  {
    if events == [] {
      assert Deliverable(NaiveEmpty) == {};
    } else {
      RunRefines(d, events[..|events| - 1]);
      StepRefines(Run(d, events[..|events| - 1]), NaiveRun(events[..|events| - 1]), d, events[|events| - 1]);
    }
  }

  // ---- One tick sends what the naive system would send ----

  function RowMessages(sys: System, handlers: Handlers, row: (string, string)): multiset<Message> {
    match Published(sys.store, handlers, row.0)
    case None => multiset{}
    case Some(p) => Delivery(sys.connected, row.1, p)
  }

  type RowFn = ((string, string)) -> multiset<Message>

  ghost predicate PerRow(f: RowFn, sys: System, handlers: Handlers) {
    forall row :: f(row) == RowMessages(sys, handlers, row)
  }

  /** The messages of one hash are those of its listener rows. */
  lemma HashIsItsRows(sys: System, handlers: Handlers, h: string, f: RowFn)
    requires PerRow(f, sys, handlers)
    ensures HashMessages(sys, handlers, h) == Gather(Under(sys.store.listeners, {h}), f)
  {
    match Published(sys.store, handlers, h)
    case None => GatherEmpty(Under(sys.store.listeners, {h}), f);
    case Some(p) =>
      assert sys.store.Members(h) == Column(sys.store.listeners, h);
      GatherOneKey(sys.store.listeners, h, f, DeliveryFn(sys.connected, p));
  }

  lemma TickIsItsRows(sys: System, handlers: Handlers, f: RowFn)
    requires PerRow(f, sys, handlers)
    requires forall row :: row in sys.store.listeners ==> row.0 in sys.store.active
    ensures SharedTick(sys, handlers) == Gather(sys.store.listeners, f)
  {
    var perHash := h => HashMessages(sys, handlers, h);
    forall h | h in sys.store.active ensures perHash(h) == Gather(Under(sys.store.listeners, {h}), f) {
      HashIsItsRows(sys, handlers, h, f);
    }
    GatherByKey(sys.store.listeners, sys.store.active, f, perHash);
    assert Under(sys.store.listeners, sys.store.active) == sys.store.listeners;
  }

  /** A listener row carries to its subscriber exactly what the subscriber's own request would have. */
  lemma RowServesItsSubscription(sys: System, n: Naive, d: Digest, handlers: Handlers, e: Sub)
    requires Refines(sys, n, d) && GoodDigest(d) && ReadsOnlyTheQuery(handlers) && e in Deliverable(n)
    ensures RowMessages(sys, handlers, RowOf(d, e)) == NaiveMessage(n, handlers, e)
  {
    var row := RowOf(d, e);
    assert row in Readable(sys.store.listeners);
    MembersAreRows(sys.store, row.0);
    assert Heard(sys.store.listeners, row.0);
    OwnerOfComposite(e.client, e.id);
    var own, filed := n.entries[e], sys.store.registry[row.0];
    KeyIsTheQuery(own, filed);
    assert own.target == filed.target;
  }

  /** Rows that cannot be read back belong to nobody who is connected. */
  lemma UnreadableRowsAreSilent(sys: System, n: Naive, d: Digest, handlers: Handlers, f: RowFn)
    requires Refines(sys, n, d) && PerRow(f, sys, handlers)
    ensures Gather(sys.store.listeners, f) == Gather(Readable(sys.store.listeners), f)
  {
    var all, readable := sys.store.listeners, Readable(sys.store.listeners);
    assert all == readable + (all - readable);
    GatherUnion(readable, all - readable, f);
    GatherEmpty(all - readable, f);
  }

  lemma RowsServeTheirSubscriptions(sys: System, n: Naive, d: Digest, handlers: Handlers)
    requires Refines(sys, n, d) && GoodDigest(d) && ReadsOnlyTheQuery(handlers)
    ensures forall e :: e in Deliverable(n) ==> RowMessages(sys, handlers, RowOf(d, e)) == NaiveMessage(n, handlers, e)
    ensures forall e, e' :: e in Deliverable(n) && e' in Deliverable(n) && RowOf(d, e) == RowOf(d, e') ==> e == e'
  {
    forall e | e in Deliverable(n) ensures RowMessages(sys, handlers, RowOf(d, e)) == NaiveMessage(n, handlers, e) {
      RowServesItsSubscription(sys, n, d, handlers, e);
    }
    forall e, e' | e in Deliverable(n) && e' in Deliverable(n) && RowOf(d, e) == RowOf(d, e') ensures e == e' {
      RowsAreDistinct(d, e, e');
    }
  }

  lemma {:induction false} GatherRows(d: Digest, subs: set<Sub>, f: RowFn, g: Sub -> multiset<Message>)
    requires forall e :: e in subs ==> g(e) == f(RowOf(d, e))
    requires forall e, e' :: e in subs && e' in subs && RowOf(d, e) == RowOf(d, e') ==> e == e'
    ensures Gather(Rows(d, subs), f) == Gather(subs, g)
    decreases |subs|
  {
    if subs != {} {
      var e :| e in subs;
      GatherExtract(subs, e, g);
      RowsInsert(d, subs - {e}, e);
      assert subs - {e} + {e} == subs;
      GatherInsert(Rows(d, subs - {e}), RowOf(d, e), f);
      GatherRows(d, subs - {e}, f, g);
    } else {
      assert Rows(d, subs) == {};
    }
  }

  /**
   * The headline: after any run, one shared tick sends exactly the messages that running every
   * subscription's own request would send, for the subscriptions whose id is free of colons.
   */
  lemma SharedTickIsNaiveTick(d: Digest, events: seq<Event>, handlers: Handlers)
    requires GoodDigest(d) && ReadsOnlyTheQuery(handlers)
    ensures SharedTick(Run(d, events), handlers) ==
            NaiveTick(NaiveRun(events), Deliverable(NaiveRun(events)), handlers)
  {
    var sys, n := Run(d, events), NaiveRun(events);
    RunRefines(d, events);
    assert forall row :: row in sys.store.listeners ==> Heard(sys.store.listeners, row.0);
    var f := row => RowMessages(sys, handlers, row);
    TickIsItsRows(sys, handlers, f);
    UnreadableRowsAreSilent(sys, n, d, handlers, f);
    RowsServeTheirSubscriptions(sys, n, d, handlers);
    GatherRows(d, Deliverable(n), f, e => NaiveMessage(n, handlers, e));
  }

  /** The two systems agree on all subscriptions exactly when no connected one with a colon in its id has data. */
  lemma AgreementIsColonFreedom(d: Digest, events: seq<Event>, handlers: Handlers)
    requires GoodDigest(d) && ReadsOnlyTheQuery(handlers)
    ensures var n := NaiveRun(events);
            SharedTick(Run(d, events), handlers) == NaiveTick(n, n.entries.Keys, handlers)
            <==> forall e :: e in n.entries && ':' in e.id && e.client in n.connected
                             ==> !HasData(handlers, n.entries[e])
  {
    var n := NaiveRun(events);
    var lost := n.entries.Keys - Deliverable(n);
    var f := e => NaiveMessage(n, handlers, e);
    SharedTickIsNaiveTick(d, events, handlers);
    assert n.entries.Keys == Deliverable(n) + lost;
    GatherUnion(Deliverable(n), lost, f);
    GatherEmpty(lost, f);
  }

  // ---- Disconnect ----

  /**
   * After any run, closing a connection removes exactly the listeners read back as that client's, keeps
   * every other listener, and keeps exactly the hashes that still have one. A subscription of the client
   * outlives it only if its id has a colon, and then it does.
   */
  lemma DisconnectIsExact(d: Digest, events: seq<Event>, c: string)
    requires GoodDigest(d) && c in Run(d, events).connected
    ensures var s, t := Run(d, events).store, Closed(Run(d, events), c).store;
            && (forall row :: row in t.listeners <==> row in s.listeners && Owner(row.1) != c)
            && (forall h :: h in t.registry <==> h in s.registry && Heard(t.listeners, h))
            && (forall h :: h in t.registry ==> t.registry[h] == s.registry[h])
            && t.active == t.registry.Keys
            && t.sessions == s.sessions - {c} && (forall row :: row in t.subs <==> row in s.subs && row.0 != c)
            && forall id, k :: (d(k), Composite(c, id)) in s.listeners ==>
                 ((d(k), Composite(c, id)) in t.listeners <==> ':' in id)
  {
    var sys := Run(d, events);
    RunRefines(d, events);
    ClosedStore(sys.store, d, c);
    CollectedRows(sys.store, d, c);
    HeardWithout(sys.store.listeners, ListenerRows(c, TrackedPairs(sys.store, c)));
    forall id: string ensures Owner(Composite(c, id)) == c <==> ':' !in id {
      OwnerOfComposite(c, id);
    }
  }
}
