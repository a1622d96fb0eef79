/** The server: one handler per connection, and the whole operations that a run of the system is made of. */
module WebSocketServer {
  import opened Wrappers
  import opened CompositeKeys
  import opened SubscriptionContract
  import opened SubscriptionStore
  import opened SubscriptionService
  import opened GhostCleaner

  /** Open connections carry the channel of their URL; `used` holds every client id ever drawn. */
  datatype System = System(store: Store, connected: map<string, string>, used: set<string>)

  datatype Event =
    | Open(client: string, channel: string)
    | Receive(client: string, message: Request)
    | Close(client: string)
    | Lapse(client: string)      // the session key expires
    | Crash                      // the WebSocket service dies without any clean-up
    | Scan                       // one pass of the ghost cleaner

  const Empty := System(Store(map[], {}, {}, {}, {}), map[], {})

  /** uuid4: never drawn twice, and free of colons. */
  predicate FreshId(sys: System, client: string) {
    client !in sys.used && ':' !in client
  }

  function Opened(sys: System, client: string, channel: string): System {
    System(Created(sys.store, client), sys.connected[client := channel], sys.used + {client})
  }

  function Closed(sys: System, client: string): System {
    sys.(store := Destroyed(Collected(sys.store, client), client), connected := sys.connected - {client})
  }

  function Received(sys: System, d: Digest, client: string, r: Request): System
    requires client in sys.connected
  {
    if r.channelId != sys.connected[client] then Closed(sys, client)
    else if r.action.Subscribe? then sys.(store := Subscribed(sys.store, d, client, r))
    else sys.(store := Unsubscribed(sys.store, d, client, r))
  }

  function Apply(sys: System, d: Digest, e: Event): System {
    match e
    case Open(c, ch) => if FreshId(sys, c) then Opened(sys, c, ch) else sys
    case Receive(c, r) => if c in sys.connected then Received(sys, d, c, r) else sys
    case Close(c) => if c in sys.connected then Closed(sys, c) else sys
    case Lapse(c) => sys.(store := sys.store.(sessions := sys.store.sessions - {c}))
    case Crash => sys.(connected := map[])
    case Scan => sys.(store := Scanned(sys.store, sys.store.active))
  }

  function Run(d: Digest, events: seq<Event>): System {
    if events == [] then Empty else Apply(Run(d, events[..|events| - 1]), d, events[|events| - 1])
  }

  // ---- What is tracked ----

  function TrackedNext(entries: set<string>, sys: System, d: Digest, e: Event, c: string): set<string> {
    match e
    case Open(c', _) => if c' == c && FreshId(sys, c) then {} else entries
    case Receive(c', r) =>
      if c' != c || c !in sys.connected then entries
      else if r.channelId != sys.connected[c] then {}
      else if r.action.Subscribe? then entries + {d(KeyOf(r)) + ":" + r.id}
      else entries - {d(KeyOf(r)) + ":" + r.id}
    case Close(c') => if c' == c && c in sys.connected then {} else entries
    case _ => entries
  }

  /** What a client subscribed to on its connection and has not given up since. */
  function TrackedBy(d: Digest, events: seq<Event>, c: string): set<string> {
    if events == [] then {}
    else TrackedNext(TrackedBy(d, events[..|events| - 1], c), Run(d, events[..|events| - 1]), d, events[|events| - 1], c)
  }

  ghost predicate IsTracked(s: Store, c: string, entries: set<string>) {
    forall entry :: (c, entry) in s.subs <==> entry in entries
  }

  lemma StepIsTracked(sys: System, d: Digest, e: Event, c: string, entries: set<string>)
    requires IsTracked(sys.store, c, entries)
    ensures IsTracked(Apply(sys, d, e).store, c, TrackedNext(entries, sys, d, e, c))
  {}

  /** In every run the tracking set of a client holds exactly that, lapses, scans and crashes included. */
  lemma {:induction false} TrackingIsTold(d: Digest, events: seq<Event>, c: string)
    ensures IsTracked(Run(d, events).store, c, TrackedBy(d, events, c))
  {
    if events == [] {
    } else {
      TrackingIsTold(d, events[..|events| - 1], c);
      StepIsTracked(Run(d, events[..|events| - 1]), d, events[|events| - 1], c, TrackedBy(d, events[..|events| - 1], c));
    }
  }

  // ---- A leftover that no run removes ----

  function RunOn(sys: System, d: Digest, events: seq<Event>): System {
    if events == [] then sys else Apply(RunOn(sys, d, events[..|events| - 1]), d, events[|events| - 1])
  }

  /** c is not connected and will not be again, but its tracking set and a listener named after it are there. */
  predicate Leftover(sys: System, c: string, entry: string, h: string, id: string) {
    && ':' !in c && c in sys.used && sys.connected.Keys <= sys.used - {c} && (forall x :: x in sys.used ==> ':' !in x)
    && (c, entry) in sys.store.subs
    && NamesTheTrackingSet(id) && (h, Composite(c, id)) in sys.store.listeners
  }

  lemma OthersKeep(s: Store, c: string, id: string, h: string, c': string, id': string)
    requires ':' !in c && ':' !in c' && c != c'
    ensures (h, Composite(c, id)) != (h, Composite(c', id'))
  {
    if Composite(c, id) == Composite(c', id') {
      CompositeInjective(c, id, c', id');
    }
  }

  lemma CollectKeeps(s: Store, c: string, id: string, h: string, c': string)
    requires ':' !in c && ':' !in c' && c != c' && (h, Composite(c, id)) in s.listeners
    ensures (h, Composite(c, id)) in Collected(s, c').listeners && Collected(s, c').subs == s.subs
  {
    forall pair: (string, string) ensures (h, Composite(c, id)) != (pair.0, Composite(c', pair.1)) {
      OthersKeep(s, c, id, h, c', pair.1);
    }
  }

  lemma ScanKeepsLeftover(s: Store, c: string, entry: string, h: string, id: string)
    requires (c, entry) in s.subs && NamesTheTrackingSet(id) && (h, Composite(c, id)) in s.listeners
    ensures (h, Composite(c, id)) in Scanned(s, s.active).listeners && Scanned(s, s.active).subs == s.subs
  {
    OwnerOfNested(c, id);
    assert KeyExists(s, Composite(c, SUBS));
  }

  lemma StepKeepsLeftover(sys: System, d: Digest, e: Event, c: string, entry: string, h: string, id: string)
    requires Leftover(sys, c, entry, h, id)
    ensures Leftover(Apply(sys, d, e), c, entry, h, id)
  {
    match e
    case Receive(c', r) =>
      if c' in sys.connected {
        CollectKeeps(sys.store, c, id, h, c');
        OthersKeep(sys.store, c, id, h, c', r.id);
      }
    case Close(c') => if c' in sys.connected { CollectKeeps(sys.store, c, id, h, c'); }
    case Scan => ScanKeepsLeftover(sys.store, c, entry, h, id);
    case _ =>
  }

  /**
   * After a crash a listener whose id is cut to the name of its client's tracking set stays for good: that set has
   * no TTL, and the cleaner takes it for the session.
   */
  lemma {:induction false} LeftoverIsForever(sys: System, d: Digest, events: seq<Event>, c: string, entry: string,
                                             h: string, id: string)
    requires Leftover(sys, c, entry, h, id)
    ensures Leftover(RunOn(sys, d, events), c, entry, h, id)
  {
    if events == [] {
    } else {
      var front := events[..|events| - 1];
      LeftoverIsForever(sys, d, front, c, entry, h, id);
      StepKeepsLeftover(RunOn(sys, d, front), d, events[|events| - 1], c, entry, h, id);
    }
  }

  /** One subscribe with such an id, then a crash: that is all it takes. */
  lemma SubscribeThenCrash(sys: System, d: Digest, c: string, r: Request, x: string)
    requires c in sys.connected && sys.connected.Keys <= sys.used && (forall u :: u in sys.used ==> ':' !in u)
    requires r.channelId == sys.connected[c] && r.action.Subscribe? && r.id == Composite(SUBS, x) && ':' !in x
    ensures var hash := d(KeyOf(r));
            Leftover(Apply(Apply(sys, d, Receive(c, r)), d, Crash), c, Composite(hash, r.id), hash, r.id)
  {
    RSplitUndoesComposite(SUBS, x);
  }

  class Server {
    const redis: Redis
    const manager: SubscriptionManager
    const collector: GarbageCollector
    var connections: map<string, string>
    ghost var used: set<string>

    ghost function View(): System
      reads this, redis
    {
      System(redis.View(), connections, used)
    }

    constructor (redis: Redis, digest: Digest)
      ensures this.redis == redis && manager.redis == redis && manager.digest == digest && collector.redis == redis
      ensures connections == map[] && used == {}
    {
      this.redis := redis;
      manager := new SubscriptionManager(redis, digest);
      collector := new GarbageCollector(redis);
      connections, used := map[], {};
    }

    /** Phases 2 and 3 of the handler: the session first, then the connection registry. */
    method OpenConnection(client: string, channel: string) returns (session: Session)
      modifies this, redis
      ensures View() == Opened(old(View()), client, channel)
      ensures session.redis == redis && session.clientId == client && session.channelId == channel
    {
      session := new Session(redis, client, channel);
      session.Create();
      connections := connections[client := channel];
      used := used + {client};
    }

    /** Phase 6: out of the registry, then garbage collection, then the session. */
    method CloseConnection(session: Session)
      requires session.redis == redis && collector.redis == redis
      modifies this, redis
      ensures View() == Closed(old(View()), session.clientId)
    {
      connections := connections - {session.clientId};
      collector.Cleanup(session.clientId);
      session.Destroy();
    }

    /**
     * Phase 5 for one frame. Anything that is not a valid control message is ignored; another channel
     * than the connection's closes the connection, which ends the loop and runs the clean-up.
     */
    method ProcessMessage(session: Session, message: Option<Request>)
      requires session.redis == redis && manager.redis == redis && collector.redis == redis
      requires session.clientId in connections && connections[session.clientId] == session.channelId
      modifies this, redis
      ensures View() == match message
                        case None => old(View())
                        case Some(r) => Received(old(View()), manager.digest, session.clientId, r)
    {
      match message {
        case None =>
        case Some(r) =>
          if r.channelId != session.channelId {
            CloseConnection(session);
          } else if r.action.Subscribe? {
            var _ := manager.Subscribe(session, r);
          } else {
            var _ := manager.Unsubscribe(session, r);
          }
      }
    }
  }
}
