/** The reporting worker's poller and the WebSocket service's Pub/Sub consumer. */
module Reporting {
  import opened Wrappers
  import opened SetSums
  import opened CompositeKeys
  import opened SubscriptionContract
  import opened SubscriptionStore
  import opened WebSocketServer
  import opened SharedPolling

  type Publication = (string, Payload)

  ghost function PublicationOf(s: Store, handlers: Handlers): string -> multiset<Publication> {
    h => match Published(s, handlers, h) case None => multiset{} case Some(p) => multiset{(h, p)}
  }

  // ---- What a registration changes ----

  function HashesOf(s: Store, target: string): set<string> {
    set h | h in s.active && h in s.registry && s.registry[h].target == target
  }

  ghost function MessagesFn(sys: System, handlers: Handlers): string -> multiset<Message> {
    h => HashMessages(sys, handlers, h)
  }

  /**
   * Registering a handler replaces exactly the messages of its target's hashes: they send what a poller with this handler
   * alone would send, whatever was registered for the target before, and all other hashes send what they sent.
   */
  lemma RegistrationIsLocal(sys: System, handlers: Handlers, target: string, handler: Handler)
    ensures var others := Gather(sys.store.active - HashesOf(sys.store, target), MessagesFn(sys, handlers));
            && SharedTick(sys, handlers) == Gather(HashesOf(sys.store, target), MessagesFn(sys, handlers)) + others
            && SharedTick(sys, handlers[target := handler]) == SharedTick(sys, map[target := handler]) + others
  {
    var mine, one, both := HashesOf(sys.store, target), map[target := handler], handlers[target := handler];
    var rest := sys.store.active - mine;
    TickInTwo(sys, handlers, mine);
    TickInTwo(sys, one, mine);
    TickInTwo(sys, both, mine);
    forall h | h in mine ensures MessagesFn(sys, both)(h) == MessagesFn(sys, one)(h) {
      OneHash(sys, handlers, target, handler, h);
    }
    GatherSame(mine, MessagesFn(sys, both), MessagesFn(sys, one));
    OthersStay(sys, handlers, target, handler, rest);
  }

  lemma OneHash(sys: System, handlers: Handlers, target: string, handler: Handler, h: string)
    requires h in sys.store.active
    ensures var one, both := map[target := handler], handlers[target := handler];
            if h in HashesOf(sys.store, target) then HashMessages(sys, both, h) == HashMessages(sys, one, h)
            else HashMessages(sys, both, h) == HashMessages(sys, handlers, h) && HashMessages(sys, one, h) == multiset{}
  {}

  lemma OthersStay(sys: System, handlers: Handlers, target: string, handler: Handler, rest: set<string>)
    requires rest <= sys.store.active && rest !! HashesOf(sys.store, target)
    ensures Gather(rest, MessagesFn(sys, handlers[target := handler])) == Gather(rest, MessagesFn(sys, handlers))
    ensures Gather(rest, MessagesFn(sys, map[target := handler])) == multiset{}
  {
    forall h | h in rest
      ensures MessagesFn(sys, handlers[target := handler])(h) == MessagesFn(sys, handlers)(h)
           && MessagesFn(sys, map[target := handler])(h) == multiset{}
    {
      OneHash(sys, handlers, target, handler, h);
    }
    GatherSame(rest, MessagesFn(sys, handlers[target := handler]), MessagesFn(sys, handlers));
    GatherEmpty(rest, MessagesFn(sys, map[target := handler]));
  }

  lemma TickInTwo(sys: System, handlers: Handlers, mine: set<string>)
    requires mine <= sys.store.active
    ensures SharedTick(sys, handlers) == Gather(mine, MessagesFn(sys, handlers))
                                         + Gather(sys.store.active - mine, MessagesFn(sys, handlers))
  {
    assert mine + (sys.store.active - mine) == sys.store.active;
    GatherUnion(mine, sys.store.active - mine, MessagesFn(sys, handlers));
    GatherSame(sys.store.active, h => HashMessages(sys, handlers, h), MessagesFn(sys, handlers));
  }

  ghost predicate PublishedFor(before: seq<Publication>, published: seq<Publication>, all: set<string>,
                               todo: set<string>, perHash: string -> multiset<Publication>)
  {
    multiset(published) == multiset(before) + Gather(all - todo, perHash)
  }

  lemma PublishedOneMore(before: seq<Publication>, soFar: seq<Publication>, published: seq<Publication>,
                         all: set<string>, todo: set<string>, hash: string, perHash: string -> multiset<Publication>)
    requires hash in todo && todo <= all && PublishedFor(before, soFar, all, todo, perHash)
    requires multiset(published) == multiset(soFar) + perHash(hash)
    ensures PublishedFor(before, published, all, todo - {hash}, perHash)
  {
    GatherStep(all, todo, hash, perHash);
  }

  class Poller {
    const redis: Redis
    var handlers: Handlers
    var published: seq<Publication>

    constructor (redis: Redis)
      ensures this.redis == redis && handlers == map[] && published == []
    {
      this.redis, handlers, published := redis, map[], [];
    }

    /** The last handler registered for a target wins. */
    method RegisterHandler(target: string, handler: Handler)
      modifies this`handlers
      ensures handlers == old(handlers)[target := handler]
    {
      handlers := handlers[target := handler];
    }

    /** One polling cycle publishes, for every active hash, at most the one result of its registry entry. */
    method Tick()
      modifies this`published
      ensures old(published) <= published
      ensures multiset(published) ==
              multiset(old(published)) + Gather(redis.active, PublicationOf(redis.View(), handlers))
    {
      var activeHashes := redis.active;
      ghost var perHash := PublicationOf(redis.View(), handlers);
      ghost var before := published;
      var todo := activeHashes;
      GatherNone(activeHashes, perHash);
      while todo != {}
        invariant todo <= activeHashes && before <= published
        invariant PublishedFor(before, published, activeHashes, todo, perHash)
        decreases todo
      {
        var hash :| hash in todo;
        ghost var soFar := published;
        ProcessSubscription(hash);
        PublishedOneMore(before, soFar, published, activeHashes, todo, hash, perHash);
        todo := todo - {hash};
      }
    }

    method ProcessSubscription(hash: string)
      modifies this`published
      ensures old(published) <= published
      ensures published == match Published(redis.View(), handlers, hash)
                           case None => old(published)
                           case Some(p) => old(published) + [(hash, p)]
      ensures multiset(published) == multiset(old(published)) + PublicationOf(redis.View(), handlers)(hash)
    {
      var listeners := redis.View().Members(hash);
      if listeners == {} { return; }
      if hash !in redis.registry { return; }
      var request := redis.registry[hash];
      if request.target !in handlers { return; }
      var result := handlers[request.target](request);
      if result.None? { return; }
      published := published + [(hash, result.value)];
    }
  }

  /** The messages of one group of listeners, in the order of its list. */
  function GroupMessages(connected: map<string, string>, client: string, ids: seq<string>, p: Payload): seq<Message> {
    if client !in connected || ids == [] then []
    else GroupMessages(connected, client, ids[..|ids| - 1], p) + [Message(client, p["id" := ids[|ids| - 1]])]
  }

  ghost function GroupFn(connected: map<string, string>, groups: map<string, seq<string>>, p: Payload)
    : string -> multiset<Message>
  {
    c => if c in groups then multiset(GroupMessages(connected, c, groups[c], p)) else multiset{}
  }

  function AddToGroup(groups: map<string, seq<string>>, client: string, id: string): map<string, seq<string>> {
    groups[client := (if client in groups then groups[client] else []) + [id]]
  }

  lemma GroupOfOneMore(connected: map<string, string>, ids: seq<string>, member: string, p: Payload)
    ensures multiset(GroupMessages(connected, Owner(member), ids + [Suffix(member)], p)) ==
            multiset(GroupMessages(connected, Owner(member), ids, p)) + Delivery(connected, member, p)
  {}

  /** Filing one more listener under its client adds exactly its delivery. */
  lemma GroupGrows(connected: map<string, string>, groups: map<string, seq<string>>, member: string, p: Payload,
                   groups': map<string, seq<string>>)
    requires groups' == AddToGroup(groups, Owner(member), Suffix(member))
    ensures Gather(groups'.Keys, GroupFn(connected, groups', p)) ==
            Gather(groups.Keys, GroupFn(connected, groups, p)) + Delivery(connected, member, p)
  {
    var client, ids := Owner(member), if Owner(member) in groups then groups[Owner(member)] else [];
    GroupOfOneMore(connected, ids, member, p);
    GatherGrow(groups.Keys, client, GroupFn(connected, groups, p), GroupFn(connected, groups', p),
               Delivery(connected, member, p));
    assert groups'.Keys == groups.Keys + {client};
  }

  /** All groups but those of `clients` have been sent. */
  ghost predicate GroupsSent(connected: map<string, string>, groups: map<string, seq<string>>, p: Payload,
                             clients: set<string>, start: seq<Message>, outbox: seq<Message>) {
    multiset(outbox) == multiset(start) + Gather(groups.Keys - clients, GroupFn(connected, groups, p))
  }

  lemma SentOneMore(connected: map<string, string>, groups: map<string, seq<string>>, p: Payload,
                    clients: set<string>, client: string, start: seq<Message>, outbox: seq<Message>)
    requires client in clients && clients <= groups.Keys && GroupsSent(connected, groups, p, clients, start, outbox)
    ensures client in connected ==>
              GroupsSent(connected, groups, p, clients - {client}, start,
                         outbox + GroupMessages(connected, client, groups[client], p))
    ensures client !in connected ==> GroupsSent(connected, groups, p, clients - {client}, start, outbox)
  {
    GatherStep(groups.Keys, clients, client, GroupFn(connected, groups, p));
  }

  class PubSubConsumer {
    const redis: Redis
    var outbox: seq<Message>     // everything handed to the sockets

    constructor (redis: Redis)
      ensures this.redis == redis && outbox == []
    {
      this.redis, outbox := redis, [];
    }

    /**
     * Fans one publication out. A member without a colon makes the unpacking of the cut fail, before
     * anything has been sent.
     */
    method HandleMessage(hash: string, payload: Payload, connections: map<string, string>) returns (ok: bool)
      modifies this`outbox
      ensures ok <==> forall m :: m in redis.View().Members(hash) ==> RSplit(m).Parts?
      ensures !ok ==> outbox == old(outbox)
      ensures ok ==> multiset(outbox) ==
                     multiset(old(outbox)) + FanOut(redis.View(), connections, hash, payload)
    {
      var members := redis.View().Members(hash);
      var groups;
      ok, groups := GroupByClient(members, connections, payload);
      if ok {
        SendGroups(groups, payload, connections);
      }
    }

    static method GroupByClient(members: set<string>, ghost connections: map<string, string>, ghost payload: Payload)
      returns (ok: bool, groups: map<string, seq<string>>)
      ensures ok <==> forall m :: m in members ==> RSplit(m).Parts?
      ensures ok ==> Gather(groups.Keys, GroupFn(connections, groups, payload)) ==
                     Gather(members, DeliveryFn(connections, payload))
    {
      ghost var perMember := DeliveryFn(connections, payload);
      groups := map[];
      var todo := members;
      GatherNone(members, perMember);
      while todo != {}
        invariant todo <= members
        invariant forall m :: m in members - todo ==> RSplit(m).Parts?
        invariant Gather(groups.Keys, GroupFn(connections, groups, payload)) == Gather(members - todo, perMember)
        decreases todo
      {
        var m :| m in todo;
        match RSplit(m)
        case NoColon =>
          return false, groups;
        case Parts(client, subId) =>
          GroupGrows(connections, groups, m, payload, AddToGroup(groups, client, subId));
          GatherStep(members, todo, m, perMember);
          groups := AddToGroup(groups, client, subId);
          todo := todo - {m};
      }
      ok := true;
    }

    method SendGroups(groups: map<string, seq<string>>, payload: Payload, connections: map<string, string>)
      modifies this`outbox
      ensures multiset(outbox) ==
              multiset(old(outbox)) + Gather(groups.Keys, GroupFn(connections, groups, payload))
    {
      var clients := groups.Keys;
      ghost var start := outbox;
      GatherNone(groups.Keys, GroupFn(connections, groups, payload));
      while clients != {}
        invariant clients <= groups.Keys
        invariant GroupsSent(connections, groups, payload, clients, start, outbox)
        decreases clients
      {
        var client :| client in clients;
        SentOneMore(connections, groups, payload, clients, client, start, outbox);
        if client in connections {
          SendGroup(client, groups[client], payload, connections);
        }
        clients := clients - {client};
      }
    }

    method SendGroup(client: string, ids: seq<string>, payload: Payload, ghost connections: map<string, string>)
      requires client in connections
      modifies this`outbox
      ensures outbox == old(outbox) + GroupMessages(connections, client, ids, payload)
    {
      for i := 0 to |ids|
        invariant outbox == old(outbox) + GroupMessages(connections, client, ids[..i], payload)
      {
        assert ids[..i + 1][..i] == ids[..i];
        outbox := outbox + [Message(client, payload["id" := ids[i]])];
      }
      assert ids[..|ids|] == ids;
    }
  }

  // ---- A whole tick: every publication of the poller is consumed ----

  type DeliverFn = Publication -> multiset<Message>

  ghost function FanOutFn(sys: System): DeliverFn {
    (pub: Publication) => FanOut(sys.store, sys.connected, pub.0, pub.1)
  }

  /** What is sent for a list of publications. */
  ghost function Consumed(deliver: DeliverFn, pubs: seq<Publication>): multiset<Message> {
    if pubs == [] then multiset{} else
    Consumed(deliver, pubs[..|pubs| - 1]) + deliver(pubs[|pubs| - 1])
  }

  lemma {:induction false} ConsumedWithout(deliver: DeliverFn, pubs: seq<Publication>, i: nat)
    requires i < |pubs|
    ensures Consumed(deliver, pubs) == Consumed(deliver, pubs[..i] + pubs[i + 1..]) + deliver(pubs[i])
  {
    var last := |pubs| - 1;
    if i == last {
      assert pubs[..i] + pubs[i + 1..] == pubs[..last];
    } else {
      var rest := pubs[..i] + pubs[i + 1..];
      assert rest[..|rest| - 1] == pubs[..last][..i] + pubs[..last][i + 1..];
      ConsumedWithout(deliver, pubs[..last], i);
    }
  }

  lemma TakeOne(deliver: DeliverFn, pubs: seq<Publication>, x: Publication, others: multiset<Publication>)
    returns (rest: seq<Publication>)
    requires multiset(pubs) == multiset{x} + others
    ensures multiset(rest) == others
    ensures Consumed(deliver, pubs) == deliver(x) + Consumed(deliver, rest)
  {
    assert x in multiset(pubs);
    var i :| 0 <= i < |pubs| && pubs[i] == x;
    rest := pubs[..i] + pubs[i + 1..];
    assert pubs == pubs[..i] + [x] + pubs[i + 1..];
    assert multiset(pubs) == multiset{x} + multiset(rest);
    Cancel(multiset{x}, multiset(rest), others);
    ConsumedWithout(deliver, pubs, i);
  }

  ghost predicate PublishedOrSilent(deliver: DeliverFn, h: string, published: multiset<Publication>,
                                    messages: multiset<Message>)
  {
    if published == multiset{} then messages == multiset{}
    else exists p :: published == multiset{(h, p)} && messages == deliver((h, p))
  }

  /** Consuming what was published for each key, in whatever order, sends each key's messages. */
  lemma {:induction false} ConsumedByKey(deliver: DeliverFn, hs: set<string>, publish: string -> multiset<Publication>,
                                         messages: string -> multiset<Message>, pubs: seq<Publication>)
    requires forall h :: h in hs ==> PublishedOrSilent(deliver, h, publish(h), messages(h))
    requires multiset(pubs) == Gather(hs, publish)
    ensures Consumed(deliver, pubs) == Gather(hs, messages)
    decreases |hs|
  {
    if hs == {} {
      assert |multiset(pubs)| == 0;
    } else {
      var h :| h in hs;
      GatherExtract(hs, h, publish);
      GatherExtract(hs, h, messages);
      assert PublishedOrSilent(deliver, h, publish(h), messages(h));
      if publish(h) == multiset{} {
        ConsumedByKey(deliver, hs - {h}, publish, messages, pubs);
      } else {
        var p :| publish(h) == multiset{(h, p)} && messages(h) == deliver((h, p));
        var rest := TakeOne(deliver, pubs, (h, p), Gather(hs - {h}, publish));
        ConsumedByKey(deliver, hs - {h}, publish, messages, rest);
      }
    }
  }

  lemma ConsumedIsShared(sys: System, handlers: Handlers, pubs: seq<Publication>)
    requires multiset(pubs) == Gather(sys.store.active, PublicationOf(sys.store, handlers))
    ensures Consumed(FanOutFn(sys), pubs) == SharedTick(sys, handlers)
  {
    var publish, messages := PublicationOf(sys.store, handlers), h => HashMessages(sys, handlers, h);
    forall h ensures PublishedOrSilent(FanOutFn(sys), h, publish(h), messages(h)) {
      if publish(h) != multiset{} {
        var p := Published(sys.store, handlers, h).value;
        assert publish(h) == multiset{(h, p)} && messages(h) == FanOutFn(sys)((h, p));
      }
    }
    ConsumedByKey(FanOutFn(sys), sys.store.active, publish, messages, pubs);
  }

  method ConsumeAll(consumer: PubSubConsumer, pubs: seq<Publication>, connections: map<string, string>)
    requires forall row :: row in consumer.redis.listeners ==> RSplit(row.1).Parts?
    modifies consumer`outbox
    ensures multiset(consumer.outbox) == multiset(old(consumer.outbox)) +
            Consumed(FanOutFn(System(consumer.redis.View(), connections, {})), pubs)
  {
    ghost var deliver := FanOutFn(System(consumer.redis.View(), connections, {}));
    for i := 0 to |pubs|
      invariant multiset(consumer.outbox) == multiset(old(consumer.outbox)) + Consumed(deliver, pubs[..i])
    {
      assert pubs[..i + 1][..i] == pubs[..i];
      MembersAreRows(consumer.redis.View(), pubs[i].0);
      var ok := consumer.HandleMessage(pubs[i].0, pubs[i].1, connections);
    }
    assert pubs[..|pubs|] == pubs;
  }

  /** One tick followed by the consumption of everything it published. */
  method TickAndConsume(poller: Poller, consumer: PubSubConsumer, connections: map<string, string>)
    requires consumer.redis == poller.redis
    requires forall row :: row in poller.redis.listeners ==> RSplit(row.1).Parts?
    modifies poller`published, consumer`outbox
    ensures multiset(consumer.outbox) == multiset(old(consumer.outbox)) +
            SharedTick(System(poller.redis.View(), connections, {}), poller.handlers)
  {
    ghost var sys := System(poller.redis.View(), connections, {});
    var first := |poller.published|;
    poller.Tick();
    var latest := poller.published[first..];
    assert poller.published == old(poller.published) + latest;
    assert multiset(poller.published) == multiset(old(poller.published)) + multiset(latest);
    Cancel(multiset(old(poller.published)), multiset(latest),
           Gather(sys.store.active, PublicationOf(sys.store, poller.handlers)));
    ConsumedIsShared(sys, poller.handlers, latest);
    ConsumeAll(consumer, latest, connections);
  }
}
