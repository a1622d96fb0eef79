/**
 * What the manager keeps for its listeners, told from the events: who listens to a subscription, what it was asked for,
 * and which update it holds. A later subscriber with an equal key is given exactly that update. And what the manager says
 * to the server, event by event.
 */
module ClientUpdates {
  import opened WebSocketConnection
  import opened ClientSubscriptions
  import opened Wrappers

  predicate IsAccepted(c: Client, e: Event) { e.Subscribes? && Unused(c, e.freshId) }

  /** A key that is known keeps its id. */
  function IdFor(c: Client, key: string, freshId: string): string {
    if key in c.keyToId then c.keyToId[key] else freshId
  }

  // ---- The three histories ----

  function HeldNext(held: Option<Update>, c: Client, e: Event, id: string): Option<Update> {
    match e
    case Receives(Some(u)) => if u.id == id && id in c.subs && c.service.Has(OPEN) then Some(u) else held
    case Opens => if c.service.Has(CONNECTING) then None else held
    case _ => held
  }

  /** The last update received for the id, on an open socket, since it was subscribed and since a socket last opened. */
  function LastReceived(events: seq<Event>, id: string): Option<Update> {
    if events == [] then None
    else HeldNext(LastReceived(events[..|events| - 1], id), Run(events[..|events| - 1]), events[|events| - 1], id)
  }

  function ListeningNext(callbacks: set<nat>, c: Client, e: Event, id: string): set<nat> {
    match e
    case Subscribes(key, _, callback, freshId) =>
      if IsAccepted(c, e) && IdFor(c, key, freshId) == id then callbacks + {callback} else callbacks
    case Unsubscribes(i) =>
      if i < |c.closures| && c.closures[i].id == id then callbacks - {c.closures[i].callback} else callbacks
    case _ => callbacks
  }

  /** The callbacks subscribed under the id and not unsubscribed since. */
  function Listening(events: seq<Event>, id: string): set<nat> {
    if events == [] then {}
    else ListeningNext(Listening(events[..|events| - 1], id), Run(events[..|events| - 1]), events[|events| - 1], id)
  }

  function AskedNext(asked: Option<Body>, c: Client, e: Event, id: string): Option<Body> {
    if asked.None? && IsAccepted(c, e) && IdFor(c, e.key, e.freshId) == id then Some(e.body) else asked
  }

  /** What the first subscribe under the id asked for. */
  function Asked(events: seq<Event>, id: string): Option<Body> {
    if events == [] then None
    else AskedNext(Asked(events[..|events| - 1], id), Run(events[..|events| - 1]), events[|events| - 1], id)
  }

  // ---- One step ----

  /** The records of the id are what the histories say. */
  predicate Told(c: Client, id: string, held: Option<Update>, callbacks: set<nat>, asked: Option<Body>) {
    && (id in c.subs ==> c.subs[id] == Subscription(c.subs[id].body, callbacks, held) && asked == Some(c.subs[id].body))
    && (id !in c.subs ==> callbacks == {})
    && (Unused(c, id) ==> held.None? && asked.None?)
  }

  lemma SubscribeIsTold(c: Client, e: Event, id: string, held: Option<Update>, callbacks: set<nat>, asked: Option<Body>)
    requires RecordsMatch(c) && IsAccepted(c, e) && Told(c, id, held, callbacks, asked)
    ensures Told(Step(c, e), id, held, ListeningNext(callbacks, c, e, id), AskedNext(asked, c, e, id))
  {
    var after := Subscribe(c, e.key, e.body, e.callback, e.freshId);
    var u := Unsubscriber(IdFor(c, e.key, e.freshId), e.key, e.callback);
    assert after.closures == c.closures + [u] && u in after.closures;
    if Unused(after, id) {
      assert forall v :: v in c.closures ==> v in after.closures;
    }
  }

  lemma UnsubscribeIsTold(c: Client, u: Unsubscriber, id: string, held: Option<Update>, callbacks: set<nat>,
                          asked: Option<Body>)
    requires u in c.closures && Told(c, id, held, callbacks, asked)
    ensures Told(Unsubscribe(c, u), id, held, if u.id == id then callbacks - {u.callback} else callbacks, asked)
  {}

  lemma OpenIsTold(c: Client, id: string, held: Option<Update>, callbacks: set<nat>, asked: Option<Body>)
    requires c.service.Has(CONNECTING) && Told(c, id, held, callbacks, asked)
    ensures Told(Step(c, Opens), id, None, callbacks, asked)
  {
    var up := SocketOpens(c.service);
    assert up.status == Connected && up.activity == Some(Active);
    var after := OnStateUpdate(c.(service := up));
    assert after.subs == Forgotten(c.subs) && after.closures == c.closures;
  }

  lemma ReceiveIsTold(c: Client, e: Event, id: string, held: Option<Update>, callbacks: set<nat>, asked: Option<Body>)
    requires e.Receives? && Told(c, id, held, callbacks, asked)
    ensures Told(Step(c, e), id, HeldNext(held, c, e, id), callbacks, asked)
  {}

  lemma StepIsTold(c: Client, e: Event, id: string, held: Option<Update>, callbacks: set<nat>, asked: Option<Body>)
    requires RecordsMatch(c) && Told(c, id, held, callbacks, asked)
    ensures Told(Step(c, e), id, HeldNext(held, c, e, id), ListeningNext(callbacks, c, e, id), AskedNext(asked, c, e, id))
  {
    match e
    case Opens => if c.service.Has(CONNECTING) { OpenIsTold(c, id, held, callbacks, asked); }
    case Receives(_) => ReceiveIsTold(c, e, id, held, callbacks, asked);
    case Subscribes(_, _, _, _) => if IsAccepted(c, e) { SubscribeIsTold(c, e, id, held, callbacks, asked); }
    case Unsubscribes(i) => if i < |c.closures| { UnsubscribeIsTold(c, c.closures[i], id, held, callbacks, asked); }
    case _ => assert Step(c, e).subs == c.subs && Step(c, e).closures == c.closures;
  }

  lemma {:induction false} RunIsTold(events: seq<Event>, id: string)
    ensures Told(Run(events), id, LastReceived(events, id), Listening(events, id), Asked(events, id))
  {
    if events == [] {
    } else {
      var front := events[..|events| - 1];
      RunIsTold(front, id);
      RunKeeps(front);
      StepIsTold(Run(front), events[|events| - 1], id, LastReceived(front, id), Listening(front, id), Asked(front, id));
    }
  }

  // ---- The theorems ----

  /** In every run a subscription lives while somebody listens, for what was first asked, with the last update received. */
  lemma SubscriptionIsTold(events: seq<Event>, id: string)
    ensures var c := Run(events);
            && (id in c.subs <==> Listening(events, id) != {})
            && (id in c.subs ==> c.subs[id].callbacks == Listening(events, id)
                                 && Some(c.subs[id].body) == Asked(events, id)
                                 && c.subs[id].lastUpdate == LastReceived(events, id))
  {
    RunIsTold(events, id);
    RunKeeps(events);
  }

  /** A subscriber with the key of a live subscription is handed its last update at once; any other is handed nothing. */
  lemma LaterSubscriberIsGiven(events: seq<Event>, key: string, freshId: string)
    requires Unused(Run(events), freshId)
    ensures CachedFor(Run(events), key, freshId)
            == if key in Run(events).keyToId then LastReceived(events, Run(events).keyToId[key]) else None
  {
    RunKeeps(events);
    RunIsTold(events, IdFor(Run(events), key, freshId));
  }

  /** A key is known exactly while a subscription made under it lives. */
  lemma KeyIsKnownWhileListened(events: seq<Event>, key: string)
    ensures key in Run(events).keyToId
            <==> exists u :: u in Run(events).closures && u.key == key && Listening(events, u.id) != {}
  {
    RunKeeps(events);
    KeysAreClosed(events);
    var c := Run(events);
    if key in c.keyToId {
      var u :| u in c.closures && u.key == key && u.id == c.keyToId[key];
      SubscriptionIsTold(events, u.id);
    }
    if u :| u in c.closures && u.key == key && Listening(events, u.id) != {} {
      SubscriptionIsTold(events, u.id);
    }
  }

  ghost predicate AreClosed(c: Client) {
    forall k :: k in c.keyToId ==> exists u :: u in c.closures && u.key == k && u.id == c.keyToId[k]
  }

  lemma {:induction false} KeysAreClosed(events: seq<Event>)
    ensures AreClosed(Run(events))
  {
    if events == [] {
    } else {
      KeysAreClosed(events[..|events| - 1]);
      StepCloses(Run(events[..|events| - 1]), events[|events| - 1]);
    }
  }

  lemma StepCloses(c: Client, e: Event)
    requires AreClosed(c)
    ensures AreClosed(Step(c, e))
  {
    var after := Step(c, e);
    if IsAccepted(c, e) {
      var u := Unsubscriber(IdFor(c, e.key, e.freshId), e.key, e.callback);
      assert after.closures == c.closures + [u] && u in after.closures;
    }
    forall k | k in after.keyToId
      ensures exists u :: u in after.closures && u.key == k && u.id == after.keyToId[k]
    {
      if k in c.keyToId && after.keyToId[k] == c.keyToId[k] {
        var u :| u in c.closures && u.key == k && u.id == c.keyToId[k];
        assert u in after.closures;
      }
    }
  }

  /** The closure a subscribe returns undoes it: records as before, and for a new key the server is told so. */
  lemma UnsubscribeUndoes(c: Client, key: string, body: Body, callback: nat, freshId: string)
    requires RecordsMatch(c) && Wanted(c) && Unused(c, freshId)
    requires key in c.keyToId ==> callback !in c.subs[c.keyToId[key]].callbacks
    ensures var there := Subscribe(c, key, body, callback, freshId);
            && |there.closures| == |c.closures| + 1 && there.closures[..|c.closures|] == c.closures
            && var back := Unsubscribe(there, there.closures[|c.closures|]);
               && back.subs == c.subs && back.ids == c.ids && back.keyToId == c.keyToId
               && (key in c.keyToId ==> back.service == c.service)
               && (c.service.Has(OPEN) && c.service.status == Connected && c.service.params.Some? && key !in c.keyToId ==>
                     var channel, i := c.service.params.value, c.service.connection.value;
                     back.service.sockets[i].sent
                     == c.service.sockets[i].sent
                        + [SubscribeMessage(freshId, channel, body), UnsubscribeMessage(freshId, channel, body)])
  {
    if key in c.keyToId {
      UndoneIfShared(c, key, body, callback, freshId);
    } else {
      UndoneIfNew(c, key, body, callback, freshId);
    }
  }

  lemma UndoneIfShared(c: Client, key: string, body: Body, callback: nat, freshId: string)
    requires RecordsMatch(c) && Wanted(c) && key in c.keyToId && callback !in c.subs[c.keyToId[key]].callbacks
    ensures var there := Subscribe(c, key, body, callback, freshId);
            && there.closures == c.closures + [Unsubscriber(c.keyToId[key], key, callback)]
            && var back := Unsubscribe(there, there.closures[|c.closures|]);
               back == c.(closures := there.closures)
  {
    var id := c.keyToId[key];
    var before := c.subs[id].callbacks;
    assert before + {callback} - {callback} == before;
    assert c.keyToId[key := id] == c.keyToId;
    var there := Subscribe(c, key, body, callback, freshId);
    assert there.subs[id].callbacks == before + {callback};
    assert Unsubscribe(there, Unsubscriber(id, key, callback)).subs == c.subs;
  }

  lemma UndoneIfNew(c: Client, key: string, body: Body, callback: nat, freshId: string)
    requires RecordsMatch(c) && Unused(c, freshId) && key !in c.keyToId
    ensures var there := Subscribe(c, key, body, callback, freshId);
            && there.closures == c.closures + [Unsubscriber(freshId, key, callback)]
            && var back := Unsubscribe(there, there.closures[|c.closures|]);
               && back.subs == c.subs && back.ids == c.ids && back.keyToId == c.keyToId
               && back.service == Request(Request(c.service, true, freshId, body), false, freshId, body)
  {
    var there := Subscribe(c, key, body, callback, freshId);
    var back := Unsubscribe(there, Unsubscriber(freshId, key, callback));
    assert there.subs[freshId] == Subscription(body, {callback}, None);
    assert {callback} - {callback} == {};
    assert back.subs == c.subs && back.keyToId == c.keyToId;
    assert (c.ids + [freshId])[..|c.ids|] == c.ids;
    WithoutNobody(c.ids, freshId);
  }

  lemma {:induction false} WithoutNobody(ids: seq<string>, id: string)
    requires id !in ids
    ensures Without(ids, id) == ids
  {
    if ids == [] {
    } else {
      WithoutNobody(ids[..|ids| - 1], id);
      assert ids == ids[..|ids| - 1] + [ids[|ids| - 1]];
    }
  }

  // ---- What is said to the server ----

  /** On an open socket each event says at most one thing. */
  function Said(c: Client, e: Event): seq<Message>
    requires c.service.params.Some?
  {
    var channel := c.service.params.value;
    match e
    case Receives(None) => [Pong]
    case Subscribes(key, body, _, freshId) =>
      if Unused(c, freshId) && key !in c.keyToId then [SubscribeMessage(freshId, channel, body)] else []
    case Unsubscribes(i) =>
      if i < |c.closures| && c.closures[i].id in c.subs && c.subs[c.closures[i].id].callbacks <= {c.closures[i].callback}
      then [UnsubscribeMessage(c.closures[i].id, channel, c.subs[c.closures[i].id].body)]
      else []
    case _ => []
  }

  /** One subscribe per live subscription, in the order they were made. */
  function Asks(channel: string, ids: seq<string>, subs: map<string, Subscription>): (asks: seq<Message>)
    requires forall id :: id in ids ==> id in subs
    ensures |asks| == |ids|
    ensures forall i :: 0 <= i < |ids| ==> asks[i] == SubscribeMessage(ids[i], channel, subs[ids[i]].body)
  {
    seq(|ids|, i requires 0 <= i < |ids| => SubscribeMessage(ids[i], channel, subs[ids[i]].body))
  }

  predicate IsReady(s: Service<Message>) { s.Has(OPEN) && s.status == Connected && s.params.Some? }

  lemma RequestSays(s: Service<Message>, subscribe: bool, id: string, body: Body)
    requires IsReady(s)
    ensures var t := Request(s, subscribe, id, body);
            && IsReady(t) && t.params == s.params
            && Sent(t) == Sent(s) + [MessageFor(subscribe, id, s.params.value, body)]
  {}

  lemma {:induction false} AllAreSaid(s: Service<Message>, ids: seq<string>, subs: map<string, Subscription>)
    requires IsReady(s) && Sent(s) == [] && forall id :: id in ids ==> id in subs
    ensures var t := RequestAll(s, ids, subs);
            IsReady(t) && t.params == s.params && Sent(t) == Asks(s.params.value, ids, subs)
  {
    if ids == [] {
    } else {
      var front, last := ids[..|ids| - 1], ids[|ids| - 1];
      AllAreSaid(s, front, subs);
      RequestSays(RequestAll(s, front, subs), true, last, subs[last].body);
      assert Asks(s.params.value, ids, subs)
             == Asks(s.params.value, front, subs) + [SubscribeMessage(last, s.params.value, subs[last].body)];
    }
  }

  lemma StepSays(c: Client, latest: Option<string>, e: Event)
    requires Inv(c, latest) && c.service.Has(OPEN)
    ensures c.service.params.Some?
    ensures Step(c, e).service.Has(OPEN) ==> Sent(Step(c, e).service) == Sent(c.service) + Said(c, e)
  {
    match e
    case Subscribes(key, body, _, freshId) => RequestSays(c.service, true, freshId, body);
    case Unsubscribes(i) =>
      if i < |c.closures| && c.closures[i].id in c.subs {
        var u := c.closures[i];
        RequestSays(c.service, false, u.id, c.subs[u.id].body);
        assert c.subs[u.id].callbacks - {u.callback} == {} <==> c.subs[u.id].callbacks <= {u.callback};
      }
    case _ =>
  }

  /** In every run, while the socket stays open, an event adds exactly what it says to the messages of the socket. */
  lemma SaysExactly(events: seq<Event>, e: Event)
    requires Run(events).service.Has(OPEN) && Step(Run(events), e).service.Has(OPEN)
    ensures Run(events).service.params.Some?
    ensures Sent(Step(Run(events), e).service) == Sent(Run(events).service) + Said(Run(events), e)
  {
    RunKeeps(events);
    StepSays(Run(events), Latest(events), e);
  }

  /** An opening says one subscribe per live subscription, in the order they were made, and nothing else. */
  lemma OpeningAsks(events: seq<Event>)
    requires Run(events).service.Has(CONNECTING)
    ensures var c := Run(events);
            && c.service.params.Some? && (forall id :: id in c.ids ==> id in c.subs)
            && Sent(Step(c, Opens).service) == Asks(c.service.params.value, c.ids, c.subs)
  {
    RunKeeps(events);
    var c := Run(events);
    var up := SocketOpens(c.service);
    assert IsReady(up) && Sent(up) == [] && up.params == c.service.params;
    AllAreSaid(up, c.ids, c.subs);
    assert Step(c, Opens).service == RequestAll(up, c.ids, c.subs);
  }
}
