/**
 * The browser's subscription manager on top of the connection service, and what the server therefore sees:
 * in every run, the control messages on the open socket add up to the manager's live subscriptions.
 */
module ClientSubscriptions {
  import opened WebSocketConnection
  import opened Wrappers

  datatype Body = Body(target: string, params: string)

  datatype Message = SubscribeMessage(id: string, channel: string, body: Body)
                   | UnsubscribeMessage(id: string, channel: string, body: Body)
                   | Pong

  datatype Update = Update(id: string, payload: string)

  /** `inactivityCallbacks` stays empty in the source and is left out. */
  datatype Subscription = Subscription(body: Body, callbacks: set<nat>, lastUpdate: Option<Update>)

  /** What `subscribe` returns: a closure over these. */
  datatype Unsubscriber = Unsubscriber(id: string, key: string, callback: nat)

  datatype Client = Client(
    service: Service<Message>,
    ids: seq<string>, subs: map<string, Subscription>, keyToId: map<string, string>,   // the two records
    closures: seq<Unsubscriber>)

  function Initial(): Client { Client(Initially(), [], map[], map[], []) }

  function Request(service: Service<Message>, subscribe: bool, id: string, body: Body): Service<Message> {
    if service.status != Connected || service.params.None? then service
    else Send(service, if subscribe then SubscribeMessage(id, service.params.value, body)
                       else UnsubscribeMessage(id, service.params.value, body))
  }

  /** Resubscribes everything, in the record's insertion order. */
  function RequestAll(service: Service<Message>, ids: seq<string>, subs: map<string, Subscription>): Service<Message> {
    if ids == [] then service else
    var sofar, last := RequestAll(service, ids[..|ids| - 1], subs), ids[|ids| - 1];
    if last in subs then Request(sofar, true, last, subs[last].body) else sofar
  }

  function Forgotten(subs: map<string, Subscription>): map<string, Subscription> {
    map id | id in subs :: subs[id].(lastUpdate := None)
  }

  predicate IdsMatch(c: Client) {
    && (forall id :: id in c.ids ==> id in c.subs) && (forall id :: id in c.subs ==> id in c.ids)
    && (forall i, j :: 0 <= i < j < |c.ids| ==> c.ids[i] != c.ids[j])
  }

  /** The listener the manager adds to the service's state updates; only `onOpen` makes it act. */
  function OnStateUpdate(c: Client): Client {
    if c.service.status == Connected && c.service.activity == Some(Active)
    then c.(subs := Forgotten(c.subs), service := RequestAll(c.service, c.ids, c.subs))
    else c
  }

  function OnUpdate(c: Client, u: Update): Client {
    if u.id !in c.subs then c else c.(subs := c.subs[u.id := c.subs[u.id].(lastUpdate := Some(u))])
  }

  /** A ping is answered, anything else routed by its id; either restarts the inactivity timer. */
  function OnMessage(c: Client, update: Option<Update>): Client {
    if !c.service.Has(OPEN) then c else
    var heard := c.(service := c.service.(idleTimer := true));
    if update.None? then heard.(service := Send(heard.service, Pong)) else OnUpdate(heard, update.value)
  }

  /** A new subscription is requested at once, if there is a connection. */
  function Added(c: Client, id: string, body: Body): Client {
    if id in c.subs then c
    else c.(ids := c.ids + [id], subs := c.subs[id := Subscription(body, {}, None)],
            service := Request(c.service, true, id, body))
  }

  function Listened(c: Client, id: string, key: string, callback: nat): Client
    requires id in c.subs
  {
    c.(subs := c.subs[id := c.subs[id].(callbacks := c.subs[id].callbacks + {callback})],
       closures := c.closures + [Unsubscriber(id, key, callback)])
  }

  /** `freshId` is what randomUUID would return. */
  function Subscribe(c: Client, key: string, body: Body, callback: nat, freshId: string): Client {
    var id := if key in c.keyToId then c.keyToId[key] else freshId;
    Listened(Added(c.(keyToId := c.keyToId[key := id]), id, body), id, key, callback)
  }

  function CachedFor(c: Client, key: string, freshId: string): Option<Update> {
    var id := if key in c.keyToId then c.keyToId[key] else freshId;
    if id in c.subs then c.subs[id].lastUpdate else None
  }

  function Without(ids: seq<string>, id: string): seq<string> {
    if ids == [] then [] else
    Without(ids[..|ids| - 1], id) + if ids[|ids| - 1] == id then [] else [ids[|ids| - 1]]
  }

  function Unsubscribe(c: Client, u: Unsubscriber): Client {
    if u.id !in c.subs then c else
    var left := c.subs[u.id].callbacks - {u.callback};
    if left != {} then c.(subs := c.subs[u.id := c.subs[u.id].(callbacks := left)])
    else c.(service := Request(c.service, false, u.id, c.subs[u.id].body),
            subs := c.subs - {u.id}, ids := Without(c.ids, u.id), keyToId := c.keyToId - {u.key})
  }

  // ---- Runs ----

  datatype Event = UserConnects(channel: string) | UserDisconnects
                 | Opens | RemoteStartsClosing | Closes(wasClean: bool, code: int) | Fires(timer: nat) | GoesIdle
                 | Renews
                 | Receives(update: Option<Update>)
                 | Subscribes(key: string, body: Body, callback: nat, freshId: string)
                 | Unsubscribes(closure: nat)

  /** randomUUID never returns an id twice. */
  predicate Unused(c: Client, id: string) {
    id !in c.subs && forall u :: u in c.closures ==> u.id != id
  }

  /** A renewal is taken at moments only when there is neither a socket nor a timer; RenewalOpensAnother is about the others. */
  function Step(c: Client, e: Event): Client {
    match e
    case UserConnects(channel) => c.(service := Connect(c.service, channel))
    case UserDisconnects => c.(service := Disconnect(c.service))
    case Opens => if c.service.Has(CONNECTING) then OnStateUpdate(c.(service := SocketOpens(c.service))) else c
    case RemoteStartsClosing => c.(service := RemoteCloses(c.service))
    case Closes(wasClean, code) => c.(service := SocketCloses(c.service, wasClean, code))
    case Fires(timer) => c.(service := TimerFires(c.service, timer))
    case GoesIdle => c.(service := IdleFires(c.service))
    case Renews => if IsFree(c.service) then c.(service := Renewed(c.service)) else c
    case Receives(update) => OnMessage(c, update)
    case Subscribes(key, body, callback, freshId) =>
      if Unused(c, freshId) then Subscribe(c, key, body, callback, freshId) else c
    case Unsubscribes(i) => if i < |c.closures| then Unsubscribe(c, c.closures[i]) else c
  }

  function Run(events: seq<Event>): Client {
    if events == [] then Initial() else Step(Run(events[..|events| - 1]), events[|events| - 1])
  }

  function Latest(events: seq<Event>): Option<string> {
    if events == [] then None
    else if events[|events| - 1].UserConnects? then Some(events[|events| - 1].channel)
    else Latest(events[..|events| - 1])
  }

  // ---- What the server holds after the messages of one socket ----

  type Held = map<string, (string, Body)>

  function Hear(held: Held, m: Message): Held {
    match m
    case SubscribeMessage(id, channel, body) => held[id := (channel, body)]
    case UnsubscribeMessage(id, _, _) => held - {id}
    case Pong => held
  }

  function Fold(sent: seq<Message>): Held {
    if sent == [] then map[] else Hear(Fold(sent[..|sent| - 1]), sent[|sent| - 1])
  }

  function Live(c: Client, channel: string): Held {
    map id | id in c.subs :: (channel, c.subs[id].body)
  }

  /** The messages sent on the current socket. */
  function Sent(s: Service<Message>): seq<Message> {
    if s.connection.Some? && s.connection.value < |s.sockets| then s.sockets[s.connection.value].sent else []
  }

  predicate Mirrored(c: Client) {
    && (c.service.Has(CONNECTING) ==> Sent(c.service) == [])
    && (c.service.Has(OPEN) ==> Fold(Sent(c.service)) == Live(c, c.service.sockets[c.service.connection.value].channel))
  }

  // ---- The records' own invariant ----

  predicate RecordsMatch(c: Client) {
    && IdsMatch(c)
    && (forall k :: k in c.keyToId ==> c.keyToId[k] in c.subs)
    && (forall u :: u in c.closures && u.id in c.subs ==> u.key in c.keyToId && c.keyToId[u.key] == u.id)
    && (forall k, l :: k in c.keyToId && l in c.keyToId && c.keyToId[k] == c.keyToId[l] ==> k == l)
  }

  /** Every live subscription has a listener, and holds no update but its own. */
  predicate Wanted(c: Client) {
    forall id :: id in c.subs ==>
      c.subs[id].callbacks != {} && (c.subs[id].lastUpdate.Some? ==> c.subs[id].lastUpdate.value.id == id)
  }

  lemma {:induction false} WithoutMembers(ids: seq<string>, id: string)
    ensures forall x :: x in Without(ids, id) <==> x in ids && x != id
  {
    if ids == [] {
    } else {
      WithoutMembers(ids[..|ids| - 1], id);
      assert ids == ids[..|ids| - 1] + [ids[|ids| - 1]];
    }
  }

  lemma {:induction false} WithoutStaysDistinct(ids: seq<string>, id: string)
    requires forall i, j :: 0 <= i < j < |ids| ==> ids[i] != ids[j]
    ensures forall i, j :: 0 <= i < j < |Without(ids, id)| ==> Without(ids, id)[i] != Without(ids, id)[j]
  {
    if ids == [] {
    } else {
      var front, last := ids[..|ids| - 1], ids[|ids| - 1];
      WithoutStaysDistinct(front, id);
      WithoutMembers(front, id);
      assert last !in front;
      DistinctSnoc(Without(front, id), last);
    }
  }

  lemma DistinctSnoc(ids: seq<string>, last: string)
    requires forall i, j :: 0 <= i < j < |ids| ==> ids[i] != ids[j]
    ensures last !in ids ==> forall i, j :: 0 <= i < j < |ids + [last]| ==> (ids + [last])[i] != (ids + [last])[j]
    ensures ids + [] == ids
  {}

  lemma ListenedKeeps(c: Client, id: string, key: string, callback: nat)
    requires RecordsMatch(c) && key in c.keyToId && c.keyToId[key] == id
    ensures RecordsMatch(Listened(c, id, key, callback))
  {}

  lemma AddedKeeps(c: Client, id: string, key: string, body: Body)
    requires RecordsMatch(c) && key !in c.keyToId && Unused(c, id)
    ensures RecordsMatch(Added(c.(keyToId := c.keyToId[key := id]), id, body))
  {}

  lemma SubscribeKeepsRecords(c: Client, key: string, body: Body, callback: nat, freshId: string)
    requires RecordsMatch(c) && Unused(c, freshId)
    ensures RecordsMatch(Subscribe(c, key, body, callback, freshId))
  {
    if key in c.keyToId {
      assert c.keyToId[key := c.keyToId[key]] == c.keyToId;
      ListenedKeeps(c, c.keyToId[key], key, callback);
    } else {
      AddedKeeps(c, freshId, key, body);
      ListenedKeeps(Added(c.(keyToId := c.keyToId[key := freshId]), freshId, body), freshId, key, callback);
    }
  }

  lemma SubscribeKeepsWanted(c: Client, key: string, body: Body, callback: nat, freshId: string)
    requires Wanted(c)
    ensures Wanted(Subscribe(c, key, body, callback, freshId))
  {}

  lemma UnsubscribeKeepsRecords(c: Client, u: Unsubscriber)
    requires RecordsMatch(c) && Wanted(c) && u in c.closures
    ensures RecordsMatch(Unsubscribe(c, u)) && Wanted(Unsubscribe(c, u))
  {
    WithoutMembers(c.ids, u.id);
    WithoutStaysDistinct(c.ids, u.id);
  }

  // ---- The mirror ----

  lemma FoldSnoc(sent: seq<Message>, m: Message)
    ensures Fold(sent + [m]) == Hear(Fold(sent), m)
  {}

  function MessageFor(subscribe: bool, id: string, channel: string, body: Body): Message {
    if subscribe then SubscribeMessage(id, channel, body) else UnsubscribeMessage(id, channel, body)
  }

  /** On an open socket a request is sent, with the socket's own channel; on any other nothing is. */
  lemma RequestIsSent(s: Service<Message>, latest: Option<string>, subscribe: bool, id: string, body: Body)
    requires Sound(s, latest)
    ensures var t := Request(s, subscribe, id, body);
            && Sound(t, latest) && t.connection == s.connection && t.status == s.status && t.params == s.params
            && (forall r :: t.Has(r) == s.Has(r))
            && (s.Has(OPEN) ==> Fold(Sent(t)) == Hear(Fold(Sent(s)), MessageFor(subscribe, id, s.params.value, body)))
            && (!s.Has(OPEN) ==> t == s) && |t.sockets| == |s.sockets|
  {
    if s.Has(OPEN) {
      var m := MessageFor(subscribe, id, s.params.value, body);
      SendKeeps(s, latest, m);
      FoldSnoc(Sent(s), m);
    }
  }

  function Requested(channel: string, ids: seq<string>, subs: map<string, Subscription>): Held
    requires forall id :: id in ids ==> id in subs
  {
    map id | id in ids :: (channel, subs[id].body)
  }

  lemma RequestedSnoc(channel: string, front: seq<string>, last: string, subs: map<string, Subscription>)
    requires last in subs && forall id :: id in front ==> id in subs
    ensures Requested(channel, front + [last], subs) == Requested(channel, front, subs)[last := (channel, subs[last].body)]
  {}

  lemma {:induction false} AllAreRequested(s: Service<Message>, latest: Option<string>, ids: seq<string>,
                                           subs: map<string, Subscription>)
    requires Sound(s, latest) && s.Has(OPEN) && Sent(s) == [] && forall id :: id in ids ==> id in subs
    ensures var t := RequestAll(s, ids, subs);
            && Sound(t, latest) && t.Has(OPEN) && t.params == s.params && |t.sockets| == |s.sockets|
            && Fold(Sent(t)) == Requested(s.params.value, ids, subs)
  {
    if ids == [] {
    } else {
      var front, last := ids[..|ids| - 1], ids[|ids| - 1];
      assert ids == front + [last];
      AllAreRequested(s, latest, front, subs);
      RequestIsSent(RequestAll(s, front, subs), latest, true, last, subs[last].body);
      RequestedSnoc(s.params.value, front, last, subs);
    }
  }

  /** All that holds in every reachable state. */
  predicate Inv(c: Client, latest: Option<string>) {
    Sound(c.service, latest) && RecordsMatch(c) && Wanted(c) && Mirrored(c)
  }

  /** The mirror only looks at the ids and their bodies. */
  lemma SameMirror(c: Client, after: Client)
    requires Mirrored(c) && after.service == c.service
    requires after.subs.Keys == c.subs.Keys && forall id :: id in c.subs ==> after.subs[id].body == c.subs[id].body
    ensures Mirrored(after)
  {}

  lemma AddedMirror(c: Client, latest: Option<string>, after: Client, id: string, body: Body)
    requires Sound(c.service, latest) && Mirrored(c) && id !in c.subs
    requires after.service == Request(c.service, true, id, body) && after.subs.Keys == c.subs.Keys + {id}
    requires after.subs[id].body == body && forall x :: x in c.subs ==> after.subs[x].body == c.subs[x].body
    ensures Sound(after.service, latest) && Mirrored(after)
  {
    RequestIsSent(c.service, latest, true, id, body);
    assert forall channel :: Live(after, channel) == Live(c, channel)[id := (channel, body)];
  }

  lemma SubscribeKeepsMirror(c: Client, latest: Option<string>, key: string, body: Body, callback: nat, freshId: string)
    requires Sound(c.service, latest) && RecordsMatch(c) && Mirrored(c) && Unused(c, freshId)
    ensures Sound(Subscribe(c, key, body, callback, freshId).service, latest)
    ensures Mirrored(Subscribe(c, key, body, callback, freshId))
  {
    var after := Subscribe(c, key, body, callback, freshId);
    if key in c.keyToId {
      SameMirror(c, after);
    } else {
      AddedMirror(c, latest, after, freshId, body);
    }
  }

  lemma SubscribeKeeps(c: Client, latest: Option<string>, key: string, body: Body, callback: nat, freshId: string)
    requires Inv(c, latest) && Unused(c, freshId)
    ensures Inv(Subscribe(c, key, body, callback, freshId), latest)
  {
    SubscribeKeepsRecords(c, key, body, callback, freshId);
    SubscribeKeepsWanted(c, key, body, callback, freshId);
    SubscribeKeepsMirror(c, latest, key, body, callback, freshId);
  }

  lemma RemovedMirror(c: Client, latest: Option<string>, after: Client, id: string)
    requires Sound(c.service, latest) && Mirrored(c) && id in c.subs
    requires after.service == Request(c.service, false, id, c.subs[id].body) && after.subs == c.subs - {id}
    ensures Sound(after.service, latest) && Mirrored(after)
  {
    RequestIsSent(c.service, latest, false, id, c.subs[id].body);
    assert forall channel :: Live(after, channel) == Live(c, channel) - {id};
  }

  lemma UnsubscribeKeeps(c: Client, latest: Option<string>, u: Unsubscriber)
    requires Inv(c, latest) && u in c.closures
    ensures Inv(Unsubscribe(c, u), latest)
  {
    UnsubscribeKeepsRecords(c, u);
    if u.id in c.subs {
      if c.subs[u.id].callbacks - {u.callback} != {} {
        SameMirror(c, Unsubscribe(c, u));
      } else {
        RemovedMirror(c, latest, Unsubscribe(c, u), u.id);
      }
    }
  }

  lemma OpenKeeps(c: Client, latest: Option<string>)
    requires Inv(c, latest) && c.service.Has(CONNECTING)
    ensures Inv(OnStateUpdate(c.(service := SocketOpens(c.service))), latest)
  {
    var up := SocketOpens(c.service);
    OpensKeeps(c.service, latest);
    AllAreRequested(up, latest, c.ids, c.subs);
    var after := OnStateUpdate(c.(service := up));
    assert after == c.(service := RequestAll(up, c.ids, c.subs), subs := Forgotten(c.subs));
    AllAreLive(c, after, up.params.value);
  }

  lemma AllAreLive(c: Client, after: Client, channel: string)
    requires RecordsMatch(c) && Wanted(c) && after.ids == c.ids && after.subs == Forgotten(c.subs)
    requires after.keyToId == c.keyToId && after.closures == c.closures
    ensures RecordsMatch(after) && Wanted(after)
    ensures (forall id :: id in c.ids ==> id in c.subs) && Live(after, channel) == Requested(channel, c.ids, c.subs)
  {}

  lemma UpdateKeeps(c: Client, latest: Option<string>, u: Update)
    requires Inv(c, latest)
    ensures Inv(OnUpdate(c, u), latest)
  {
    SameMirror(c, OnUpdate(c, u));
  }

  /** The service changed, but an open socket is the one that was open, with nothing sent that the fold would notice. */
  predicate SameOpen(s: Service<Message>, t: Service<Message>) {
    && (t.Has(CONNECTING) ==> Sent(t) == [])
    && (t.Has(OPEN) ==> s.Has(OPEN) && t.connection == s.connection && Fold(Sent(t)) == Fold(Sent(s))
                        && t.sockets[t.connection.value].channel == s.sockets[s.connection.value].channel)
  }

  lemma ServiceKeeps(c: Client, latest: Option<string>, t: Service<Message>, latest': Option<string>)
    requires Inv(c, latest) && Sound(t, latest') && SameOpen(c.service, t)
    ensures Inv(c.(service := t), latest')
  {}

  lemma PongKeeps(s: Service<Message>, latest: Option<string>)
    requires Sound(s, latest) && (s.Has(CONNECTING) ==> Sent(s) == [])
    ensures var heard := s.(idleTimer := true);
            Sound(Send(heard, Pong), latest) && SameOpen(s, Send(heard, Pong)) && Sound(heard, latest) && SameOpen(s, heard)
  {}

  lemma MessageKeeps(c: Client, latest: Option<string>, update: Option<Update>)
    requires Inv(c, latest)
    ensures Inv(OnMessage(c, update), latest)
  {
    if c.service.Has(OPEN) {
      var heard := c.service.(idleTimer := true);
      PongKeeps(c.service, latest);
      if update.None? {
        ServiceKeeps(c, latest, Send(heard, Pong), latest);
      } else {
        ServiceKeeps(c, latest, heard, latest);
        UpdateKeeps(c.(service := heard), latest, update.value);
      }
    }
  }

  lemma CloseSteps(s: Service<Message>, latest: Option<string>, wasClean: bool, code: int)
    requires Sound(s, latest) && (s.Has(CONNECTING) ==> Sent(s) == [])
    ensures SameOpen(s, SocketCloses(s, wasClean, code))
  {}

  lemma OtherSteps(s: Service<Message>, latest: Option<string>, timer: nat)
    requires Sound(s, latest) && (s.Has(CONNECTING) ==> Sent(s) == [])
    ensures SameOpen(s, Disconnect(s)) && SameOpen(s, RemoteCloses(s)) && SameOpen(s, IdleFires(s))
    ensures SameOpen(s, TimerFires(s, timer)) && (IsFree(s) ==> SameOpen(s, Renewed(s)))
  {}

  lemma ConnectSteps(s: Service<Message>, latest: Option<string>, channel: string)
    requires Sound(s, latest) && (s.Has(CONNECTING) ==> Sent(s) == [])
    ensures SameOpen(s, Connect(s, channel))
  {}

  lemma ConnectionStepKeeps(c: Client, latest: Option<string>, e: Event)
    requires Inv(c, latest)
    requires e.UserDisconnects? || e.RemoteStartsClosing? || e.Closes? || e.Fires? || e.GoesIdle? || e.Renews?
    ensures Inv(Step(c, e), latest)
  {
    var s := c.service;
    OtherSteps(s, latest, if e.Fires? then e.timer else 0);
    match e
    case UserDisconnects =>
      DisconnectKeeps(s, latest);
      ServiceKeeps(c, latest, Disconnect(s), latest);
    case RemoteStartsClosing =>
      RemoteClosesKeeps(s, latest);
      ServiceKeeps(c, latest, RemoteCloses(s), latest);
    case Closes(wasClean, code) =>
      ClosesKeeps(s, latest, wasClean, code);
      CloseSteps(s, latest, wasClean, code);
      ServiceKeeps(c, latest, SocketCloses(s, wasClean, code), latest);
    case Fires(timer) =>
      TimerKeeps(s, latest, timer);
      ServiceKeeps(c, latest, TimerFires(s, timer), latest);
    case GoesIdle =>
      IdleKeeps(s, latest);
      ServiceKeeps(c, latest, IdleFires(s), latest);
    case Renews =>
      if IsFree(s) {
        RenewalIsSafe(s, latest);
        ServiceKeeps(c, latest, Renewed(s), latest);
      }
  }

  lemma StepKeeps(c: Client, latest: Option<string>, e: Event)
    requires Inv(c, latest)
    ensures Inv(Step(c, e), if e.UserConnects? then Some(e.channel) else latest)
  {
    match e
    case UserConnects(channel) =>
      ConnectKeeps(c.service, latest, channel);
      ConnectSteps(c.service, latest, channel);
      ServiceKeeps(c, latest, Connect(c.service, channel), Some(channel));
    case Opens => if c.service.Has(CONNECTING) { OpenKeeps(c, latest); }
    case Receives(update) => MessageKeeps(c, latest, update);
    case Subscribes(key, body, callback, freshId) =>
      if Unused(c, freshId) { SubscribeKeeps(c, latest, key, body, callback, freshId); }
    case Unsubscribes(i) => if i < |c.closures| { UnsubscribeKeeps(c, latest, c.closures[i]); }
    case _ => ConnectionStepKeeps(c, latest, e);
  }

  lemma {:induction false} RunKeeps(events: seq<Event>)
    ensures Inv(Run(events), Latest(events))
  {
    if events == [] {
    } else {
      RunKeeps(events[..|events| - 1]);
      StepKeeps(Run(events[..|events| - 1]), Latest(events[..|events| - 1]), events[|events| - 1]);
    }
  }

  // ---- The theorems ----

  predicate OneSocket(s: Service<Message>) {
    forall i, j :: 0 <= i < j < |s.sockets| ==> s.sockets[i].readyState == CLOSED || s.sockets[j].readyState == CLOSED
  }

  /** In every run at most one socket is not closed. */
  lemma AtMostOneSocket(events: seq<Event>)
    ensures OneSocket(Run(events).service)
  {
    RunKeeps(events);
  }

  /** After any run, a renewal that completes then leaves at most one if and only if it finds no parameters or no socket. */
  lemma RenewalNeedsNoSocket(events: seq<Event>)
    ensures var s := Run(events).service; OneSocket(Renewed(s)) <==> s.params.None? || s.connection.None?
  {
    RunKeeps(events);
    var s := Run(events).service;
    if s.params.Some? && s.connection.Some? {
      var t := Renewed(s);
      assert t.sockets[s.connection.value].readyState != CLOSED && t.sockets[|s.sockets|].readyState != CLOSED;
    }
  }

  /** It does happen: the server refuses the token, the user connects anew, and then the renewal completes. */
  lemma RenewalOpensAnother(a: string, b: string)
    ensures var s := Run([UserConnects(a), Closes(true, 4001), UserConnects(b)]).service;
            && |Renewed(s).sockets| == 3 && !OneSocket(Renewed(s))
            && Renewed(s).sockets[1] == Socket(b, CONNECTING, []) == Renewed(s).sockets[2]
  {
    var one, two := [UserConnects(a)], [UserConnects(a), Closes(true, 4001)];
    RunSnoc([], UserConnects(a));
    RunSnoc(one, Closes(true, 4001));
    RunSnoc(two, UserConnects(b));
    assert [] + one == one && one + [Closes(true, 4001)] == two;
    assert two + [UserConnects(b)] == [UserConnects(a), Closes(true, 4001), UserConnects(b)];
    assert Run(two).service == Initially<Message>().(sockets := [Socket(a, CLOSED, [])]);
    var s := Run(two + [UserConnects(b)]).service;
    assert Renewed(s).sockets[1].readyState != CLOSED && Renewed(s).sockets[2].readyState != CLOSED;
  }

  /** At most one reconnect timer is pending, and only while no socket exists. */
  lemma TimerOnlyWithoutSocket(events: seq<Event>)
    ensures |Run(events).service.pending| <= 1
    ensures Run(events).service.pending != {} ==>
              forall i :: 0 <= i < |Run(events).service.sockets| ==> Run(events).service.sockets[i].readyState == CLOSED
  {
    RunKeeps(events);
    var s := Run(events).service;
    assert s.pending <= (if s.reconnectionTimeout.Some? then {s.reconnectionTimeout.value} else {});
    SubsetSize(s.pending, if s.reconnectionTimeout.Some? then {s.reconnectionTimeout.value} else {});
  }

  lemma {:induction false} SubsetSize<T>(a: set<T>, b: set<T>)
    requires a <= b
    ensures |a| <= |b|
  {
    if a == {} {
    } else {
      var x :| x in a;
      SubsetSize(a - {x}, b - {x});
    }
  }

  predicate NewestIsCurrent(before: Service<Message>, after: Service<Message>) {
    |after.sockets| > |before.sockets| ==>
      after.Has(CONNECTING) && after.connection.value == |after.sockets| - 1 && after.scheduled.None?
  }

  lemma StepMayOpen(c: Client, latest: Option<string>, e: Event)
    requires Inv(c, latest)
    ensures NewestIsCurrent(c.service, Step(c, e).service)
  {
    match e
    case Opens =>
      if c.service.Has(CONNECTING) {
        OpensKeeps(c.service, latest);
        AllAreRequested(SocketOpens(c.service), latest, c.ids, c.subs);
      }
    case Subscribes(key, body, callback, freshId) => RequestIsSent(c.service, latest, true, freshId, body);
    case Unsubscribes(i) =>
      if i < |c.closures| && c.closures[i].id in c.subs {
        RequestIsSent(c.service, latest, false, c.closures[i].id, c.subs[c.closures[i].id].body);
      }
    case UserConnects(channel) => OpeningSteps(c.service, latest, channel, 0, true, 0);
    case Fires(timer) => OpeningSteps(c.service, latest, "", timer, true, 0);
    case Closes(wasClean, code) => OpeningSteps(c.service, latest, "", 0, wasClean, code);
    case Renews => OpeningSteps(c.service, latest, "", 0, true, 0);
    case _ =>
  }

  lemma OpeningSteps(s: Service<Message>, latest: Option<string>, channel: string, timer: nat, wasClean: bool, code: int)
    requires Sound(s, latest)
    ensures NewestIsCurrent(s, Connect(s, channel)) && NewestIsCurrent(s, TimerFires(s, timer))
    ensures NewestIsCurrent(s, SocketCloses(s, wasClean, code)) && (IsFree(s) ==> NewestIsCurrent(s, Renewed(s)))
  {}

  /** A step that creates a socket makes it the current one, for the channel asked for last. */
  predicate OpensFor(before: Service<Message>, after: Service<Message>, latest: Option<string>) {
    |after.sockets| > |before.sockets| ==>
      && after.Has(CONNECTING) && after.connection.value == |after.sockets| - 1
      && Some(after.sockets[|after.sockets| - 1].channel) == latest
  }

  lemma NewestIsLatest(before: Service<Message>, s: Service<Message>, latest: Option<string>)
    requires Sound(s, latest) && NewestIsCurrent(before, s)
    ensures OpensFor(before, s, latest)
  {}

  lemma StepOpensFor(c: Client, latest: Option<string>, e: Event)
    requires Inv(c, latest)
    ensures OpensFor(c.service, Step(c, e).service, if e.UserConnects? then Some(e.channel) else latest)
  {
    StepMayOpen(c, latest, e);
    StepKeeps(c, latest, e);
    NewestIsLatest(c.service, Step(c, e).service, if e.UserConnects? then Some(e.channel) else latest);
  }

  /** Every socket a run creates is for the channel the user asked for last. */
  lemma NewSocketIsForLatest(events: seq<Event>)
    requires events != []
    ensures OpensFor(Run(events[..|events| - 1]).service, Run(events).service, Latest(events))
  {
    var front, last := events[..|events| - 1], events[|events| - 1];
    RunKeeps(front);
    StepOpensFor(Run(front), Latest(front), last);
  }

  /** While the socket is open, what the server heard on it is exactly what the manager has, on the socket's channel. */
  lemma ServerMirrorsClient(events: seq<Event>)
    ensures var c := Run(events);
            c.service.Has(OPEN) ==>
              && c.service.status == Connected
              && Fold(Sent(c.service)) == Live(c, c.service.sockets[c.service.connection.value].channel)
              && Some(c.service.sockets[c.service.connection.value].channel) == Latest(events)
  {
    RunKeeps(events);
  }

  // ---- After a disconnect ----

  /** Where the connection is, in a run after a disconnect in state s; parked, the parameters are still there. */
  datatype Course = Quiet | Parked | Ending | Waiting | Revived

  function CourseStep(s: Service<Message>, at: Course, e: Event): Course {
    match at
    case Ending =>
      if !e.Closes? then Ending
      else if s.scheduled.Some? then Revived
      else if !e.wasClean || e.code in RECONNECTION_CODES then Waiting
      else Quiet
    case Waiting => if e == Fires(s.timersSet) then Revived else if e.UserDisconnects? then Parked else Waiting
    case Parked => if e.Renews? then Revived else Parked
    case _ => at
  }

  function CourseStart(s: Service<Message>): Course {
    if s.connection.Some? then Ending else if s.params.Some? then Parked else Quiet
  }

  function CourseAfter(s: Service<Message>, later: seq<Event>): Course {
    if later == [] then CourseStart(s)
    else CourseStep(s, CourseAfter(s, later[..|later| - 1]), later[|later| - 1])
  }

  /** What each course means for the service t; s is the service at the disconnect. */
  predicate Follows(s: Service<Message>, t: Service<Message>, at: Course) {
    && |t.sockets| >= |s.sockets|
    && match at
       case Quiet => |t.sockets| == |s.sockets| && IsFree(t) && t.params.None?
       case Parked => |t.sockets| == |s.sockets| && IsFree(t) && t.params.Some?
       case Ending => |t.sockets| == |s.sockets| && t.Has(CLOSING) && t.pending == {} && t.scheduled == s.scheduled
                      && t.timersSet == s.timersSet
       case Waiting => |t.sockets| == |s.sockets| && t.connection.None? && t.pending == {s.timersSet}
                       && t.reconnectionTimeout == Some(s.timersSet) && t.params.Some? && t.status == Reconnecting
       case Revived => |t.sockets| > |s.sockets|
  }

  predicate IsSubscribing(e: Event) { e.Subscribes? || e.Unsubscribes? || e.Receives? || e.Opens? }

  /** Subscriptions, messages and openings leave a connection that is not connecting on its course. */
  lemma OpensFollows(s: Service<Message>, c: Client, latest: Option<string>, at: Course)
    requires Inv(c, latest) && Follows(s, c.service, at)
    ensures Follows(s, Step(c, Opens).service, at)
  {
    if c.service.Has(CONNECTING) {
      OpensKeeps(c.service, latest);
      AllAreRequested(SocketOpens(c.service), latest, c.ids, c.subs);
    }
  }

  lemma SubscribingFollows(s: Service<Message>, c: Client, latest: Option<string>, at: Course, e: Event)
    requires Inv(c, latest) && Follows(s, c.service, at) && IsSubscribing(e)
    ensures Follows(s, Step(c, e).service, at)
  {
    match e
    case Opens => OpensFollows(s, c, latest, at);
    case Subscribes(key, body, _, freshId) => RequestIsSent(c.service, latest, true, freshId, body);
    case Unsubscribes(i) =>
      if i < |c.closures| && c.closures[i].id in c.subs {
        RequestIsSent(c.service, latest, false, c.closures[i].id, c.subs[c.closures[i].id].body);
      }
    case _ =>
  }

  lemma ConnectionFollows(s: Service<Message>, c: Client, latest: Option<string>, at: Course, e: Event)
    requires Inv(c, latest) && Follows(s, c.service, at) && !IsSubscribing(e) && !e.UserConnects?
    ensures Follows(s, Step(c, e).service, CourseStep(s, at, e))
  {
    if e.UserDisconnects? {
      StopClearsTheTimer(c.service);
    }
  }

  lemma {:induction false} RunFollows(events: seq<Event>, later: seq<Event>)
    requires forall i :: 0 <= i < |later| ==> !later[i].UserConnects?
    ensures Follows(Run(events).service, Run(events + [UserDisconnects] + later).service, CourseAfter(Run(events).service, later))
  {
    var s := Run(events).service;
    if later == [] {
      assert events + [UserDisconnects] + later == events + [UserDisconnects];
      RunKeeps(events);
      RunSnoc(events, UserDisconnects);
      DisconnectFollows(s, Latest(events));
    } else {
      var front, e := later[..|later| - 1], later[|later| - 1];
      var sofar := events + [UserDisconnects] + front;
      RunFollows(events, front);
      RunKeeps(sofar);
      assert events + [UserDisconnects] + later == sofar + [e];
      RunSnoc(sofar, e);
      if IsSubscribing(e) {
        SubscribingFollows(s, Run(sofar), Latest(sofar), CourseAfter(s, front), e);
      } else {
        ConnectionFollows(s, Run(sofar), Latest(sofar), CourseAfter(s, front), e);
      }
    }
  }

  lemma RunSnoc(events: seq<Event>, e: Event)
    ensures Run(events + [e]) == Step(Run(events), e)
  {
    assert (events + [e])[..|events|] == events;
  }

  lemma DisconnectFollows(s: Service<Message>, latest: Option<string>)
    requires Sound(s, latest)
    ensures Follows(s, Disconnect(s), CourseStart(s))
  {
    StopClearsTheTimer(s);
  }

  /** The first close of the run. */
  predicate FirstClose(later: seq<Event>, k: nat) {
    k < |later| && later[k].Closes? && forall i :: 0 <= i < k ==> !later[i].Closes?
  }

  /** After step k the timer fires before another disconnect clears it. */
  predicate FiresUncleared(later: seq<Event>, k: nat, timer: nat) {
    exists j :: k < j < |later| && later[j] == Fires(timer) && forall i :: k < i < j ==> !later[i].UserDisconnects?
  }

  predicate Reconnects(e: Event) { e.Closes? && (!e.wasClean || e.code in RECONNECTION_CODES) }

  /** After step k the timer is cleared by another disconnect, and after that a renewal completes. */
  predicate RenewsCleared(later: seq<Event>, k: nat) {
    exists i, j :: k < i < j < |later| && later[i].UserDisconnects? && later[j].Renews?
  }

  predicate SomeRenewal(later: seq<Event>) { exists k :: 0 <= k < |later| && later[k].Renews? }

  /**
   * What brings a connection back after a disconnect in state s. With a socket to be closed: at its close a switch of
   * channel is scheduled, or the close reconnects and its timer fires before another disconnect, or that disconnect
   * is followed by a renewal. Without one: parameters, and a renewal.
   */
  ghost predicate ComesBack(s: Service<Message>, later: seq<Event>) {
    if s.connection.None? then s.params.Some? && SomeRenewal(later)
    else exists k: nat ::
           FirstClose(later, k)
           && (s.scheduled.Some?
               || (Reconnects(later[k]) && (FiresUncleared(later, k, s.timersSet) || RenewsCleared(later, k))))
  }

  predicate Undisturbed(later: seq<Event>, k: nat, timer: nat) {
    forall i :: k < i < |later| ==> !later[i].UserDisconnects? && later[i] != Fires(timer)
  }

  lemma {:induction false} BeforeClose(s: Service<Message>, later: seq<Event>)
    requires s.connection.Some? && forall i :: 0 <= i < |later| ==> !later[i].Closes?
    ensures CourseAfter(s, later) == Ending
  {
    if later == [] {
    } else {
      BeforeClose(s, later[..|later| - 1]);
    }
  }

  lemma FiresSnoc(front: seq<Event>, e: Event, k: nat, timer: nat)
    requires k < |front|
    ensures FiresUncleared(front + [e], k, timer)
            <==> FiresUncleared(front, k, timer) || (Undisturbed(front, k, timer) && e == Fires(timer))
  {
    var later := front + [e];
    if FiresUncleared(front, k, timer) {
      var j :| k < j < |front| && front[j] == Fires(timer) && forall i :: k < i < j ==> !front[i].UserDisconnects?;
      assert later[j] == Fires(timer) && forall i :: k < i < j ==> later[i] == front[i];
    }
    if Undisturbed(front, k, timer) && e == Fires(timer) {
      assert later[|front|] == Fires(timer) && forall i :: k < i < |front| ==> later[i] == front[i];
    }
    if FiresUncleared(later, k, timer) {
      var j :| k < j < |later| && later[j] == Fires(timer) && forall i :: k < i < j ==> !later[i].UserDisconnects?;
      if j < |front| {
        assert front[j] == Fires(timer) && forall i :: k < i < j ==> front[i] == later[i];
      } else {
        assert forall i :: k < i < |front| ==> front[i] == later[i];
      }
    }
  }

  /** After step k a disconnect. */
  predicate IsCleared(later: seq<Event>, k: nat) { exists i :: k < i < |later| && later[i].UserDisconnects? }

  lemma ClearedSnoc(front: seq<Event>, e: Event, k: nat)
    requires k < |front|
    ensures IsCleared(front + [e], k) <==> IsCleared(front, k) || e.UserDisconnects?
    ensures RenewsCleared(front + [e], k) <==> RenewsCleared(front, k) || (IsCleared(front, k) && e.Renews?)
  {
    var later := front + [e];
    if IsCleared(front, k) {
      var i :| k < i < |front| && front[i].UserDisconnects?;
      assert later[i].UserDisconnects?;
      if e.Renews? {
        assert later[|front|].Renews?;
      }
    }
    if e.UserDisconnects? {
      assert later[|front|].UserDisconnects?;
    }
    if RenewsCleared(front, k) {
      var i, j :| k < i < j < |front| && front[i].UserDisconnects? && front[j].Renews?;
      assert later[i].UserDisconnects? && later[j].Renews?;
    }
    if RenewsCleared(later, k) {
      var i, j :| k < i < j < |later| && later[i].UserDisconnects? && later[j].Renews?;
      assert front[i].UserDisconnects?;
      if j < |front| {
        assert front[j].Renews?;
      }
    }
  }

  /** The course after the first close, if that reconnects, told from the events. */
  predicate ToldBy(at: Course, later: seq<Event>, k: nat, timer: nat) {
    && (at == Revived <==> FiresUncleared(later, k, timer) || RenewsCleared(later, k))
    && (at == Waiting <==> Undisturbed(later, k, timer))
    && (at == Parked <==> IsCleared(later, k) && !FiresUncleared(later, k, timer) && !RenewsCleared(later, k))
    && at != Ending && at != Quiet
  }

  lemma ToldSnoc(s: Service<Message>, at: Course, front: seq<Event>, e: Event, k: nat)
    requires k < |front| && ToldBy(at, front, k, s.timersSet)
    ensures ToldBy(CourseStep(s, at, e), front + [e], k, s.timersSet)
  {
    FiresSnoc(front, e, k, s.timersSet);
    ClearedSnoc(front, e, k);
    UndisturbedSnoc(front, e, k, s.timersSet);
    if Undisturbed(front, k, s.timersSet) {
      UndisturbedIsUncleared(front, k, s.timersSet);
    }
  }

  lemma UndisturbedSnoc(front: seq<Event>, e: Event, k: nat, timer: nat)
    requires k < |front|
    ensures Undisturbed(front + [e], k, timer) <==> Undisturbed(front, k, timer) && !e.UserDisconnects? && e != Fires(timer)
  {
    var later := front + [e];
    assert later[|front|] == e && forall i :: k < i < |front| ==> later[i] == front[i];
  }

  lemma UndisturbedIsUncleared(later: seq<Event>, k: nat, timer: nat)
    requires Undisturbed(later, k, timer)
    ensures !IsCleared(later, k) && !FiresUncleared(later, k, timer) && !RenewsCleared(later, k)
  {}

  lemma {:induction false} AfterClose(s: Service<Message>, later: seq<Event>, k: nat)
    requires s.connection.Some? && FirstClose(later, k)
    ensures s.scheduled.Some? ==> CourseAfter(s, later) == Revived
    ensures s.scheduled.None? && !Reconnects(later[k]) ==> CourseAfter(s, later) == Quiet
    ensures s.scheduled.None? && Reconnects(later[k]) ==> ToldBy(CourseAfter(s, later), later, k, s.timersSet)
    decreases |later|
  {
    var front, e := later[..|later| - 1], later[|later| - 1];
    assert later == front + [e];
    if k == |later| - 1 {
      BeforeClose(s, front);
    } else {
      AfterClose(s, front, k);
      if s.scheduled.None? && Reconnects(later[k]) {
        ToldSnoc(s, CourseAfter(s, front), front, e, k);
      }
    }
  }

  lemma {:induction false} FindClose(later: seq<Event>, n: nat) returns (k: nat)
    requires n < |later| && later[n].Closes?
    ensures FirstClose(later, k)
  {
    if i :| 0 <= i < n && later[i].Closes? {
      k := FindClose(later, i);
    } else {
      k := n;
    }
  }

  lemma {:induction false} ParkedUntilRenewal(s: Service<Message>, later: seq<Event>)
    requires s.connection.None?
    ensures s.params.None? ==> CourseAfter(s, later) == Quiet
    ensures s.params.Some? ==> CourseAfter(s, later) == if SomeRenewal(later) then Revived else Parked
  {
    if later == [] {
    } else {
      var front, e := later[..|later| - 1], later[|later| - 1];
      ParkedUntilRenewal(s, front);
      assert later == front + [e];
      if SomeRenewal(front) {
        var k :| 0 <= k < |front| && front[k].Renews?;
        assert later[k].Renews?;
      } else {
        assert forall i :: 0 <= i < |front| ==> later[i] == front[i];
        assert later[|front|] == e;
      }
    }
  }

  lemma RevivedIsComesBack(s: Service<Message>, later: seq<Event>)
    ensures CourseAfter(s, later) == Revived <==> ComesBack(s, later)
  {
    if s.connection.None? {
      ParkedUntilRenewal(s, later);
    } else if n :| 0 <= n < |later| && later[n].Closes? {
      var k := FindClose(later, n);
      AfterClose(s, later, k);
      assert forall k': nat :: FirstClose(later, k') ==> k' == k;
    } else {
      BeforeClose(s, later);
    }
  }

  /**
   * After a disconnect in any run, and until the user connects again, a socket is created if and only if the
   * connection comes back in one of these ways: a scheduled switch, a close that reconnects and its timer, or a renewal
   * that finds the parameters still there.
   */
  lemma DisconnectHoldsUnlessItComesBack(events: seq<Event>, later: seq<Event>)
    requires forall i :: 0 <= i < |later| ==> !later[i].UserConnects?
    ensures |Run(events + [UserDisconnects] + later).service.sockets| > |Run(events).service.sockets|
            <==> ComesBack(Run(events).service, later)
  {
    RunFollows(events, later);
    RevivedIsComesBack(Run(events).service, later);
  }

  // ---- The class ----

  class SubscriptionManager {
    const websocket: WebSocketConnectionService<Message>
    var ids: seq<string>
    var subscriptions: map<string, Subscription>
    var keyToId: map<string, string>
    var closures: seq<Unsubscriber>

    function State(): Client
      reads this, websocket
    {
      Client(websocket.State(), ids, subscriptions, keyToId, closures)
    }

    constructor (websocket: WebSocketConnectionService<Message>)
      requires websocket.Valid()
      ensures this.websocket == websocket
      ensures State() == Initial().(service := websocket.State())
    {
      this.websocket := websocket;
      ids, subscriptions, keyToId, closures := [], map[], map[], [];
    }

    method RequestWebsocketAction(subscribe: bool, id: string, body: Body)
      requires websocket.Valid()
      modifies websocket`sockets
      ensures websocket.Valid() && websocket.State() == Request(old(websocket.State()), subscribe, id, body)
    {
      if websocket.status != Connected || websocket.params.None? { return; }
      websocket.SendPayload(MessageFor(subscribe, id, websocket.params.value, body));
    }

    method ResubscribeAll()
      requires websocket.Valid() && forall id :: id in ids ==> id in subscriptions
      modifies this`subscriptions, websocket`sockets
      ensures websocket.Valid() && websocket.State() == RequestAll(old(websocket.State()), ids, old(subscriptions))
      ensures subscriptions == ForgottenIn(old(subscriptions), ids)
    {
      ghost var before, subs := websocket.State(), subscriptions;
      for i := 0 to |ids|
        invariant websocket.Valid() && websocket.State() == RequestAll(before, ids[..i], subs)
        invariant subscriptions == ForgottenIn(subs, ids[..i])
      {
        var id := ids[i];
        OneMore(before, ids, i, subs);
        subscriptions := subscriptions[id := subscriptions[id].(lastUpdate := None)];
        RequestWebsocketAction(true, id, subscriptions[id].body);
      }
      assert ids[..|ids|] == ids;
    }

    method StateUpdated()
      requires websocket.Valid() && IdsMatch(State())
      modifies this`subscriptions, websocket`sockets
      ensures websocket.Valid() && State() == OnStateUpdate(old(State()))
    {
      if websocket.status == Connected && websocket.activity == Some(Active) {
        ghost var subs := subscriptions;
        ResubscribeAll();
        assert ForgottenIn(subs, ids) == Forgotten(subs);
      }
    }

    method Updated(u: Update) returns (called: set<nat>)
      modifies this`subscriptions
      ensures State() == OnUpdate(old(State()), u)
      ensures called == if u.id in old(subscriptions) then old(subscriptions)[u.id].callbacks else {}
    {
      called := {};
      if u.id !in subscriptions { return; }
      subscriptions := subscriptions[u.id := subscriptions[u.id].(lastUpdate := Some(u))];
      called := subscriptions[u.id].callbacks;
    }

    /** Returns the closure, and the update handed to the callback at once, if there is one. */
    method SubscribeTo(key: string, body: Body, callback: nat, freshId: string)
        returns (unsubscribe: Unsubscriber, cached: Option<Update>)
      requires websocket.Valid()
      modifies this, websocket`sockets
      ensures websocket.Valid() && State() == Subscribe(old(State()), key, body, callback, freshId)
      ensures |closures| > 0 && unsubscribe == closures[|closures| - 1]
      ensures cached == CachedFor(old(State()), key, freshId)
    {
      var id := freshId;
      if key in keyToId {
        id := keyToId[key];
      } else {
        keyToId := keyToId[key := id];
      }
      ghost var named := old(State()).(keyToId := old(keyToId)[key := id]);
      assert State() == named;
      Add(id, body);
      cached := subscriptions[id].lastUpdate;
      unsubscribe := Listen(id, key, callback);
    }

    method Add(id: string, body: Body)
      requires websocket.Valid()
      modifies this, websocket`sockets
      ensures websocket.Valid() && State() == Added(old(State()), id, body)
    {
      if id in subscriptions { return; }
      subscriptions := subscriptions[id := Subscription(body, {}, None)];
      ids := ids + [id];
      if websocket.status == Connected {
        RequestWebsocketAction(true, id, body);
      }
    }

    method Listen(id: string, key: string, callback: nat) returns (unsubscribe: Unsubscriber)
      requires id in subscriptions
      modifies this
      ensures State() == Listened(old(State()), id, key, callback)
      ensures unsubscribe == Unsubscriber(id, key, callback)
    {
      subscriptions := subscriptions[id := subscriptions[id].(callbacks := subscriptions[id].callbacks + {callback})];
      unsubscribe := Unsubscriber(id, key, callback);
      closures := closures + [unsubscribe];
    }

    method UnsubscribeWith(u: Unsubscriber)
      requires websocket.Valid()
      modifies this, websocket`sockets
      ensures websocket.Valid() && State() == Unsubscribe(old(State()), u)
    {
      if u.id !in subscriptions { return; }
      var sub := subscriptions[u.id];
      var left := sub.callbacks - {u.callback};
      subscriptions := subscriptions[u.id := sub.(callbacks := left)];
      if left == {} {
        if websocket.status == Connected {
          RequestWebsocketAction(false, u.id, sub.body);
        }
        subscriptions := subscriptions - {u.id};
        ids := Without(ids, u.id);
        keyToId := keyToId - {u.key};
      }
    }
  }

  function ForgottenIn(subs: map<string, Subscription>, ids: seq<string>): map<string, Subscription> {
    map id | id in subs :: if id in ids then subs[id].(lastUpdate := None) else subs[id]
  }

  /** One round of the loop in the state listener. */
  lemma OneMore(s: Service<Message>, ids: seq<string>, i: nat, subs: map<string, Subscription>)
    requires i < |ids| && forall id :: id in ids ==> id in subs
    ensures RequestAll(s, ids[..i + 1], subs) == Request(RequestAll(s, ids[..i], subs), true, ids[i], subs[ids[i]].body)
    ensures var some := ForgottenIn(subs, ids[..i]);
            && ids[i] in some && some[ids[i]].body == subs[ids[i]].body
            && ForgottenIn(subs, ids[..i + 1]) == some[ids[i] := some[ids[i]].(lastUpdate := None)]
  {
    assert ids[..i + 1][..i] == ids[..i];
    assert ids[..i + 1] == ids[..i] + [ids[i]];
  }
}
