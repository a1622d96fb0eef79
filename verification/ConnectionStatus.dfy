/**
 * What the connection shows in every run, told from the events alone: when a socket is created, which status and activity
 * the listeners see, how many attempts in a row have failed, and which switch of channel is waiting.
 */
module ConnectionStatus {
  import opened WebSocketConnection
  import opened ClientSubscriptions
  import opened Wrappers

  type Connection = Service<Message>

  /**
   * All there is to tell of a connection: the state of its socket, the parameters, the switch that waits and the timer
   * that is pending; sockets and timers so far; whether the last socket came from the timer, the user has left it, and it
   * went idle once open; whether the inactivity timer runs, the activity announced last, and the refusals in a row.
   */
  datatype Telling = Telling(
    ready: Option<ReadyState>, params: Option<string>, next: Option<string>, timer: Option<nat>,
    sockets: nat, timers: nat, byTimer: bool, left: bool, idled: bool, ticking: bool, seen: Option<Activity>, refused: nat)

  function Silence(): Telling { Telling(None, None, None, None, 0, 0, false, false, false, false, None, 0) }

  // ---- What an event does, by what has been told so far ----

  /** The steps that create a socket. */
  predicate Creates(t: Telling, e: Event) {
    match e
    case UserConnects(_) => t.ready.None?
    case Closes(_, _) => t.ready.Some? && t.next.Some?
    case Fires(timer) => t.timer == Some(timer)
    case Renews => t.ready.None? && t.timer.None? && t.params.Some?
    case _ => false
  }

  /** A close without a switch to do. */
  predicate Ends(t: Telling, e: Event) { e.Closes? && t.ready.Some? && t.next.None? }

  predicate IsRefused(t: Telling, e: Event) {
    Ends(t, e) && (!e.wasClean || e.code == 1001 || e.code == 1005 || e.code == 1006 || e.code == 1011)
  }

  /** The user gives up the socket or the pending timer; a socket already closing is not given up for another channel. */
  predicate GivesUp(t: Telling, e: Event) {
    || (e.UserDisconnects? && (t.ready.Some? || t.timer.Some?))
    || (e.UserConnects? && t.ready.Some? && t.ready != Some(CLOSING))
  }

  function Created(t: Telling, e: Event): Telling {
    t.(ready := Some(CONNECTING), sockets := t.sockets + 1, byTimer := e.Fires?, left := false, ticking := false, seen := None,
       params := if e.UserConnects? then Some(e.channel) else if e.Closes? then t.next else t.params,
       next := None, timer := None, refused := if e.UserConnects? || e.Closes? then 0 else t.refused)
  }

  function Ended(t: Telling, e: Event): Telling {
    var ended := t.(ready := None, ticking := false, seen := None);
    if IsRefused(t, e) then ended.(timer := Some(t.timers), timers := t.timers + 1, refused := t.refused + 1)
    else ended.(params := None)
  }

  /** Giving up a socket starts its closing; a connect then waits for that. */
  function GivenUp(t: Telling, e: Event): Telling {
    var given := if t.ready.Some? then t.(ready := Some(CLOSING), left := true, seen := None) else t;
    given.(timer := None, refused := 0, next := if e.UserConnects? then Some(e.channel) else t.next)
  }

  function TellNext(t: Telling, e: Event): Telling {
    if Creates(t, e) then Created(t, e)
    else if Ends(t, e) then Ended(t, e)
    else if GivesUp(t, e) then GivenUp(t, e)
    else match e
      case UserConnects(channel) => t.(next := Some(channel))
      case Opens =>
        if t.ready == Some(CONNECTING) then
          t.(ready := Some(OPEN), idled := false, ticking := true, seen := Some(Active), timer := None, refused := 0)
        else t
      case RemoteStartsClosing => if t.ready == Some(OPEN) then t.(ready := Some(CLOSING)) else t
      case GoesIdle => if t.ticking then t.(idled := true, ticking := false, seen := Some(Inactive)) else t
      case Receives(_) => if t.ready == Some(OPEN) then t.(ticking := true) else t
      case _ => t
  }

  function Tell(events: seq<Event>): Telling {
    if events == [] then Silence() else TellNext(Tell(events[..|events| - 1]), events[|events| - 1])
  }

  // ---- What the service shows ----

  /** By the state of the socket. */
  function StatusOf(t: Telling): Status {
    match t.ready
    case Some(CONNECTING) => if t.byTimer then Reconnecting else Connecting
    case Some(OPEN) => Connected
    case Some(_) => if t.left then Disconnecting else Connected
    case None => if t.timer.Some? then Reconnecting else if t.params.Some? then Disconnecting else Disconnected
  }

  predicate Shows(s: Connection, t: Telling) {
    && (s.connection.None? <==> t.ready.None?) && (t.ready.Some? ==> s.Has(t.ready.value) && t.ready != Some(CLOSED))
    && |s.sockets| == t.sockets && s.timersSet == t.timers
    && s.params == t.params && s.scheduled == t.next
    && s.pending == (if t.timer.Some? then {t.timer.value} else {})
    && s.status == StatusOf(t) && s.activity == t.seen && s.reconnectionAttempt == t.refused
    && s.idleTimer == t.ticking && (t.ready == Some(OPEN) ==> s.reconnectionTimeout.None?)
  }

  /** An open socket shows as active until it first goes idle, and as inactive from then on, whatever it receives. */
  predicate IsConsistent(t: Telling) {
    && (t.ready == Some(OPEN) ==> t.seen == Some(if t.idled then Inactive else Active) && !t.left && (!t.idled ==> t.ticking))
    && (t.ready == Some(CONNECTING) ==> !t.left && !t.ticking)
    && (t.ready.None? ==> t.seen.None? && !t.ticking && t.next.None?)
    && (t.timer.Some? ==> t.ready.None? && t.params.Some?)
  }

  predicate IsShown(s: Connection, t: Telling) { Shows(s, t) && IsConsistent(t) }

  // ---- One step ----

  lemma FirstConnectIsShown(s: Connection, latest: Option<string>, t: Telling, channel: string)
    requires Sound(s, latest) && IsShown(s, t) && s.connection.None?
    ensures IsShown(Connect(s, channel), TellNext(t, UserConnects(channel)))
  {
    StopClearsTheTimer(s);
  }

  lemma LeavingIsShown(s: Connection, latest: Option<string>, t: Telling, channel: string)
    requires Sound(s, latest) && IsShown(s, t) && s.connection.Some? && !s.Has(CLOSING)
    ensures IsShown(Connect(s, channel), TellNext(t, UserConnects(channel)))
  {
    var waiting := s.(scheduled := Some(channel));
    assert Connect(s, channel) == Disconnect(waiting);
    assert Disconnect(waiting) == SetReadyState(StopReconnection(waiting), CLOSING).(status := Disconnecting, activity := None);
  }

  lemma WaitingIsShown(s: Connection, latest: Option<string>, t: Telling, channel: string)
    requires Sound(s, latest) && IsShown(s, t) && s.Has(CLOSING)
    ensures IsShown(Connect(s, channel), TellNext(t, UserConnects(channel)))
  {
    assert Connect(s, channel) == s.(scheduled := Some(channel));
    assert Connect(s, channel).Has(CLOSING);
  }

  lemma ConnectIsShown(s: Connection, latest: Option<string>, t: Telling, channel: string)
    requires Sound(s, latest) && IsShown(s, t)
    ensures IsShown(Connect(s, channel), TellNext(t, UserConnects(channel)))
  {
    if s.connection.None? {
      FirstConnectIsShown(s, latest, t, channel);
    } else if s.Has(CLOSING) {
      WaitingIsShown(s, latest, t, channel);
    } else {
      LeavingIsShown(s, latest, t, channel);
    }
  }

  lemma DisconnectIsShown(s: Connection, latest: Option<string>, t: Telling)
    requires Sound(s, latest) && IsShown(s, t)
    ensures IsShown(Disconnect(s), TellNext(t, UserDisconnects))
  {
    StopClearsTheTimer(s);
  }

  lemma SwitchIsShown(s: Connection, latest: Option<string>, t: Telling, wasClean: bool, code: int)
    requires Sound(s, latest) && IsShown(s, t) && s.connection.Some? && s.scheduled.Some?
    ensures IsShown(SocketCloses(s, wasClean, code), TellNext(t, Closes(wasClean, code)))
  {
    StopClearsTheTimer(s);
  }

  lemma RefusalIsShown(s: Connection, latest: Option<string>, t: Telling, wasClean: bool, code: int)
    requires Sound(s, latest) && IsShown(s, t) && s.connection.Some? && s.scheduled.None?
    ensures IsShown(SocketCloses(s, wasClean, code), TellNext(t, Closes(wasClean, code)))
  {}

  lemma CloseIsShown(s: Connection, latest: Option<string>, t: Telling, wasClean: bool, code: int)
    requires Sound(s, latest) && IsShown(s, t)
    ensures IsShown(SocketCloses(s, wasClean, code), TellNext(t, Closes(wasClean, code)))
  {
    if s.connection.Some? {
      if s.scheduled.Some? {
        SwitchIsShown(s, latest, t, wasClean, code);
      } else {
        RefusalIsShown(s, latest, t, wasClean, code);
      }
    }
  }

  lemma TimerIsShown(s: Connection, latest: Option<string>, t: Telling, timer: nat)
    requires Sound(s, latest) && IsShown(s, t)
    ensures IsShown(TimerFires(s, timer), TellNext(t, Fires(timer)))
  {}

  lemma RenewalIsShown(s: Connection, latest: Option<string>, t: Telling)
    requires Sound(s, latest) && IsShown(s, t)
    ensures IsShown(if IsFree(s) then Renewed(s) else s, TellNext(t, Renews))
  {}

  lemma IdleIsShown(s: Connection, latest: Option<string>, t: Telling)
    requires Sound(s, latest) && IsShown(s, t)
    ensures IsShown(IdleFires(s), TellNext(t, GoesIdle))
  {}

  lemma OpenIsShown(s: Connection, latest: Option<string>, t: Telling)
    requires Sound(s, latest) && IsShown(s, t) && s.Has(CONNECTING)
    ensures IsShown(SocketOpens(s), TellNext(t, Opens))
  {
    StopClearsTheTimer(s);
  }

  lemma RemoteIsShown(s: Connection, latest: Option<string>, t: Telling)
    requires Sound(s, latest) && IsShown(s, t)
    ensures IsShown(RemoteCloses(s), TellNext(t, RemoteStartsClosing))
  {}

  /** Only what was sent on the sockets differs. */
  predicate OnlySent(s: Connection, after: Connection) {
    after.(sockets := s.sockets) == s && |after.sockets| == |s.sockets| && forall r :: after.Has(r) == s.Has(r)
  }

  lemma SentIsShown(s: Connection, after: Connection, t: Telling)
    requires IsShown(s, t) && OnlySent(s, after)
    ensures IsShown(after, t)
  {
    assert t.ready.Some? ==> after.Has(t.ready.value) == s.Has(t.ready.value);
  }

  lemma RequestOnlySends(s: Connection, subscribe: bool, id: string, body: Body)
    ensures OnlySent(s, Request(s, subscribe, id, body))
  {}

  lemma {:induction false} RequestAllOnlySends(s: Connection, ids: seq<string>, subs: map<string, Subscription>)
    ensures OnlySent(s, RequestAll(s, ids, subs))
  {
    if ids == [] {
    } else {
      var last := ids[|ids| - 1];
      RequestAllOnlySends(s, ids[..|ids| - 1], subs);
      if last in subs {
        var sofar := RequestAll(s, ids[..|ids| - 1], subs);
        RequestOnlySends(sofar, true, last, subs[last].body);
        SentTwice(s, sofar, Request(sofar, true, last, subs[last].body));
      }
    }
  }

  lemma SentTwice(s: Connection, after: Connection, last: Connection)
    requires OnlySent(s, after) && OnlySent(after, last)
    ensures OnlySent(s, last)
  {
    assert forall r :: last.Has(r) == after.Has(r) == s.Has(r);
  }

  lemma OpenStepIsShown(c: Client, latest: Option<string>, t: Telling)
    requires Sound(c.service, latest) && IsShown(c.service, t) && c.service.Has(CONNECTING)
    ensures IsShown(Step(c, Opens).service, TellNext(t, Opens))
  {
    var up := SocketOpens(c.service);
    OpenIsShown(c.service, latest, t);
    RequestAllOnlySends(up, c.ids, c.subs);
    SentIsShown(up, RequestAll(up, c.ids, c.subs), TellNext(t, Opens));
  }

  lemma HeardIsShown(s: Connection, t: Telling, e: Event)
    requires e.Receives? && IsShown(s, t) && s.Has(OPEN)
    ensures IsShown(s.(idleTimer := true), TellNext(t, e))
  {
    assert s.(idleTimer := true).Has(OPEN);
  }

  lemma ReceiveIsShown(c: Client, t: Telling, e: Event)
    requires e.Receives? && IsShown(c.service, t)
    ensures IsShown(Step(c, e).service, TellNext(t, e))
  {
    if c.service.Has(OPEN) {
      var heard := c.service.(idleTimer := true);
      HeardIsShown(c.service, t, e);
      assert OnlySent(heard, Send(heard, Pong)) && OnlySent(heard, heard);
      SentIsShown(heard, Step(c, e).service, TellNext(t, e));
    }
  }

  lemma ManagerOnlySends(c: Client, e: Event)
    requires e.Subscribes? || e.Unsubscribes?
    ensures OnlySent(c.service, Step(c, e).service)
  {
    match e
    case Subscribes(key, body, _, freshId) => RequestOnlySends(c.service, true, freshId, body);
    case Unsubscribes(i) =>
      if i < |c.closures| && c.closures[i].id in c.subs {
        RequestOnlySends(c.service, false, c.closures[i].id, c.subs[c.closures[i].id].body);
      }
  }

  lemma StepIsShown(c: Client, latest: Option<string>, t: Telling, e: Event)
    requires Inv(c, latest) && IsShown(c.service, t)
    ensures IsShown(Step(c, e).service, TellNext(t, e))
  {
    var s := c.service;
    match e
    case UserConnects(channel) => ConnectIsShown(s, latest, t, channel);
    case UserDisconnects => DisconnectIsShown(s, latest, t);
    case Opens => if s.Has(CONNECTING) { OpenStepIsShown(c, latest, t); }
    case RemoteStartsClosing => RemoteIsShown(s, latest, t);
    case Closes(wasClean, code) => CloseIsShown(s, latest, t, wasClean, code);
    case Fires(timer) => TimerIsShown(s, latest, t, timer);
    case GoesIdle => IdleIsShown(s, latest, t);
    case Renews => RenewalIsShown(s, latest, t);
    case Receives(_) => ReceiveIsShown(c, t, e);
    case _ =>
      ManagerOnlySends(c, e);
      SentIsShown(s, Step(c, e).service, t);
  }

  // ---- The theorems ----

  /**
   * In every run the service shows what the events tell: socket, parameters, waiting switch, pending timer, status,
   * activity and attempts. And an open socket that went idle once shows as inactive from then on, whatever it receives.
   */
  lemma {:induction false} ConnectionIsTold(events: seq<Event>)
    ensures Shows(Run(events).service, Tell(events)) && IsConsistent(Tell(events))
  {
    if events == [] {
    } else {
      var front := events[..|events| - 1];
      ConnectionIsTold(front);
      RunKeeps(front);
      StepIsShown(Run(front), Latest(front), Tell(front), events[|events| - 1]);
    }
  }

  /** Asking for a channel always leads to it: a socket for it is connecting, or one is closing and the switch is waiting. */
  lemma ConnectHeadsThere(events: seq<Event>, channel: string)
    ensures var s := Step(Run(events), UserConnects(channel)).service;
            || (s.Has(CONNECTING) && s.sockets[s.connection.value].channel == channel)
            || (s.Has(CLOSING) && s.scheduled == Some(channel))
  {
    RunKeeps(events);
  }

  function StateOf(s: Connection): (Option<string>, Status, Option<Activity>) { (s.params, s.status, s.activity) }

  /** The manager's listener hears every update of the state, and acts on none but an opening. */
  lemma OnlyOpeningActs(events: seq<Event>, e: Event)
    requires !e.Opens?
    ensures var c, after := Run(events), Step(Run(events), e);
            StateOf(after.service) != StateOf(c.service) || (e.GoesIdle? && c.service.idleTimer) ==>
              OnStateUpdate(after) == after
  {
    var c := Run(events);
    RunKeeps(events);
    if e.Subscribes? || e.Unsubscribes? {
      ManagerOnlySends(c, e);
    } else {
      ConnectionIsTold(events);
      StepIsShown(c, Latest(events), Tell(events), e);
    }
  }
}
