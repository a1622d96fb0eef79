/** The browser's WebSocket lifecycle service: one socket at a time, reconnection, scheduled switches of channel. */
module WebSocketConnection {
  import opened Wrappers

  datatype ReadyState = CONNECTING | OPEN | CLOSING | CLOSED
  datatype Status = Connecting | Connected | Disconnecting | Disconnected | Reconnecting
  datatype Activity = Active | Inactive

  /** A socket the browser created, with what was sent on it. */
  datatype Socket<M> = Socket(channel: string, readyState: ReadyState, sent: seq<M>)

  /** The service's fields, and the browser's side of them: every socket ever created and the pending timers. */
  datatype Service<M> = Service(
    sockets: seq<Socket<M>>, pending: set<nat>, timersSet: nat, idleTimer: bool,
    connection: Option<nat>, scheduled: Option<string>, reconnectionAttempt: nat, reconnectionTimeout: Option<nat>,
    params: Option<string>, status: Status, activity: Option<Activity>)
  {
    predicate Has(state: ReadyState) {
      connection.Some? && connection.value < |sockets| && sockets[connection.value].readyState == state
    }
  }

  function Initially<M>(): Service<M> {
    Service([], {}, 0, false, None, None, 0, None, None, Disconnected, None)
  }

  // ---- What the methods do ----

  function StopReconnection<M>(s: Service<M>): Service<M> {
    s.(pending := if s.reconnectionTimeout.Some? then s.pending - {s.reconnectionTimeout.value} else s.pending,
       reconnectionTimeout := None, reconnectionAttempt := 0)
  }

  function OpenSocket<M>(s: Service<M>, channel: string, manually: bool): Service<M> {
    s.(sockets := s.sockets + [Socket(channel, CONNECTING, [])], connection := Some(|s.sockets|),
       params := Some(channel), activity := None,
       status := if s.status == Reconnecting && !manually then Reconnecting else Connecting)
  }

  function SetReadyState<M>(s: Service<M>, state: ReadyState): Service<M> {
    if s.connection.None? || s.connection.value >= |s.sockets| then s else
    var i := s.connection.value;
    s.(sockets := s.sockets[i := s.sockets[i].(readyState := state)])
  }

  /** Closing a socket that is already closing changes nothing. */
  function Disconnect<M>(s: Service<M>): Service<M> {
    if s.status == Reconnecting && s.connection.None? then
      StopReconnection(s).(status := Disconnecting, activity := None)
    else if s.connection.None? then s
    else SetReadyState(StopReconnection(s), CLOSING).(status := Disconnecting, activity := None)
  }

  function Connect<M>(s: Service<M>, channel: string): Service<M> {
    if s.connection.Some? then
      var waiting := s.(scheduled := Some(channel));
      if s.Has(CLOSING) || s.Has(CLOSED) then waiting else Disconnect(waiting)
    else OpenSocket(StopReconnection(s), channel, true)
  }

  function Reconnect<M>(s: Service<M>): Service<M> {
    s.(status := Reconnecting, activity := None, reconnectionAttempt := s.reconnectionAttempt + 1,
       pending := s.pending + {s.timersSet}, reconnectionTimeout := Some(s.timersSet), timersSet := s.timersSet + 1)
  }

  function OnOpen<M>(s: Service<M>): Service<M> {
    StopReconnection(s).(idleTimer := true, status := Connected, activity := Some(Active))
  }

  const RECONNECTION_CODES := {1001, 1005, 1006, 1011}

  function OnClose<M>(s: Service<M>, wasClean: bool, code: int): Service<M> {
    var closed := s.(connection := None, idleTimer := false);
    if s.scheduled.Some? then
      OpenSocket(StopReconnection(closed), s.scheduled.value, false).(scheduled := None)
    else if !wasClean || code in RECONNECTION_CODES then Reconnect(closed)
    else closed.(params := None, status := Disconnected, activity := None)
  }

  /** A socket that is no longer open swallows what is sent on it. */
  function Send<M>(s: Service<M>, m: M): Service<M> {
    if !s.Has(OPEN) then s else
    var i := s.connection.value;
    s.(sockets := s.sockets[i := s.sockets[i].(sent := s.sockets[i].sent + [m])])
  }

  // ---- What the browser does: open, a remote close starting, close, timers ----

  function SocketOpens<M>(s: Service<M>): Service<M> {
    if s.Has(CONNECTING) then OnOpen(SetReadyState(s, OPEN)) else s
  }

  function RemoteCloses<M>(s: Service<M>): Service<M> {
    if s.Has(OPEN) then SetReadyState(s, CLOSING) else s
  }

  function SocketCloses<M>(s: Service<M>, wasClean: bool, code: int): Service<M> {
    if s.connection.None? then s else OnClose(SetReadyState(s, CLOSED), wasClean, code)
  }

  /** The callback reconnects with the parameters of the state, which must be there. */
  function TimerFires<M>(s: Service<M>, timer: nat): Service<M> {
    if timer !in s.pending || s.params.None? then s else
    OpenSocket(s.(pending := s.pending - {timer}), s.params.value, false)
  }

  function IdleFires<M>(s: Service<M>): Service<M> {
    if s.idleTimer then s.(idleTimer := false, activity := Some(Inactive)) else s
  }

  // ---- The invariant ----

  predicate SocketIsHandled<M>(s: Service<M>) {
    && (forall i :: 0 <= i < |s.sockets| && s.connection != Some(i) ==> s.sockets[i].readyState == CLOSED)
    && (s.connection.Some? ==> s.connection.value < |s.sockets| && !s.Has(CLOSED)
                               && s.params == Some(s.sockets[s.connection.value].channel))
  }

  predicate TimerIsHandled<M>(s: Service<M>) {
    && (forall t :: t in s.pending ==> s.reconnectionTimeout == Some(t) && t < s.timersSet)
    && (s.pending != {} ==> s.connection.None? && s.params.Some? && s.status == Reconnecting)
  }

  predicate StatusFits<M>(s: Service<M>) {
    && (s.Has(OPEN) ==> s.status == Connected)
    && (s.status == Connected ==> s.Has(OPEN) || s.Has(CLOSING))
    && (s.scheduled.Some? ==> s.Has(CLOSING))
  }

  /** What the service is heading for is what was asked for last. */
  predicate HeadsFor<M>(s: Service<M>, latest: Option<string>) {
    && (s.scheduled.Some? ==> s.scheduled == latest)
    && (s.scheduled.None? && s.params.Some? ==> s.params == latest)
  }

  predicate Sound<M>(s: Service<M>, latest: Option<string>) {
    SocketIsHandled(s) && TimerIsHandled(s) && StatusFits(s) && HeadsFor(s, latest)
  }

  lemma StopClearsTheTimer<M>(s: Service<M>)
    requires TimerIsHandled(s)
    ensures StopReconnection(s).pending == {}
  {}

  lemma OpenSocketKeeps<M>(s: Service<M>, channel: string, manually: bool)
    requires SocketIsHandled(s) && s.connection.None? && s.pending == {} && s.scheduled.None?
    ensures Sound(OpenSocket(s, channel, manually), Some(channel))
    ensures |OpenSocket(s, channel, manually).sockets| == |s.sockets| + 1
  {}

  lemma DisconnectKeeps<M>(s: Service<M>, latest: Option<string>)
    requires SocketIsHandled(s) && TimerIsHandled(s) && HeadsFor(s, latest)
    requires s.status == Connected ==> s.connection.Some?
    requires s.scheduled.Some? ==> s.connection.Some?
    ensures Sound(Disconnect(s), latest)
    ensures |Disconnect(s).sockets| == |s.sockets|
  {}

  lemma ConnectKeeps<M>(s: Service<M>, latest: Option<string>, channel: string)
    requires Sound(s, latest)
    ensures Sound(Connect(s, channel), Some(channel))
    ensures |Connect(s, channel).sockets| == |s.sockets| || s.connection.None?
  {
    if s.connection.Some? {
      if !s.Has(CLOSING) {
        DisconnectKeeps(s.(scheduled := Some(channel)), Some(channel));
      }
    } else {
      StopClearsTheTimer(s);
      OpenSocketKeeps(StopReconnection(s), channel, true);
    }
  }

  lemma OpensKeeps<M>(s: Service<M>, latest: Option<string>)
    requires Sound(s, latest)
    ensures Sound(SocketOpens(s), latest)
  {}

  lemma RemoteClosesKeeps<M>(s: Service<M>, latest: Option<string>)
    requires Sound(s, latest)
    ensures Sound(RemoteCloses(s), latest)
  {}

  lemma ClosesKeeps<M>(s: Service<M>, latest: Option<string>, wasClean: bool, code: int)
    requires Sound(s, latest)
    ensures Sound(SocketCloses(s, wasClean, code), latest)
  {
    if s.connection.Some? {
      var closed := SetReadyState(s, CLOSED).(connection := None, idleTimer := false);
      assert SocketIsHandled(closed) && closed.pending == {};
      if s.scheduled.Some? {
        StopClearsTheTimer(closed);
        OpenSocketKeeps(StopReconnection(closed).(scheduled := None), s.scheduled.value, false);
      }
    }
  }

  lemma TimerKeeps<M>(s: Service<M>, latest: Option<string>, timer: nat)
    requires Sound(s, latest)
    ensures Sound(TimerFires(s, timer), latest)
  {}

  /** When the timer fires there are parameters to reconnect with. */
  lemma TimerHasParams<M>(s: Service<M>, latest: Option<string>, timer: nat)
    requires Sound(s, latest) && timer in s.pending
    ensures s.params.Some? && s.params == latest && s.pending == {timer}
  {}

  lemma IdleKeeps<M>(s: Service<M>, latest: Option<string>)
    requires Sound(s, latest)
    ensures Sound(IdleFires(s), latest)
  {}

  lemma SendKeeps<M>(s: Service<M>, latest: Option<string>, m: M)
    requires Sound(s, latest)
    ensures Sound(Send(s, m), latest) && Send(s, m).params == s.params && Send(s, m).status == s.status
            && |Send(s, m).sockets| == |s.sockets| && Send(s, m).connection == s.connection
            && forall r :: Send(s, m).Has(r) == s.Has(r)
  {}

  /** A switch of channel that is already scheduled survives a disconnect: the socket's close connects after all. */
  lemma DisconnectKeepsTheSchedule<M>(s: Service<M>, latest: Option<string>, wasClean: bool, code: int)
    requires Sound(s, latest) && s.scheduled.Some?
    ensures var after := SocketCloses(Disconnect(s), wasClean, code);
            after.Has(CONNECTING) && after.sockets[after.connection.value].channel == s.scheduled.value
  {}

  /**
   * The close that answers a disconnect ends the connection for good if and only if no switch of channel is scheduled
   * and the close is clean with a code that does not reconnect. `close()` is called without a code, so a clean close
   * normally carries 1005, which does.
   */
  lemma DisconnectIsFinal<M>(s: Service<M>, latest: Option<string>, wasClean: bool, code: int)
    requires Sound(s, latest) && s.connection.Some?
    ensures var t := SocketCloses(Disconnect(s), wasClean, code);
            (t.status == Disconnected && t.connection.None? && t.pending == {})
            <==> s.scheduled.None? && wasClean && code !in RECONNECTION_CODES
  {}

  /** With the browser's usual code a timer is set, for the channel that was left. */
  lemma UsualCloseReconnects<M>(s: Service<M>, latest: Option<string>)
    requires Sound(s, latest) && s.connection.Some? && s.scheduled.None?
    ensures var t := SocketCloses(Disconnect(s), true, 1005);
            t.status == Reconnecting && t.connection.None? && t.pending == {s.timersSet} && t.params == latest
  {
    StopClearsTheTimer(s);
  }

  // ---- The token renewal after close code 4001 ----

  /** The callback connects with whatever parameters the state has by then; without any it raises and does nothing. */
  function Renewed<M>(s: Service<M>): Service<M> {
    if s.params.None? then s else OpenSocket(s, s.params.value, false)
  }

  /** Nothing is there that a new socket would stand beside. */
  predicate IsFree<M>(s: Service<M>) { s.connection.None? && s.pending == {} }

  /** It keeps the service sound if and only if it finds no parameters, or neither a socket nor a pending timer. */
  lemma RenewalIsSafe<M>(s: Service<M>, latest: Option<string>)
    requires Sound(s, latest)
    ensures Sound(Renewed(s), latest) <==> s.params.None? || IsFree(s)
  {}

  // ---- The class ----

  class WebSocketConnectionService<M> {
    var sockets: seq<Socket<M>>
    var pending: set<nat>
    var timersSet: nat
    var idleTimer: bool
    var connection: Option<nat>
    var scheduledConnectionData: Option<string>
    var reconnectionAttempt: nat
    var reconnectionTimeout: Option<nat>
    var params: Option<string>
    var status: Status
    var activity: Option<Activity>

    function State(): Service<M>
      reads this
    {
      Service(sockets, pending, timersSet, idleTimer, connection, scheduledConnectionData, reconnectionAttempt,
              reconnectionTimeout, params, status, activity)
    }

    predicate Valid()
      reads this
    {
      connection.Some? ==> connection.value < |sockets|
    }

    constructor ()
      ensures Valid() && State() == Initially()
    {
      sockets, pending, timersSet, idleTimer := [], {}, 0, false;
      connection, scheduledConnectionData := None, None;
      reconnectionAttempt, reconnectionTimeout := 0, None;
      params, status, activity := None, Disconnected, None;
    }

    method StopReconnecting()
      requires Valid()
      modifies this
      ensures Valid() && State() == StopReconnection(old(State()))
    {
      if reconnectionTimeout.Some? {
        pending := pending - {reconnectionTimeout.value};
        reconnectionTimeout := None;
      }
      reconnectionAttempt := 0;
    }

    method OpenConnection(channel: string, manually: bool := false)
      requires Valid()
      modifies this
      ensures Valid() && State() == OpenSocket(old(State()), channel, manually)
    {
      sockets := sockets + [Socket(channel, CONNECTING, [])];
      connection := Some(|sockets| - 1);
      var newStatus := if status == Reconnecting && !manually then Reconnecting else Connecting;
      params, status, activity := Some(channel), newStatus, None;
    }

    /** What the browser does to the current socket's ready state. */
    method BecomeReady(state: ReadyState)
      requires Valid()
      modifies this`sockets
      ensures Valid() && State() == SetReadyState(old(State()), state)
    {
      if connection.Some? {
        var i := connection.value;
        sockets := sockets[i := sockets[i].(readyState := state)];
      }
    }

    method CloseConnection()
      requires Valid()
      modifies this
      ensures Valid() && State() == Disconnect(old(State()))
    {
      var isReconnecting := status == Reconnecting;
      if isReconnecting && connection.None? {
        StopReconnecting();
        status, activity := Disconnecting, None;
        return;
      }
      if connection.None? { return; }
      StopReconnecting();
      BecomeReady(CLOSING);
      status, activity := Disconnecting, None;
    }

    method ConnectTo(channel: string)
      requires Valid()
      modifies this
      ensures Valid() && State() == Connect(old(State()), channel)
    {
      if connection.Some? {
        scheduledConnectionData := Some(channel);
        var readyState := sockets[connection.value].readyState;
        if readyState != CLOSING && readyState != CLOSED {
          CloseConnection();
        }
        return;
      }
      StopReconnecting();
      OpenConnection(channel, true);
    }

    method Opened()
      requires Valid()
      modifies this
      ensures Valid() && State() == OnOpen(old(State()))
    {
      StopReconnecting();
      idleTimer := true;
      status, activity := Connected, Some(Active);
    }

    method ReconnectLater()
      requires Valid()
      modifies this
      ensures Valid() && State() == Reconnect(old(State()))
    {
      status, activity := Reconnecting, None;
      reconnectionAttempt := reconnectionAttempt + 1;
      pending := pending + {timersSet};
      reconnectionTimeout := Some(timersSet);
      timersSet := timersSet + 1;
    }

    method Closed(wasClean: bool, code: int)
      requires Valid()
      modifies this
      ensures Valid() && State() == OnClose(old(State()), wasClean, code)
    {
      connection := None;
      idleTimer := false;
      if scheduledConnectionData.Some? {
        StopReconnecting();
        OpenConnection(scheduledConnectionData.value);
        scheduledConnectionData := None;
        return;
      }
      if !wasClean || code in RECONNECTION_CODES {
        ReconnectLater();
        return;
      }
      params, status, activity := None, Disconnected, None;
    }

    /** What runs when the token was renewed. */
    method RenewalCallback()
      requires Valid()
      modifies this
      ensures Valid() && State() == Renewed(old(State()))
    {
      if params.Some? {
        OpenConnection(params.value);
      }
    }

    method SendPayload(payload: M)
      requires Valid()
      modifies this`sockets
      ensures Valid() && State() == Send(old(State()), payload)
    {
      if connection.None? { return; }
      var i := connection.value;
      if sockets[i].readyState == OPEN {
        sockets := sockets[i := sockets[i].(sent := sockets[i].sent + [payload])];
      }
    }

    /** The callback of `setTimeout` in `reconnect`. */
    method TimerCallback(timer: nat)
      requires Valid() && timer in pending && params.Some?
      modifies this
      ensures Valid() && State() == TimerFires(old(State()), timer)
    {
      pending := pending - {timer};
      OpenConnection(params.value);
    }
  }
}
