/** The reconnecting real-time client (services/websocket.ts). The browser
    socket is abstracted to the events it delivers (`onopen`, `onclose`,
    `onerror`, `onmessage`), which become method calls; timers are fields
    holding what they would run, and their firing is a method call. What the
    client sends and what it hands to listeners is recorded in logs. */
module WebSocket {
  import opened Wrappers
  import opened Numbers

  /** `reconnectInterval`, `maxReconnectAttempts` and the backoff ceiling. */
  const ReconnectInterval: int := 5000
  const MaxReconnectAttempts: int := 10
  const MaxBackoff: int := 30000
  /** The close code of a normal closure (section 7.4.1 of RFC 6455). */
  const NormalClosure: int := 1000
  const TokenStorageKey: string := "homegenie_auth_token"

  datatype ConnectionState = ConnectionState(
    isConnected: bool,
    isConnecting: bool,
    reconnectAttempts: int,
    lastConnected: Option<int>,
    lastError: Option<string>)

  const InitialState := ConnectionState(false, false, 0, None, None)

  /** The payloads the client itself builds, plus server data passed through. */
  datatype Payload =
    | Connected
    | Disconnected(code: int, reason: string)
    | ConnectionFailed(error: string)
    | Timestamp(at: int)
    | AuthToken(token: string)
    | Json(text: string)

  /** A parsed incoming message or an outgoing frame: `{ type, data }`. */
  datatype Message = Message(kind: string, data: Payload)

  /** A listener is known by its identity only. */
  type ListenerId = nat

  /** One `emit`: the event, the listeners it reached, the data. */
  datatype Emission = Emission(event: string, reached: set<ListenerId>, data: Payload)

  /** The socket the client opened: base URL and `token` query parameter. */
  datatype SocketRequest = SocketRequest(url: string, token: Option<string>)

  // Connection state transitions

  /** `connect` from idle: connecting, previous error cleared. */
  function Connecting(s: ConnectionState): (r: ConnectionState)
    ensures r.isConnecting && r.isConnected == s.isConnected && r.lastError == None
    ensures r.reconnectAttempts == s.reconnectAttempts && r.lastConnected == s.lastConnected
  {
    s.(isConnecting := true, lastError := None)
  }

  /** `onopen`. */
  function Opened(s: ConnectionState, now: int): (r: ConnectionState)
    ensures r.isConnected && !r.isConnecting && r.reconnectAttempts == 0
    ensures r.lastConnected == Some(now) && r.lastError == s.lastError
  {
    s.(isConnected := true, isConnecting := false, reconnectAttempts := 0, lastConnected := Some(now))
  }

  /** Whether `onclose` schedules a reconnect. */
  function ShouldReconnect(code: int, attempts: int): (b: bool)
    ensures b <==> code != NormalClosure && attempts < MaxReconnectAttempts
  {
    code != NormalClosure && attempts < MaxReconnectAttempts
  }

  /** `onclose`, including the increment done by `scheduleReconnect`. */
  function Closed(s: ConnectionState, code: int): (r: ConnectionState)
    ensures !r.isConnected && !r.isConnecting
    ensures r.reconnectAttempts ==
      if ShouldReconnect(code, s.reconnectAttempts) then s.reconnectAttempts + 1 else s.reconnectAttempts
    ensures r.lastConnected == s.lastConnected && r.lastError == s.lastError
  {
    var attempts := if ShouldReconnect(code, s.reconnectAttempts) then s.reconnectAttempts + 1 else s.reconnectAttempts;
    s.(isConnected := false, isConnecting := false, reconnectAttempts := attempts)
  }

  /** `onerror`: the connected flag is left alone. */
  function Errored(s: ConnectionState): (r: ConnectionState)
    ensures !r.isConnecting && r.isConnected == s.isConnected && r.lastError == Some("Connection error")
    ensures r.reconnectAttempts == s.reconnectAttempts && r.lastConnected == s.lastConnected
  {
    s.(isConnecting := false, lastError := Some("Connection error"))
  }

  /** `disconnect`. */
  function DisconnectedState(s: ConnectionState): (r: ConnectionState)
    ensures !r.isConnected && !r.isConnecting && r.reconnectAttempts == 0
    ensures r.lastConnected == s.lastConnected && r.lastError == s.lastError
  {
    s.(isConnected := false, isConnecting := false, reconnectAttempts := 0)
  }

  /** The states the client can be in: never both connected and connecting,
      and at most `maxReconnectAttempts` attempts counted. */
  predicate GoodState(s: ConnectionState) {
    0 <= s.reconnectAttempts <= MaxReconnectAttempts && !(s.isConnected && s.isConnecting)
  }

  lemma TransitionsKeepGoodState(s: ConnectionState, now: int, code: int)
    requires GoodState(s)
    ensures !s.isConnected && !s.isConnecting ==> GoodState(Connecting(s))
    ensures GoodState(Opened(s, now)) && GoodState(Closed(s, code))
    ensures GoodState(Errored(s)) && GoodState(DisconnectedState(s))
  {
  }

  /** A normal closure never schedules a reconnect and leaves the count alone. */
  lemma NormalClosureStaysClosed(s: ConnectionState)
    ensures !ShouldReconnect(NormalClosure, s.reconnectAttempts)
    ensures Closed(s, NormalClosure).reconnectAttempts == s.reconnectAttempts
  {
  }

  // Backoff

  /** `Math.min(reconnectInterval * 2^(attempts - 1), 30000)`; `scheduleReconnect`
      computes it after incrementing, so `attempts` is at least 1. */
  function BackoffDelay(attempts: int): (d: int)
    requires attempts >= 1
    ensures ReconnectInterval <= d <= MaxBackoff
  {
    var raw := ReconnectInterval * Pow2(attempts - 1);
    if raw < MaxBackoff then raw else MaxBackoff
  }

  /** The delay doubles from 5 s until it reaches the 30 s ceiling at the
      fourth attempt and stays there. */
  lemma {:induction false} BackoffSchedule(attempts: int)
    requires attempts >= 1
    ensures attempts == 1 ==> BackoffDelay(attempts) == 5000
    ensures attempts == 2 ==> BackoffDelay(attempts) == 10000
    ensures attempts == 3 ==> BackoffDelay(attempts) == 20000
    ensures attempts >= 4 ==> BackoffDelay(attempts) == MaxBackoff
    ensures BackoffDelay(attempts) <= BackoffDelay(attempts + 1)
  {
    Pow2Monotone(attempts - 1);
    if attempts >= 4 {
      Pow2AtLeast8(attempts - 1);
    } else {
      assert Pow2(0) == 1;
      assert Pow2(1) == 2;
      assert Pow2(2) == 4;
      assert Pow2(3) == 8;
    }
  }

  lemma {:induction false} Pow2AtLeast8(n: nat)
    requires n >= 3
    ensures Pow2(n) >= 8
  {
    if n > 3 {
      Pow2AtLeast8(n - 1);
    } else {
      assert Pow2(3) == 2 * Pow2(2) == 4 * Pow2(1) == 8 * Pow2(0);
    }
  }

  /** The delays scheduled when every connection attempt fails with an
      abnormal close, starting from `attempts` counted attempts. */
  function RetryDelays(attempts: int, closes: nat): (ds: seq<int>)
    requires 0 <= attempts <= MaxReconnectAttempts
    decreases closes
  {
    if closes == 0 || attempts >= MaxReconnectAttempts then []
    else [BackoffDelay(attempts + 1)] + RetryDelays(attempts + 1, closes - 1)
  }

  function Sum(ds: seq<int>): int {
    if ds == [] then 0 else ds[0] + Sum(ds[1..])
  }

  /** A client that keeps failing gives up: from a fresh start it schedules at
      most ten reconnects, each at most 30 s away, 245 s of waiting in all. */
  lemma {:induction false} RetriesGiveUp(attempts: int, closes: nat)
    requires 0 <= attempts <= MaxReconnectAttempts
    ensures |RetryDelays(attempts, closes)| ==
      if closes < MaxReconnectAttempts - attempts then closes else MaxReconnectAttempts - attempts
    ensures forall i :: 0 <= i < |RetryDelays(attempts, closes)| ==> RetryDelays(attempts, closes)[i] <= MaxBackoff
    ensures attempts == 0 ==> Sum(RetryDelays(attempts, closes)) <= 245000
    decreases closes
  {
    if closes > 0 && attempts < MaxReconnectAttempts {
      RetriesGiveUp(attempts + 1, closes - 1);
      if attempts == 0 {
        SumOfRetryDelays(closes);
      }
    }
  }

  /** From the third counted attempt on, every delay is the 30 s ceiling. */
  lemma {:induction false} DelaysFromFour(attempts: int, closes: nat)
    requires 3 <= attempts <= MaxReconnectAttempts
    ensures Sum(RetryDelays(attempts, closes)) == MaxBackoff * |RetryDelays(attempts, closes)|
    ensures |RetryDelays(attempts, closes)| <= MaxReconnectAttempts - attempts
    decreases closes
  {
    if closes > 0 && attempts < MaxReconnectAttempts {
      BackoffSchedule(attempts + 1);
      DelaysFromFour(attempts + 1, closes - 1);
    }
  }

  lemma SumCons(a: int, ds: seq<int>)
    ensures Sum([a] + ds) == a + Sum(ds)
  {
    assert ([a] + ds)[1..] == ds;
  }

  lemma {:induction false} SumOfRetryDelays(closes: nat)
    requires closes > 0
    ensures Sum(RetryDelays(0, closes)) <= 245000
  {
    BackoffSchedule(1);
    BackoffSchedule(2);
    BackoffSchedule(3);
    SumCons(5000, RetryDelays(1, closes - 1));
    if closes > 1 {
      SumCons(10000, RetryDelays(2, closes - 2));
      if closes > 2 {
        SumCons(20000, RetryDelays(3, closes - 3));
        DelaysFromFour(3, closes - 3);
      }
    }
  }

  // Listener registry

  /** Every event in the registry has at least one listener. */
  predicate NoEmptySets(m: map<string, set<ListenerId>>) {
    forall e :: e in m ==> m[e] != {}
  }

  /** `on(event, listener)`. */
  function Subscribe(m: map<string, set<ListenerId>>, event: string, l: ListenerId): (r: map<string, set<ListenerId>>)
    ensures event in r && l in r[event]
    ensures forall e :: e != event ==> (e in r <==> e in m) && (e in m ==> r[e] == m[e])
  {
    m[event := (if event in m then m[event] else {}) + {l}]
  }

  /** The function `on` returns, and `off(event, listener)`. */
  function Unsubscribe(m: map<string, set<ListenerId>>, event: string, l: ListenerId): (r: map<string, set<ListenerId>>)
    ensures event in r ==> l !in r[event]
    ensures forall e :: e != event ==> (e in r <==> e in m) && (e in m ==> r[e] == m[e])
  {
    if event !in m then m
    else if m[event] - {l} == {} then m - {event}
    else m[event := m[event] - {l}]
  }

  /** `off(event)` without a listener. */
  function DropEvent(m: map<string, set<ListenerId>>, event: string): (r: map<string, set<ListenerId>>)
    ensures event !in r
    ensures forall e :: e != event ==> (e in r <==> e in m) && (e in m ==> r[e] == m[e])
  {
    m - {event}
  }

  lemma RegistryKeepsSetsNonEmpty(m: map<string, set<ListenerId>>, event: string, l: ListenerId)
    requires NoEmptySets(m)
    ensures NoEmptySets(Subscribe(m, event, l))
    ensures NoEmptySets(Unsubscribe(m, event, l))
    ensures NoEmptySets(DropEvent(m, event))
  {
  }

  /** Unsubscribing a listener that was just added restores the registry. */
  lemma UnsubscribeUndoesSubscribe(m: map<string, set<ListenerId>>, event: string, l: ListenerId)
    requires NoEmptySets(m)
    requires event in m ==> l !in m[event]
    ensures Unsubscribe(Subscribe(m, event, l), event, l) == m
  {
    var r := Unsubscribe(Subscribe(m, event, l), event, l);
    if event in m {
      assert (m[event] + {l}) - {l} == m[event];
    }
    assert forall e :: e in r <==> e in m;
  }

  /** Unsubscribing an unknown listener changes nothing. */
  lemma UnsubscribeUnknownIsNoOp(m: map<string, set<ListenerId>>, event: string, l: ListenerId)
    requires NoEmptySets(m)
    requires event in m ==> l !in m[event]
    ensures Unsubscribe(m, event, l) == m
  {
    if event in m {
      assert m[event] - {l} == m[event];
    }
  }

  /** `emit`: the listeners registered for the event, if any, are reached. */
  function EmitLog(m: map<string, set<ListenerId>>, event: string, data: Payload): (log: seq<Emission>)
    ensures |log| <= 1
    ensures |log| == 1 <==> event in m
    ensures event in m ==> log[0] == Emission(event, m[event], data)
  {
    if event in m then [Emission(event, m[event], data)] else []
  }

  // Incoming messages

  datatype Action = ReplyPong | Ignore | EmitEvent(event: string, data: Payload)

  /** `handleMessage`'s switch: `ping` is answered, `pong` is swallowed, and
      every other type, the three `auth_*` types included, is emitted under
      its own name with its data. */
  function Dispatch(m: Message): (a: Action)
    ensures m.kind == "ping" <==> a == ReplyPong
    ensures m.kind == "pong" <==> a == Ignore
    ensures a.EmitEvent? <==> m.kind != "ping" && m.kind != "pong"
    ensures a.EmitEvent? ==> a.event == m.kind && a.data == m.data
  {
    match m.kind
    case "ping" => ReplyPong
    case "pong" => Ignore
    case "auth_required" => EmitEvent("auth_required", m.data)
    case "auth_success" => EmitEvent("auth_success", m.data)
    case "auth_failed" => EmitEvent("auth_failed", m.data)
    case _ => EmitEvent(m.kind, m.data)
  }

  /** A value JavaScript treats as true: a token that is present and non-empty. */
  function Truthy(token: Option<string>): (b: bool)
    ensures b <==> token.Some? && token.value != ""
  {
    token.Some? && token.value != ""
  }

  class WebSocketClient {
    var url: string
    var authToken: Option<string>
    var state: ConnectionState
    /** `ws`: the socket last opened, until `disconnect` drops it. */
    var socket: Option<SocketRequest>
    var pingActive: bool
    /** `reconnectTimer`: the delay of the timer the field holds. The field is
        not cleared when the timer fires, only by `disconnect`. */
    var reconnectTimer: Option<int>
    var listeners: map<string, set<ListenerId>>
    /** Frames handed to `ws.send`, in order. */
    var sent: seq<Message>
    /** Listener deliveries, in order. */
    var emitted: seq<Emission>
    /** Codes passed to `ws.close`, in order. */
    var closeCodes: seq<int>

    predicate Valid()
      reads this
    {
      GoodState(state) && NoEmptySets(listeners)
    }

    /** `new WebSocketClient(baseUrl)`: `baseUrl || config.WS_BASE_URL`, and
        the token stored under `homegenie_auth_token`. */
    constructor(baseUrl: Option<string>, defaultUrl: string, storedToken: Option<string>)
      ensures Valid()
      ensures url == if Truthy(baseUrl) then baseUrl.value else defaultUrl
      ensures authToken == storedToken && state == InitialState && socket == None
      ensures !pingActive && reconnectTimer == None && listeners == map[]
      ensures sent == [] && emitted == [] && closeCodes == []
    {
      url := if Truthy(baseUrl) then baseUrl.value else defaultUrl;
      authToken := storedToken;
      state := InitialState;
      socket := None;
      pingActive := false;
      reconnectTimer := None;
      listeners := map[];
      sent := [];
      emitted := [];
      closeCodes := [];
    }

    function IsConnected(): (b: bool)
      reads this
      ensures b == state.isConnected
    {
      state.isConnected
    }

    /** `connect`: a no-op while connecting or connected; otherwise opens a
        socket carrying the token when there is one. `socketCreated` says
        whether `new URL` and `new WebSocket` succeed; when they throw, the
        thrown message is recorded as the last error. */
    method Connect(socketCreated: bool, thrownMessage: string)
      requires Valid()
      modifies this
      ensures Valid()
      ensures old(state.isConnecting || state.isConnected) ==> unchanged(this)
      ensures !old(state.isConnecting || state.isConnected) && socketCreated ==>
        state == Connecting(old(state)) &&
        socket == Some(SocketRequest(url, if Truthy(authToken) then authToken else None))
      ensures !old(state.isConnecting || state.isConnected) && !socketCreated ==>
        state == old(state).(lastError := Some(thrownMessage)) && socket == old(socket)
      ensures unchanged(this`url, this`authToken, this`pingActive, this`reconnectTimer, this`listeners)
      ensures unchanged(this`sent, this`emitted, this`closeCodes)
    {
      if state.isConnecting || state.isConnected {
        return;
      }
      state := Connecting(state);
      if socketCreated {
        socket := Some(SocketRequest(url, if Truthy(authToken) then authToken else None));
      } else {
        state := state.(isConnecting := false, lastError := Some(thrownMessage));
      }
    }

    /** `emit`. */
    method Emit(event: string, data: Payload)
      modifies this`emitted
      ensures emitted == old(emitted) + EmitLog(listeners, event, data)
    {
      emitted := emitted + EmitLog(listeners, event, data);
    }

    /** `ws.onopen`. */
    method OnOpen(now: int)
      requires Valid()
      modifies this
      ensures Valid()
      ensures state == Opened(old(state), now) && pingActive
      ensures emitted == old(emitted) + EmitLog(listeners, "connection", Connected)
      ensures unchanged(this`url, this`authToken, this`socket, this`reconnectTimer, this`listeners)
      ensures unchanged(this`sent, this`closeCodes)
    {
      state := Opened(state, now);
      pingActive := true;
      Emit("connection", Connected);
    }

    /** `scheduleReconnect`: one more attempt, with its backoff delay. */
    method ScheduleReconnect()
      requires 0 <= state.reconnectAttempts
      modifies this`state, this`reconnectTimer
      ensures state == old(state).(reconnectAttempts := old(state.reconnectAttempts) + 1)
      ensures reconnectTimer == Some(BackoffDelay(state.reconnectAttempts))
    {
      state := state.(reconnectAttempts := state.reconnectAttempts + 1);
      reconnectTimer := Some(BackoffDelay(state.reconnectAttempts));
    }

    /** `ws.onclose`: both flags cleared, ping stopped, listeners told, and a
        reconnect scheduled unless the closure was normal or the attempts are
        used up. */
    method OnClose(code: int, reason: string)
      requires Valid()
      modifies this
      ensures Valid()
      ensures state == Closed(old(state), code) && !pingActive
      ensures emitted == old(emitted) + EmitLog(listeners, "connection", Disconnected(code, reason))
      ensures reconnectTimer ==
        if ShouldReconnect(code, old(state.reconnectAttempts))
        then Some(BackoffDelay(old(state.reconnectAttempts) + 1)) else old(reconnectTimer)
      ensures unchanged(this`url, this`authToken, this`socket, this`listeners, this`sent, this`closeCodes)
    {
      state := state.(isConnected := false, isConnecting := false);
      pingActive := false;
      Emit("connection", Disconnected(code, reason));
      if code != NormalClosure && state.reconnectAttempts < MaxReconnectAttempts {
        ScheduleReconnect();
      }
    }

    /** `ws.onerror`. */
    method OnError()
      requires Valid()
      modifies this
      ensures Valid()
      ensures state == Errored(old(state))
      ensures emitted == old(emitted) + EmitLog(listeners, "connection", ConnectionFailed("Connection failed"))
      ensures unchanged(this`url, this`authToken, this`socket, this`pingActive, this`reconnectTimer)
      ensures unchanged(this`listeners, this`sent, this`closeCodes)
    {
      state := state.(lastError := Some("Connection error"), isConnecting := false);
      Emit("connection", ConnectionFailed("Connection failed"));
    }

    /** `disconnect`: timers cleared, the socket closed normally and dropped,
        and the state reset. */
    method Disconnect()
      requires Valid()
      modifies this
      ensures Valid()
      ensures state == DisconnectedState(old(state))
      ensures reconnectTimer == None && !pingActive && socket == None
      ensures closeCodes == old(closeCodes) + (if old(socket).Some? then [NormalClosure] else [])
      ensures unchanged(this`url, this`authToken, this`listeners, this`sent, this`emitted)
    {
      reconnectTimer := None;
      pingActive := false;
      if socket.Some? {
        closeCodes := closeCodes + [NormalClosure];
        socket := None;
      }
      state := state.(isConnected := false, isConnecting := false, reconnectAttempts := 0);
    }

    /** `send`: refused unless connected with a socket; `delivered` says
        whether `ws.send` accepts the frame rather than throwing. Never throws. */
    method Send(kind: string, data: Payload, delivered: bool) returns (ok: bool)
      modifies this`sent
      ensures ok <==> state.isConnected && socket.Some? && delivered
      ensures sent == old(sent) + (if ok then [Message(kind, data)] else [])
    {
      if !state.isConnected || socket.None? {
        return false;
      }
      if !delivered {
        return false;
      }
      sent := sent + [Message(kind, data)];
      ok := true;
    }

    /** `on`; the function it returns runs `off(event, listener)`'s steps. */
    method On(event: string, l: ListenerId)
      requires Valid()
      modifies this`listeners
      ensures Valid()
      ensures listeners == Subscribe(old(listeners), event, l)
    {
      RegistryKeepsSetsNonEmpty(listeners, event, l);
      listeners := Subscribe(listeners, event, l);
    }

    /** `off(event, listener?)`. */
    method Off(event: string, l: Option<ListenerId>)
      requires Valid()
      modifies this`listeners
      ensures Valid()
      ensures listeners == if l.None? then DropEvent(old(listeners), event) else Unsubscribe(old(listeners), event, l.value)
    {
      if l.None? {
        RegistryKeepsSetsNonEmpty(listeners, event, 0);
        listeners := DropEvent(listeners, event);
        return;
      }
      RegistryKeepsSetsNonEmpty(listeners, event, l.value);
      listeners := Unsubscribe(listeners, event, l.value);
    }

    /** `ws.onmessage` followed by `handleMessage`; `None` is data that
        `JSON.parse` rejects, which is only logged. */
    method OnMessage(parsed: Option<Message>, now: int, delivered: bool)
      modifies this`sent, this`emitted
      ensures parsed.None? ==> sent == old(sent) && emitted == old(emitted)
      ensures parsed.Some? && Dispatch(parsed.value) == ReplyPong ==>
        emitted == old(emitted) &&
        sent == old(sent) + (if state.isConnected && socket.Some? && delivered
                             then [Message("pong", Timestamp(now))] else [])
      ensures parsed.Some? && Dispatch(parsed.value) == Ignore ==> sent == old(sent) && emitted == old(emitted)
      ensures parsed.Some? && Dispatch(parsed.value).EmitEvent? ==>
        sent == old(sent) &&
        emitted == old(emitted) + EmitLog(listeners, parsed.value.kind, parsed.value.data)
    {
      if parsed.None? {
        return;
      }
      match Dispatch(parsed.value)
      case ReplyPong =>
        var _ := Send("pong", Timestamp(now), delivered);
      case Ignore =>
      case EmitEvent(event, data) =>
        Emit(event, data);
    }

    /** One tick of the 30 s ping interval. */
    method PingTick(now: int, delivered: bool)
      requires pingActive  // the interval fires only between `startPing` and `stopPing`
      modifies this`sent
      ensures sent == old(sent) + (if state.isConnected && socket.Some? && delivered
                                   then [Message("ping", Timestamp(now))] else [])
    {
      if state.isConnected {
        var _ := Send("ping", Timestamp(now), delivered);
      }
    }

    /** The reconnect timer firing: `connect` again unless connected. */
    method OnReconnectTimer(socketCreated: bool, thrownMessage: string)
      requires Valid()
      requires reconnectTimer.Some?  // only a timer `scheduleReconnect` set can fire
      modifies this
      ensures Valid()
      ensures old(state.isConnected || state.isConnecting) ==> unchanged(this)
      ensures !old(state.isConnected || state.isConnecting) && socketCreated ==>
        state == Connecting(old(state)) &&
        socket == Some(SocketRequest(url, if Truthy(authToken) then authToken else None))
      ensures !old(state.isConnected || state.isConnecting) && !socketCreated ==>
        state == old(state).(lastError := Some(thrownMessage)) && socket == old(socket)
      ensures unchanged(this`url, this`authToken, this`pingActive, this`reconnectTimer, this`listeners)
      ensures unchanged(this`sent, this`emitted, this`closeCodes)
    {
      if !state.isConnected {
        Connect(socketCreated, thrownMessage);
      }
    }

    /** `setAuthToken`: store the token and, when connected, send it. */
    method SetAuthToken(token: Option<string>, delivered: bool)
      modifies this`authToken, this`sent
      ensures authToken == token
      ensures sent == old(sent) + (if state.isConnected && Truthy(token) && socket.Some? && delivered
                                   then [Message("auth", AuthToken(token.value))] else [])
    {
      authToken := token;
      if state.isConnected && Truthy(token) {
        var _ := Send("auth", AuthToken(token.value), delivered);
      }
    }

    /** The `storage` listener of `setupAuthListener`: a change of the token
        key updates the token and, when connected, reconnects with it. */
    method OnStorageChange(key: string, newValue: Option<string>, socketCreated: bool, thrownMessage: string)
      requires Valid()
      modifies this
      ensures Valid()
      ensures key != TokenStorageKey ==> unchanged(this)
      ensures key == TokenStorageKey ==> authToken == newValue
      ensures key == TokenStorageKey && old(state.isConnected) ==>
        reconnectTimer == None && !pingActive &&
        closeCodes == old(closeCodes) + (if old(socket).Some? then [NormalClosure] else []) &&
        (socketCreated ==>
          state == Connecting(DisconnectedState(old(state))) &&
          socket == Some(SocketRequest(url, if Truthy(newValue) then newValue else None)))
      ensures key == TokenStorageKey && old(state.isConnected) && !socketCreated ==>
        state == DisconnectedState(old(state)).(lastError := Some(thrownMessage)) && socket == None
      ensures key == TokenStorageKey && !old(state.isConnected) ==>
        state == old(state) && socket == old(socket) && closeCodes == old(closeCodes) &&
        reconnectTimer == old(reconnectTimer) && pingActive == old(pingActive)
      ensures unchanged(this`url, this`listeners, this`sent, this`emitted)
    {
      if key == TokenStorageKey {
        authToken := newValue;
        if state.isConnected {
          Disconnect();
          Connect(socketCreated, thrownMessage);
        }
      }
    }
  }
}
