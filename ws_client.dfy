/** The reusable WebSocket client service: a connection-lifecycle state
    machine. The browser's sockets are represented by their ready states,
    numbered in the order the client created them; the browser's events on
    socket `id` are calls of the `On...` methods with that id, and every
    callback the client invokes is recorded, in order, in `events`. */
module TransportClient {

  import opened Optional
  import opened JsValues

  /** `WebSocket.readyState`. */
  datatype ReadyState = Connecting | Open | Closing | Closed

  /** `maxReconnectAttempts`: a number, or `Infinity`. */
  datatype Limit = Unlimited | AtMost(n: int)

  /** The options the constructor reads; `None` is an absent option. */
  datatype Options = Options(reconnectDelay: Option<int>, autoReconnect: Option<bool>,
                             maxReconnectAttempts: Option<int>)

  /** What `onMessage` receives: the parsed JSON, or the raw text when the
      text is not JSON. */
  datatype Payload = Parsed(value: JsValue) | Raw(text: string)

  /** Where an error reported to `onError` came from. */
  datatype Failure = SocketError | ConstructorThrew | SerializationThrew

  /** One invocation of a user callback. */
  datatype Event =
    | Connected
    | Disconnected(code: int, reason: string)
    | Delivered(payload: Payload)
    | Failed(failure: Failure)
    | Reconnecting(attempt: int)

  /** `getStatus()`; `readyState` is `None` when there is no socket. */
  datatype Status = Status(isConnected: bool, isConnecting: bool, reconnectAttempts: int,
                           readyState: Option<ReadyState>)

  const DefaultReconnectDelay: int := 2000
  const MaxReconnectDelay: int := 30000

  /** `options.reconnectDelay || 2000`: an absent or zero delay falls back
      to the default. */
  function DelayOption(delay: Option<int>): (d: int)
    ensures d != 0
    ensures delay.Some? && delay.value != 0 ==> d == delay.value
    ensures delay.None? || delay.value == 0 ==> d == DefaultReconnectDelay
  {
    match delay
    case Some(x) => if x != 0 then x else DefaultReconnectDelay
    case None => DefaultReconnectDelay
  }

  /** `options.maxReconnectAttempts || Infinity`: an absent or zero limit
      means no limit. */
  function LimitOption(max: Option<int>): (l: Limit)
    ensures l.Unlimited? <==> max.None? || max.value == 0
    ensures l.AtMost? ==> l.n == max.value
  {
    match max
    case Some(x) => if x != 0 then AtMost(x) else Unlimited
    case None => Unlimited
  }

  /** `options.autoReconnect !== false`: only an explicit `false` turns
      reconnecting off. */
  function AutoReconnectOption(auto: Option<bool>): (on: bool)
    ensures !on <==> auto == Some(false)
  {
    auto != Some(false)
  }

  /** `reconnectAttempts < maxReconnectAttempts`. */
  predicate Below(attempts: int, limit: Limit) {
    match limit
    case Unlimited => true
    case AtMost(n) => attempts < n
  }

  /** What `JSON.parse` makes of an incoming text, with the raw text as the
      fallback. */
  function PayloadOf(text: string, parseJson: string -> Option<JsValue>): (p: Payload)
    ensures p.Parsed? <==> parseJson(text).Some?
    ensures p.Parsed? ==> p.value == parseJson(text).value
    ensures p.Raw? ==> p.text == text
  {
    match parseJson(text)
    case Some(v) => Parsed(v)
    case None => Raw(text)
  }

  /** What `close()` does to a socket's ready state. */
  function AfterClose(r: ReadyState): (q: ReadyState)
    ensures q == Closing || q == Closed
    ensures r == Closing || r == Closed ==> q == r
  {
    match r
    case Connecting => Closing
    case Open => Closing
    case _ => r
  }

  class WebSocketClient {
    const url: string
    const reconnectDelay: int
    /** Declared and never read: the reconnect delay does not grow. */
    const maxReconnectDelay: int
    const maxReconnectAttempts: Limit

    /** The ready state of every socket created so far, by creation order. */
    var sockets: seq<ReadyState>
    /** `this.ws`: the index of the current socket, `None` for `null`. */
    var ws: Option<nat>
    /** Sockets whose `onclose` and `onerror` handlers were removed. */
    var detached: set<nat>
    /** `this.reconnectInterval`: the period of the pending repeating
        reconnect timer, `None` when there is none. */
    var reconnectInterval: Option<int>
    var autoReconnect: bool
    var reconnectAttempts: int
    var isConnected: bool
    var isConnecting: bool
    /** Every callback invocation so far. */
    var events: seq<Event>
    /** Every message handed to the socket's `send`. */
    var transmitted: seq<string>

    /** The current socket exists; every other socket is closing or closed,
        so only the current one can still open; only sockets already
        created were detached, and never the current one; a client that is
        connected or connecting has a socket; a pending timer belongs to an episode already counted and
        repeats at the configured delay. */
    ghost predicate Valid()
      reads this
    {
      && (ws.Some? ==> ws.value < |sockets|)
      && (forall i :: 0 <= i < |sockets| && ws != Some(i) ==> sockets[i] == Closing || sockets[i] == Closed)
      && (forall d :: d in detached ==> d < |sockets|)
      && (ws.Some? ==> ws.value !in detached)
      && (isConnected ==> ws.Some?)
      && (isConnecting ==> ws.Some?)
      && (reconnectInterval.Some? ==> reconnectAttempts >= 1 && reconnectInterval == Some(reconnectDelay))
      && reconnectAttempts >= 0
    }

    /** `getStatus()`: the flags and the attempt count as they stand, and
        the ready state of the current socket. A client reported as
        connected or connecting always reports a ready state, and the
        count it reports is never negative. */
    function GetStatus(): (st: Status)
      reads this
      requires Valid()
      ensures st.isConnected || st.isConnecting ==> st.readyState.Some?
      ensures st.reconnectAttempts >= 0
      ensures st.readyState.None? <==> ws.None?
      ensures ws.Some? ==> st.readyState == Some(sockets[ws.value])
      ensures st.isConnected == isConnected && st.isConnecting == isConnecting
      ensures st.reconnectAttempts == reconnectAttempts
    {
      Status(isConnected, isConnecting, reconnectAttempts,
             if ws.Some? then Some(sockets[ws.value]) else None)
    }

    /** Whether a close would schedule a reconnect. */
    predicate MayReconnect()
      reads this
    {
      autoReconnect && Below(reconnectAttempts, maxReconnectAttempts)
    }

    constructor(url: string, options: Options)
      ensures this.url == url
      ensures reconnectDelay == DelayOption(options.reconnectDelay)
      ensures maxReconnectDelay == MaxReconnectDelay
      ensures autoReconnect == AutoReconnectOption(options.autoReconnect)
      ensures maxReconnectAttempts == LimitOption(options.maxReconnectAttempts)
      ensures ws.None? && sockets == [] && detached == {} && reconnectInterval.None?
      ensures reconnectAttempts == 0 && !isConnected && !isConnecting
      ensures events == [] && transmitted == []
      ensures Valid()
    {
      this.url := url;
      reconnectDelay := DelayOption(options.reconnectDelay);
      maxReconnectDelay := MaxReconnectDelay;
      autoReconnect := AutoReconnectOption(options.autoReconnect);
      maxReconnectAttempts := LimitOption(options.maxReconnectAttempts);
      sockets := [];
      ws := None;
      detached := {};
      reconnectInterval := None;
      reconnectAttempts := 0;
      isConnected := false;
      isConnecting := false;
      events := [];
      transmitted := [];
    }

    /** `connect()`: nothing while the current socket is open or
        connecting; otherwise a new socket becomes the current one, or,
        when the socket constructor throws (`rejected`), the error is
        reported and no socket is created. */
    method Connect(rejected: bool)
      requires Valid()
      modifies this`sockets, this`ws, this`isConnecting, this`events
      ensures Valid()
      ensures old(ws.Some? && (sockets[ws.value] == Open || sockets[ws.value] == Connecting)) ==>
        sockets == old(sockets) && ws == old(ws) && isConnecting == old(isConnecting) && events == old(events)
      ensures !old(ws.Some? && (sockets[ws.value] == Open || sockets[ws.value] == Connecting)) ==>
        if rejected then
          sockets == old(sockets) && ws == old(ws) && !isConnecting && events == old(events) + [Failed(ConstructorThrew)]
        else
          sockets == old(sockets) + [Connecting] && ws == Some(old(|sockets|)) && isConnecting && events == old(events)
    {
      if ws.Some? && (sockets[ws.value] == Open || sockets[ws.value] == Connecting) {
        return;
      }
      isConnecting := true;
      if rejected {
        isConnecting := false;
        events := events + [Failed(ConstructorThrew)];
      } else {
        sockets := sockets + [Connecting];
        ws := Some(|sockets| - 1);
      }
    }

    /** The `open` event of socket `id`: connected, the attempt count
        forgotten and the reconnect timer cancelled. */
    method OnOpen(id: nat)
      requires Valid() && id < |sockets| && sockets[id] == Connecting
      modifies this`sockets, this`isConnected, this`isConnecting, this`reconnectAttempts,
               this`reconnectInterval, this`events
      ensures Valid()
      ensures ws == Some(id) && sockets == old(sockets)[id := Open]
      ensures isConnected && !isConnecting && reconnectAttempts == 0 && reconnectInterval.None?
      ensures events == old(events) + [Connected]
      ensures GetStatus() == Status(true, false, 0, Some(Open))
    {
      sockets := sockets[id := Open];
      isConnected := true;
      isConnecting := false;
      reconnectAttempts := 0;
      reconnectInterval := None;
      events := events + [Connected];
    }

    /** The `message` event of socket `id`: the parsed frame, or the raw
        text when it is not JSON, goes to `onMessage`. The same `catch`
        that handles a parse failure also catches the callback throwing on
        the parsed frame (`callbackThrows`), which then receives the raw
        text as well; an exception from that second call leaves the
        handler. */
    method OnMessage(id: nat, text: string, parseJson: string -> Option<JsValue>, callbackThrows: bool)
      requires Valid() && id < |sockets| && sockets[id] == Open
      modifies this`events
      ensures parseJson(text).None? ==> events == old(events) + [Delivered(Raw(text))]
      ensures parseJson(text).Some? && !callbackThrows ==>
        events == old(events) + [Delivered(Parsed(parseJson(text).value))]
      ensures parseJson(text).Some? && callbackThrows ==>
        events == old(events) + [Delivered(Parsed(parseJson(text).value)), Delivered(Raw(text))]
    {
      var payload := PayloadOf(text, parseJson);
      events := events + [Delivered(payload)];
      if payload.Parsed? && callbackThrows {
        events := events + [Delivered(Raw(text))];
      }
    }

    /** The `error` event of socket `id`: reported to `onError`, then the
        CURRENT socket is closed (which, for the socket that failed, leads
        to its `close` event). A socket whose handlers were removed reports
        nothing. */
    method OnError(id: nat)
      requires Valid() && id < |sockets|
      modifies this`sockets, this`events
      ensures Valid()
      ensures id in detached ==> sockets == old(sockets) && events == old(events)
      ensures id !in detached ==> events == old(events) + [Failed(SocketError)]
      ensures id !in detached && ws.Some? ==> sockets == old(sockets)[ws.value := AfterClose(old(sockets)[ws.value])]
      ensures id !in detached && ws.None? ==> sockets == old(sockets)
    {
      if id in detached {
        return;
      }
      events := events + [Failed(SocketError)];
      if ws.Some? {
        sockets := sockets[ws.value := AfterClose(sockets[ws.value])];
      }
    }

    /** The `close` event of socket `id`: the socket is closed, the client
        reads as neither connected nor connecting, `onDisconnected` is
        told, and a reconnect is scheduled while reconnecting is on and the
        attempt limit is not reached. A socket whose handlers were removed
        only closes. */
    method OnClose(id: nat, code: int, reason: string)
      requires Valid() && id < |sockets|
      modifies this`sockets, this`isConnected, this`isConnecting, this`events,
               this`reconnectAttempts, this`reconnectInterval
      ensures Valid()
      ensures sockets == old(sockets)[id := Closed]
      ensures id in detached ==>
        && isConnected == old(isConnected) && isConnecting == old(isConnecting) && events == old(events)
        && reconnectAttempts == old(reconnectAttempts) && reconnectInterval == old(reconnectInterval)
      ensures id !in detached ==> !isConnected && !isConnecting
      ensures id !in detached && !old(MayReconnect()) ==>
        && events == old(events) + [Disconnected(code, reason)]
        && reconnectAttempts == old(reconnectAttempts) && reconnectInterval == old(reconnectInterval)
      ensures id !in detached && old(MayReconnect()) && old(reconnectInterval).Some? ==>
        && events == old(events) + [Disconnected(code, reason)]
        && reconnectAttempts == old(reconnectAttempts) && reconnectInterval == old(reconnectInterval)
      ensures id !in detached && old(MayReconnect()) && old(reconnectInterval).None? ==>
        && events == old(events) + [Disconnected(code, reason), Reconnecting(old(reconnectAttempts) + 1)]
        && reconnectAttempts == old(reconnectAttempts) + 1 && reconnectInterval == Some(reconnectDelay)
    {
      sockets := sockets[id := Closed];
      if id in detached {
        return;
      }
      isConnected := false;
      isConnecting := false;
      events := events + [Disconnected(code, reason)];
      if autoReconnect && Below(reconnectAttempts, maxReconnectAttempts) {
        ScheduleReconnect();
      }
    }

    /** `scheduleReconnect()`: nothing while a reconnect timer is pending;
        otherwise one more attempt is counted, reported to
        `onReconnecting`, and a timer that repeats `connect` every
        `reconnectDelay` ms is started. */
    method ScheduleReconnect()
      requires Valid()
      modifies this`reconnectAttempts, this`reconnectInterval, this`events
      ensures Valid()
      ensures old(reconnectInterval).Some? ==>
        reconnectAttempts == old(reconnectAttempts) && reconnectInterval == old(reconnectInterval) && events == old(events)
      ensures old(reconnectInterval).None? ==>
        && reconnectAttempts == old(reconnectAttempts) + 1 && reconnectInterval == Some(reconnectDelay)
        && events == old(events) + [Reconnecting(reconnectAttempts)]
    {
      if reconnectInterval.Some? {
        return;
      }
      reconnectAttempts := reconnectAttempts + 1;
      events := events + [Reconnecting(reconnectAttempts)];
      reconnectInterval := Some(reconnectDelay);
    }

    /** The repeating reconnect timer fires and calls `connect()`. */
    method OnReconnectTimer(rejected: bool)
      requires Valid() && reconnectInterval.Some?
      modifies this`sockets, this`ws, this`isConnecting, this`events
      ensures Valid()
      ensures old(ws.Some? && (sockets[ws.value] == Open || sockets[ws.value] == Connecting)) ==>
        sockets == old(sockets) && ws == old(ws) && isConnecting == old(isConnecting) && events == old(events)
      ensures !old(ws.Some? && (sockets[ws.value] == Open || sockets[ws.value] == Connecting)) ==>
        if rejected then
          sockets == old(sockets) && ws == old(ws) && !isConnecting && events == old(events) + [Failed(ConstructorThrew)]
        else
          sockets == old(sockets) + [Connecting] && ws == Some(old(|sockets|)) && isConnecting && events == old(events)
    {
      Connect(rejected);
    }

    /** `disconnect()`: reconnecting is turned off for good, the timer is
        cancelled, the current socket loses its `close` and `error`
        handlers and is closed, and the client forgets it. */
    method Disconnect()
      requires Valid()
      modifies this`autoReconnect, this`reconnectInterval, this`detached, this`sockets, this`ws,
               this`isConnected, this`isConnecting, this`reconnectAttempts
      ensures Valid()
      ensures !autoReconnect && reconnectInterval.None? && ws.None?
      ensures !isConnected && !isConnecting && reconnectAttempts == 0
      ensures old(ws).Some? ==>
        && detached == old(detached) + {old(ws).value}
        && sockets == old(sockets)[old(ws).value := AfterClose(old(sockets)[old(ws).value])]
      ensures old(ws).None? ==> detached == old(detached) && sockets == old(sockets)
      ensures GetStatus() == Status(false, false, 0, None)
    {
      autoReconnect := false;
      reconnectInterval := None;
      if ws.Some? {
        detached := detached + {ws.value};
        sockets := sockets[ws.value := AfterClose(sockets[ws.value])];
        ws := None;
      }
      isConnected := false;
      isConnecting := false;
      reconnectAttempts := 0;
    }

    /** `send(data)`: refused (false, nothing sent) unless the client is
        connected and the current socket is open; a string goes out as it
        is, any other value serialised, and a value that cannot be
        serialised is reported to `onError` and refused. */
    method Send(data: JsValue, stringify: JsValue -> Option<string>) returns (ok: bool)
      requires Valid()
      modifies this`transmitted, this`events
      ensures ok <==> isConnected && ws.Some? && sockets[ws.value] == Open
                      && (!data.Str? ==> stringify(data).Some?)
      ensures ok && data.Str? ==> transmitted == old(transmitted) + [data.s]
      ensures ok && !data.Str? ==> transmitted == old(transmitted) + [stringify(data).value]
      ensures !ok ==> transmitted == old(transmitted)
      ensures !(isConnected && ws.Some? && sockets[ws.value] == Open) ==> events == old(events)
      ensures isConnected && ws.Some? && sockets[ws.value] == Open && !ok ==>
        events == old(events) + [Failed(SerializationThrew)]
      ensures ok ==> events == old(events)
    {
      if !isConnected || ws.None? || sockets[ws.value] != Open {
        return false;
      }
      if !data.Str? && stringify(data).None? {
        events := events + [Failed(SerializationThrew)];
        return false;
      }
      var message := if data.Str? then data.s else stringify(data).value;
      transmitted := transmitted + [message];
      return true;
    }
  }
}
