# Telemetry client of the Jamek dashboard, in Dafny

This project models the real-time telemetry core of the Jamek industrial
dashboard and proves properties of the model. The dashboard is a Vue
application that watches a frequency inverter through an ESP32 gateway.
The project covers four parts of it:

- **The telemetry composable** (`useWebSocket`). It holds one socket to the
  gateway, reconnects with capped exponential backoff and keeps a
  100-entry log. It also shows an alert banner, and reduces inbound topic
  frames (`rodando`, `frequencia`, `frequencia_setpoint`, `uptime`,
  `direcao`, `online`, `erro`, `stats`, `server/heartbeat`) into display
  state. It runs a ping timer, a message watchdog and a heartbeat-age
  check. It sends commands only while the socket is open and the ESP32
  is online, except for pings, which need only the open socket.
  - `TelemetryState` holds the composable's state as one `Snapshot` value,
    and each event as a pure transition on it.
  - `TelemetryProperties` proves what those transitions promise.
  - `Telemetry.TelemetrySession` is the composable as a class. Its fields
    are the module-level refs and timer handles. Each of its methods is
    proved to leave exactly the state the matching transition describes.
    Each event method (the constructor, `Connect`, `OnOpen`, `OnClose`,
    `OnError`, `ScheduleReconnect`, `OnReconnectTimer`, `Disconnect`, the
    timer methods, `OnAlertDismissTimer`, `OnMessage`, `SendCommand`) also
    keeps the invariant `Inv`. The internal steps they are built from
    (`AddLog`, `ShowAlert`, `HideAlert`, `ShowToast` and the `Handle...`
    topic handlers) are not proved to keep it on their own. `HandleRunning`,
    for one, sets the motor flag even without a connection; frames reach
    it only through `OnMessage`, on an open socket.
  - `JsValues` models the JavaScript values frames carry, with loose
    equality, `Number(...)` and `String(...)`.
  - `Decimal` renders and parses whole numbers.
  - `TelemetryFormat` holds the constants, the backoff, the uptime text,
    the URL and the bounded log.
- **The transport client** (`WebSocketClient`), in
  `TransportClient.WebSocketClient`. It is a class that models the
  browser's sockets by their ready states, numbered in creation order. It
  records every user callback, in order, as an event trace.
- **The toast list** (`useToast`), in `Toasts.ToastList`. A loop finds the
  first toast with a given id, and removal splices it out.
- **The status label lookup** (`getStatusLabel`), in `StatusLabels`.

Several things the program gets from outside become function parameters:
`JSON.parse`, `JSON.stringify` and the number-to-text conversion of
`String(...)`. The clock (`Date.now`) becomes a `now` parameter. The
page's protocol is a constructor argument. Timers are represented by
pending flags or armed-at times, and their firing is a method call.

Three behaviours of the code are worth knowing before reading the model:
- The transport client reconnects with a fixed-delay repeating timer.
  `maxReconnectDelay` is stored but never read, so the delay never grows.
- The composable's `disconnect` only closes the socket. The resulting
  `close` event schedules a reconnect as any other close does.
- The socket URL is a fixed host and path. Only `ws://` or `wss://`
  depends on the page protocol.

## Model

| member | source | states |
|---|---|---|
| Decimal.ParseNatToString | src/composables/useWebSocket.js:107-111 | Parsing the decimal text of a count gives back the count: numbers put into log and uptime texts can be read back. |
| Decimal.NatToStringInjective | src/composables/useWebSocket.js:107-111 | Different counts render as different texts. |
| JsValues.CoercesToOneExactly | src/composables/useWebSocket.js:171 | The flag test `value == "1" \|\| value == 1` (CoercesToOne) holds exactly for `true`, the number 1 and strings whose numeric value is 1; never for null, undefined, NaN, plain objects or other numbers. |
| JsValues.NumberOf | src/composables/useWebSocket.js:179 | `Number(value)` is a number or NaN, and converting it again changes nothing. |
| TelemetryFormat.BackoffDelay | src/composables/useWebSocket.js:311-314 | The delay of any attempt lies between 3 s and 30 s. |
| TelemetryFormat.BackoffMonotone | src/composables/useWebSocket.js:311-314 | The delay never shrinks as the attempt count grows. |
| TelemetryFormat.BackoffSteps | src/composables/useWebSocket.js:311-314 | The first attempt waits 3 s; below the cap each next attempt waits 1.5 times longer. |
| TelemetryFormat.BackoffCapped | src/composables/useWebSocket.js:311-314 | From the seventh attempt on the delay is exactly the 30 s cap. |
| TelemetryFormat.Round | src/composables/useWebSocket.js:316 | `Math.round` lands within half a unit of its argument, halves going up. |
| TelemetryFormat.DelaySeconds | src/composables/useWebSocket.js:316-318 | The announced wait is a whole number of seconds between 3 and 30. |
| TelemetryFormat.SecureExactlyOnHttps | src/composables/useWebSocket.js:52-55 | `getWebSocketUrl` (WebSocketUrl) depends on the page only through whether it is https: two pages get the same URL exactly when both or neither are, and the URL starts with `wss://` exactly on an https page. |
| TelemetryFormat.UptimeParts | src/composables/useWebSocket.js:102-104 | Hours, minutes and seconds recombine to the uptime, with minutes and seconds below 60. |
| TelemetryFormat.RenderUptimeDetermines | src/composables/useWebSocket.js:106-112 | Equal rendered texts have equal hours and minutes, and equal seconds when there are no hours. |
| TelemetryFormat.AfterLeadDetermines | src/composables/useWebSocket.js:106-112 | The text after the leading number gives back its unit and the number after it. |
| TelemetryFormat.FormatUptimeDetermines | src/composables/useWebSocket.js:101-113 | Of `formatUptime` (FormatUptime): two uptimes with the same display agree to the minute, and exactly when below one hour. |
| TelemetryFormat.BoundedAppend | src/composables/useWebSocket.js:65-73 | The entry goes last; the oldest entry is dropped exactly when the log already held 100. |
| TelemetryFormat.BoundedAppendWithinCapacity | src/composables/useWebSocket.js:71-73 | A log within 100 entries stays within 100, and a full one stays full. |
| TelemetryState.InitialInv | src/composables/useWebSocket.js:18-48 | The initial state satisfies the invariant. |
| TelemetryState.LogIsBoundedFifo | src/composables/useWebSocket.js:57-74 | `addLog` (the Log transition) appends last, keeps within capacity, and on a full log drops exactly the oldest entry. |
| TelemetryProperties.LogKeepsInv | src/composables/useWebSocket.js:57-74 | Logging keeps the log within capacity. |
| TelemetryProperties.ConnectKeepsInv | src/composables/useWebSocket.js:234-244 | `connect` keeps the invariant. |
| TelemetryProperties.OpenKeepsInv | src/composables/useWebSocket.js:246-261 | The `open` handler keeps the invariant. |
| TelemetryProperties.CloseKeepsInv | src/composables/useWebSocket.js:263-281 | The `close` handler, including the reconnect it schedules, keeps the invariant. |
| TelemetryProperties.ErrorKeepsInv | src/composables/useWebSocket.js:283-286 | The `error` handler keeps the invariant. |
| TelemetryProperties.DisconnectKeepsInv | src/composables/useWebSocket.js:326-330 | `disconnect` keeps the invariant. |
| TelemetryProperties.ScheduleReconnectKeepsInv | src/composables/useWebSocket.js:306-324 | Scheduling a reconnect keeps the invariant: the stored delay is the backoff of the attempt count. |
| TelemetryProperties.PingKeepsInv | src/composables/useWebSocket.js:119-127 | A ping tick keeps the invariant. |
| TelemetryProperties.WatchdogKeepsInv | src/composables/useWebSocket.js:139-146 | The watchdog firing keeps the invariant. |
| TelemetryProperties.HeartbeatCheckKeepsInv | src/composables/useWebSocket.js:357-365 | The heartbeat check keeps the invariant. |
| TelemetryProperties.DismissKeepsInv | src/composables/useWebSocket.js:82-84 | A warning banner's hide timer keeps the invariant. |
| TelemetryProperties.SendCommandKeepsInv | src/composables/useWebSocket.js:332-354 | `sendCommand` keeps the invariant. |
| TelemetryProperties.MessageKeepsInv | src/composables/useWebSocket.js:288-297 | Handling any frame on an open socket keeps the invariant. |
| TelemetryProperties.TopicNameRoundTrip | src/composables/useWebSocket.js:163-217 | Each recognised topic string selects its own handler. |
| TelemetryProperties.TopicOfName | src/composables/useWebSocket.js:163-217 | A string selects a handler exactly when it is that handler's topic: no two topics share one. |
| TelemetryProperties.RunningKeepsLink | src/composables/useWebSocket.js:170-176 | The `rodando` handler leaves the link, reconnect policy, timers and outbox alone. |
| TelemetryProperties.OnlineKeepsLink | src/composables/useWebSocket.js:195-209 | The `online` handler leaves the link, reconnect policy, timers and outbox alone. |
| TelemetryProperties.ErrorKeepsLink | src/composables/useWebSocket.js:211-215 | The `erro` handler leaves the link, reconnect policy, timers and outbox alone. |
| TelemetryProperties.StatsKeepsLink | src/composables/useWebSocket.js:217-231 | The `stats` handler leaves the link, reconnect policy, timers and outbox alone. |
| TelemetryProperties.MergedStatsKeepsLink | src/composables/useWebSocket.js:221-227 | Merging a stats payload touches only the counters and the system state: the result is the old state with just those two replaced. |
| TelemetryProperties.DirectionKeepsLink | src/composables/useWebSocket.js:190-193 | The `direcao` handler leaves the link, reconnect policy, timers and outbox alone. |
| TelemetryProperties.StatsTopicKeepsLink | src/composables/useWebSocket.js:217-231 | Dispatching a `stats` frame leaves the link alone. |
| TelemetryProperties.ApplyTopicKeepsLink | src/composables/useWebSocket.js:170-231 | No topic handler (ApplyTopic) touches the link, reconnect policy, timers or outbox. |
| TelemetryProperties.ApplyMessageLeavesLink | src/composables/useWebSocket.js:160-232 | Handling any frame (ApplyMessage, the body of `handleMessage`) leaves the link, reconnect policy, timers and outbox alone, and keeps the log within capacity. |
| TelemetryProperties.ConnectGuard | src/composables/useWebSocket.js:234-244 | The Connect transition changes nothing while the socket is connecting or open; otherwise it logs the attempt and creates a connecting socket to the URL, touching nothing else. |
| TelemetryProperties.OpenResets | src/composables/useWebSocket.js:246-261 | The SocketOpened transition: connected, attempts 0, base delay restored, banner hidden, no reconnect pending, ping and watchdog started. |
| TelemetryProperties.BoundedAppendKeeps | src/composables/useWebSocket.js:65-73 | An entry past the head of the log, or the one appended, survives the next append. |
| TelemetryProperties.CloseBehaviour | src/composables/useWebSocket.js:263-281 | The SocketClosed transition: the link, ESP32 and motor read as down and both timers stop. An unclean close logs an error and raises an error banner; a clean close logs a warning and leaves the banner. A reconnect is pending afterwards. |
| TelemetryProperties.ScheduleReconnectBackoff | src/composables/useWebSocket.js:306-324 | The ScheduleReconnect transition: while a reconnect is pending nothing changes; otherwise the count grows by one and the delay becomes its backoff, capped and never shorter than before. |
| TelemetryProperties.CloseSchedulesNextAttempt | src/composables/useWebSocket.js:306-314 | A close with no reconnect pending schedules the next attempt with its backoff delay. |
| TelemetryProperties.ReconnectScenario | src/composables/useWebSocket.js:306-323 | Two unclean closes with the timer firing between them schedule attempt 1 after 3 s and attempt 2 after 4.5 s. |
| TelemetryProperties.AfterFrameIsTopic | src/composables/useWebSocket.js:160-232 | ApplyMessage on a frame other than a heartbeat stamps the update time and then runs exactly its topic's handler (ApplyTopic). |
| TelemetryProperties.OnlineHandlerEffect | src/composables/useWebSocket.js:195-209 | `online` sets the ESP32 flag to whether the value reads as 1. Offline also stops the motor and raises "ESP32 OFFLINE" as an error banner. Online hides the banner and leaves the motor flag. |
| TelemetryProperties.RunningHandlerEffect | src/composables/useWebSocket.js:170-176 | `rodando` sets the motor flag, and logs only a change seen while the ESP32 is online. |
| TelemetryProperties.DirectionOfText | src/composables/useWebSocket.js:190-193 | A text reads as forward exactly when it has six letters, each the matching letter of "frente" in either case ("FRENTE", "Frente", "fReNtE"); every other text is reverse. |
| TelemetryProperties.DirectionOfNumber | src/composables/useWebSocket.js:190-193 | A number reads as reverse, given that its decimal text (`String(n)`) holds no letter r, as JavaScript's never does. |
| TelemetryProperties.DirectionOfNonText | src/composables/useWebSocket.js:190-193 | Null, undefined, booleans, NaN and objects always read as reverse. |
| TelemetryProperties.ErrorHandlerEffect | src/composables/useWebSocket.js:211-215 | `erro` raises "Erro: <value>" as an error banner. `err++` adds exactly one to a numeric error counter and leaves NaN in one that is not numeric; the other counters stay. |
| TelemetryProperties.StatsHandlerEffect | src/composables/useWebSocket.js:217-227 | `stats` with an object, or with a text that parses to one, overwrites exactly the counters the payload defines. While online the system reads "Estável" exactly when more than 10 reads were counted, otherwise "Transitório"; offline it is untouched. |
| TelemetryProperties.MergedObjectEffect | src/composables/useWebSocket.js:221-227 | Merging an object payload (MergedStats) overwrites exactly its defined counters and sets the system state from the read counter while online. |
| TelemetryProperties.UnusableStats | src/composables/useWebSocket.js:217-230 | A stats payload that does not parse, or is null or undefined, changes nothing. |
| TelemetryProperties.NullFrameEffect | src/composables/useWebSocket.js:288-297 | MessageReceived on a `null` frame: reading its topic throws, so only the arrival and update times change, and the watchdog is not rearmed. |
| TelemetryProperties.HeartbeatFrameEffect | src/composables/useWebSocket.js:163-166 | A heartbeat only records its arrival and rearms the watchdog. |
| TelemetryProperties.WatchdogWarnsOnSilence | src/composables/useWebSocket.js:139-146 | The WatchdogFired transition raises its warning exactly when the silence exceeds 20 s, and the watchdog is spent afterwards. |
| TelemetryProperties.WatchdogAfterFrame | src/composables/useWebSocket.js:288-297 | A frame received at t records t as its arrival and rearms the watchdog at t, so a firing at any time up to 20 s later finds no silence and only spends the watchdog. |
| TelemetryProperties.HeartbeatCheck | src/composables/useWebSocket.js:357-365 | The HeartbeatChecked transition warns exactly when a heartbeat was seen and the last is older than 45 s; otherwise nothing changes. |
| TelemetryProperties.SendCommandGate | src/composables/useWebSocket.js:332-354 | The SendCommand transition sends exactly when the socket is open and the ESP32 is online or the command is a ping. A sent command's frame is appended to the outbox; a refused one sends nothing and requests a toast. |
| TelemetryProperties.CommandFrameShape | src/composables/useWebSocket.js:332-345 | The frame (CommandFrame) is `{cmd, value}`, or `{cmd}` alone when the value is null or left out (an explicit `undefined` takes the default, null). |
| Telemetry.TelemetrySession.constructor | src/composables/useWebSocket.js:18-48 | The session starts in the initial state, which satisfies the invariant. |
| Telemetry.TelemetrySession.AddLog | src/composables/useWebSocket.js:57-74 | The log becomes the bounded append of the new entry. |
| Telemetry.TelemetrySession.ShowAlert | src/composables/useWebSocket.js:76-86 | The banner shows the message and type; a warning also arms a hide timer. |
| Telemetry.TelemetrySession.HideAlert | src/composables/useWebSocket.js:88-90 | The banner is hidden and nothing else changes. |
| Telemetry.TelemetrySession.OnAlertDismissTimer | src/composables/useWebSocket.js:82-84 | A warning's hide timer hides whatever banner is showing, and keeps the invariant. |
| Telemetry.TelemetrySession.ShowToast | src/composables/useWebSocket.js:335 | One toast request is appended. |
| Telemetry.TelemetrySession.Connect | src/composables/useWebSocket.js:234-244 | The state becomes the `connect` transition's, keeping the invariant. |
| Telemetry.TelemetrySession.OnOpen | src/composables/useWebSocket.js:246-261 | Only a connecting socket opens; the state becomes the `open` transition's, keeping the invariant. |
| Telemetry.TelemetrySession.OnClose | src/composables/useWebSocket.js:263-281 | The state becomes the `close` transition's, keeping the invariant. |
| Telemetry.TelemetrySession.OnError | src/composables/useWebSocket.js:283-286 | One error entry is logged, keeping the invariant. |
| Telemetry.TelemetrySession.ScheduleReconnect | src/composables/useWebSocket.js:306-324 | The state becomes the backoff transition's, keeping the invariant. |
| Telemetry.TelemetrySession.OnReconnectTimer | src/composables/useWebSocket.js:320-323 | Only a pending reconnect timer fires; its flag clears and `connect` runs, keeping the invariant. |
| Telemetry.TelemetrySession.Disconnect | src/composables/useWebSocket.js:326-330 | A connecting or open socket starts closing; nothing else changes. |
| Telemetry.TelemetrySession.OnPingTimer | src/composables/useWebSocket.js:119-127 | Only a running ping interval ticks; a ping frame goes out exactly when the socket is open. |
| Telemetry.TelemetrySession.OnWatchdogTimer | src/composables/useWebSocket.js:139-146 | Only an armed watchdog fires; the state becomes the WatchdogFired transition's, keeping the invariant. |
| Telemetry.TelemetrySession.OnHeartbeatCheck | src/composables/useWebSocket.js:357-365 | The state becomes the heartbeat check's, keeping the invariant. |
| Telemetry.TelemetrySession.HandleRunning | src/composables/useWebSocket.js:170-176 | The state becomes the `rodando` handler's. |
| Telemetry.TelemetrySession.HandleOnline | src/composables/useWebSocket.js:195-209 | The state becomes the `online` handler's. |
| Telemetry.TelemetrySession.HandleError | src/composables/useWebSocket.js:211-215 | The state becomes the `erro` handler's. |
| Telemetry.TelemetrySession.HandleStats | src/composables/useWebSocket.js:217-231 | The state becomes the `stats` handler's. |
| Telemetry.TelemetrySession.CountStats | src/composables/useWebSocket.js:221-223 | Each counter is the payload's when defined, the stored one otherwise. |
| Telemetry.TelemetrySession.HandleTopic | src/composables/useWebSocket.js:170-231 | The state becomes the dispatched topic handler's. |
| Telemetry.TelemetrySession.HandleMessage | src/composables/useWebSocket.js:160-232 | The state and the completion flag are the frame reducer's. |
| Telemetry.TelemetrySession.OnMessage | src/composables/useWebSocket.js:288-297 | The state becomes the `message` transition's, keeping the invariant. |
| Telemetry.TelemetrySession.SendCommand | src/composables/useWebSocket.js:332-354 | The result and state are the command gate's, keeping the invariant. |
| TransportClient.AfterClose | src/services/WebSocketClient.js:65 | `close()` leaves a socket closing or closed, and changes nothing on one already closing or closed. |
| TransportClient.WebSocketClient.GetStatus | src/services/WebSocketClient.js:143-150 | A client reported as connected or connecting always reports a ready state, and the reported attempt count is never negative; the ready state is the current socket's, or none without a socket. |
| TransportClient.WebSocketClient.constructor | src/services/WebSocketClient.js:5-25 | Defaults: delay 2000, reconnecting on unless explicitly false, unlimited attempts, 30000 as the unused maximum delay; no socket, no timer, flags false, count 0. |
| TransportClient.WebSocketClient.Connect | src/services/WebSocketClient.js:28-86 | Nothing changes while the current socket is open or connecting. Otherwise a new connecting socket becomes current; if the constructor throws, the error is reported and the client is not connecting. |
| TransportClient.WebSocketClient.OnOpen | src/services/WebSocketClient.js:40-49 | Only the current socket can open. It leaves the client connected and not connecting, with count 0 and no timer, reports `onConnected`, and `getStatus()` then reads connected, count 0, socket open. |
| TransportClient.WebSocketClient.OnMessage | src/services/WebSocketClient.js:51-59 | A text that is not JSON is delivered raw, once. A JSON text is delivered parsed; if the callback throws on it, the same `catch` delivers the raw text as well. |
| TransportClient.WebSocketClient.OnError | src/services/WebSocketClient.js:61-66 | `onError` is told and the current socket is closed; a detached socket reports nothing. |
| TransportClient.WebSocketClient.OnClose | src/services/WebSocketClient.js:68-79 | The client reads neither connected nor connecting, and `onDisconnected` is told. A reconnect is scheduled only when reconnecting is on and the limit is not reached. A close while a timer is pending is not counted, and a detached socket reports nothing. |
| TransportClient.WebSocketClient.ScheduleReconnect | src/services/WebSocketClient.js:89-100 | With a timer pending nothing changes. Otherwise the count grows by exactly one, `onReconnecting` gets the new count, and a timer repeating at the fixed delay starts. |
| TransportClient.WebSocketClient.OnReconnectTimer | src/services/WebSocketClient.js:97-99 | Only a pending timer ticks, and each tick is exactly a `connect()`: a no-op while the socket is open or connecting, otherwise a new connecting socket or, when the constructor throws, a reported error. |
| TransportClient.WebSocketClient.Disconnect | src/services/WebSocketClient.js:103-122 | Reconnecting is off for good and the timer cancelled. The current socket loses its close and error handlers and is closed. `getStatus()` then reads not connected, not connecting, count 0, no socket. |
| TransportClient.WebSocketClient.Send | src/services/WebSocketClient.js:125-140 | Sends exactly when connected with an open current socket and the data serialises. A string value goes out verbatim, any other value serialised. A serialisation failure is reported to `onError`, and a refused send transmits nothing. |
| Toasts.FirstIndex | src/composables/useToast.js:16 | The first position holding the id, or none when no toast has it. |
| Toasts.RemoveFirstSplices | src/composables/useToast.js:15-19 | Removal (RemoveFirst, the `splice` at the found index) takes out the first toast with the id, keeping all others in order; it changes nothing when no toast has the id. |
| Toasts.RemoveFirstLength | src/composables/useToast.js:15-19 | The list shrinks by exactly one when a toast has the id, and is unchanged otherwise. |
| Toasts.RemoveFirstRemovesOne | src/composables/useToast.js:16-18 | The result together with the removed toast is the original list. |
| Toasts.RemoveFirstKeepsLaterTwin | src/composables/useToast.js:16 | Of two toasts sharing an id, only the earlier is removed; the later moves up one place. |
| Toasts.ToastList.constructor | src/composables/useToast.js:3 | The list starts empty. |
| Toasts.ToastList.ShowToast | src/composables/useToast.js:6-13 | Exactly one toast is appended at the end: the time as id, the message, and the type, "info" when none is given. |
| Toasts.ToastList.FindIndex | src/composables/useToast.js:16 | `findIndex` returns the first position holding the id, or -1 exactly when there is none. |
| Toasts.ToastList.RemoveToast | src/composables/useToast.js:15-20 | The list becomes the list with its first matching toast removed. |
| StatusLabels.KnownLabels | src/data/mockData.js:2-7 | `getStatusLabel` (GetStatusLabel) maps online, offline, fault and warning to Online, Offline, Falha and Alerta. |
| StatusLabels.GetStatusLabelIdempotent | src/data/mockData.js:2-8 | Labelling twice is labelling once, since no label is itself a status. |
| StatusLabels.EmptyOnlyFromEmpty | src/data/mockData.js:8 | The label is empty exactly when the status is. |
| StatusLabels.AsWrittenAgrees | src/data/mockData.js:8 | The lookup as written gives the label exactly on the table's statuses and on names that are not inherited object members. |
| StatusLabels.ConstructorIsNotLabelled | src/data/mockData.js:8 | The status "constructor" yields the `Object` function, not a label or the status itself. |

## Left out

- Time of day: log times and the "last update" text are `toLocaleTimeString` renderings. The model keeps the raw `now` instead.
- Console output (`console.log`, `warn`, `error`) has no effect on state and is not modelled.
- `JSON.parse`, `JSON.stringify` and the number-to-text part of `String(...)` are parameters.
- `Number(...)` on strings handles optional blanks and sign, digits and a decimal fraction. Exponents, hexadecimal, binary (`0b1`), octal (`0o7`) and `Infinity` read as NaN, so for example `"0b1" == 1` in the `online` handler and `err++` on `"0b1"` differ from JavaScript. The model does not follow JavaScript there.
- Number values are mathematical reals, not IEEE doubles. Rounding and `-0` are not modelled.
- The composable's `connect` catch path (socket constructor throwing, line 299-303) is left out. The fixed URL is always well formed.
- Send failures are left out: the ping send (lines 121-125) and the command send (lines 347-353) are not modelled as throwing. `send` on an open socket does not throw, and the frames hold only serialisable values.
- Composable events are modelled for the current socket only. A superseded socket can no longer deliver events, for instance one closed by `disconnect` and replaced by a later `connect` before its `close` event arrives.
- Each call of `useWebSocket()` starts another heartbeat-check interval (line 357). The model has one check; each extra copy is an extra `OnHeartbeatCheck` call, which on a stale heartbeat raises the warning again and arms one more hide timer.
- JsValues.ToJsString: an object that `JSON.parse` builds with its own `toString` key (such as `{"toString":1}`) makes `String(...)`, `Number(...)`, loose equality, `++` and `>` throw in JavaScript. The model converts every object as `"[object Object]"`. For such a value the `rodando`, `frequencia`, `frequencia_setpoint`, `uptime`, `direcao`, `online` and `erro` handlers, and a `stats` payload whose `read` is such an object, throw in the source: the frame's later writes and the watchdog restart do not happen. The model instead completes the handler, for example setting the direction to "Reverso" and, for `stats`, the system state to "Transitório".
- `formattedUptime` (line 115) is not a stored field. TelemetryFormat.FormatUptime renders whole non-negative seconds only, while the uptime ref may hold NaN or fractions.
- The composable's toast requests are recorded as a list. Delivery to the shared toast list is not modelled.
- Arrays are not values of the model: `JSON.parse` can produce them, and JavaScript's loose equality and `String(...)` treat `[1]`, `["1"]` and `["frente"]` like their single element, so a frame whose value is such an array reads differently from the model's plain objects.
- TransportClient.WebSocketClient: user callbacks are recorded as events. Re-entrant callbacks, such as an `onDisconnected` that calls `connect`, are not modelled.
- TransportClient.Options: non-numeric delays and limits (strings, NaN) and non-boolean `autoReconnect` values are not modelled.
- TransportClient.WebSocketClient.OnError: the browser's own change of the failed socket's ready state before the `error` event is not modelled. Only the handler's `close()` of the current socket is.
- Toast auto-dismissal (`setTimeout` of 4000 ms) is a later call of `RemoveToast` with the toast's id.

## Findings

| source | as written | input that shows it | evidently intended | confidence | as-written member | corrected member |
|---|---|---|---|---|---|---|
| src/data/mockData.js:8 | `labels[status] \|\| status` reads through the prototype chain of the table object | status "constructor" (also "toString", "__proto__", ...) yields a function or an object, not a string | a total lookup of the four own entries, returning any other status unchanged | not executed | StatusLabels.ConstructorIsNotLabelled | StatusLabels.GetStatusLabel |
