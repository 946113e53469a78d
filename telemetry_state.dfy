/** The module-level state of the telemetry composable as one value, and
    each of its event handlers as a pure transition on that value. The
    class in module Telemetry performs these transitions field by field;
    the lemmas here state what the transitions promise. */
module TelemetryState {

  import opened Optional
  import opened Decimal
  import opened JsValues
  import opened TelemetryFormat

  /** Kinds of log entries, alert banners and toasts. */
  datatype Severity = Info | Success | Warning | Error

  /** The `readyState` of a browser socket. */
  datatype ReadyState = Connecting | Open | Closing | Closed

  datatype Socket = Socket(url: string, state: ReadyState)

  /** A log line; `time` is the clock reading that the page formats as a
      local time of day. */
  datatype LogEntry = LogEntry(time: int, message: string, kind: Severity)

  /** Counters reported by the gateway, stored as received. */
  datatype Stats = Stats(cmd: JsValue, read: JsValue, err: JsValue)

  /** A toast the composable asked the toast list to show. */
  datatype ToastRequest = ToastRequest(message: string, kind: Severity)

  datatype Snapshot = Snapshot(
    ws: Option<Socket>,
    isConnected: bool,
    isESP32Online: bool,
    isRunning: bool,
    reconnectAttempts: nat,
    logs: seq<LogEntry>,
    alertMessage: string,
    alertType: Severity,
    showAlertBanner: bool,
    pendingDismissals: nat,         // warning banners whose 10 s hide timer is still pending
    currentFreq: JsValue,
    setpointFreq: JsValue,
    direction: string,
    uptime: JsValue,
    stats: Stats,
    lastUpdate: Option<int>,        // clock reading shown as "last update"; None shows "--:--:--"
    systemState: string,
    reconnectTimerPending: bool,
    pingTimerActive: bool,
    watchdogArmedAt: Option<int>,   // when the pending watchdog timer was started
    lastMessageTime: int,
    lastHeartbeatTime: int,
    currentReconnectInterval: real,
    outbox: seq<JsValue>,           // frames handed to the socket, before JSON serialisation
    toastRequests: seq<ToastRequest>)

  // Topics of the inbound frames.
  const HeartbeatTopic: string := "server/heartbeat"
  const RunningTopic: string := "inversor/status/rodando"
  const FrequencyTopic: string := "inversor/status/frequencia"
  const SetpointTopic: string := "inversor/status/frequencia_setpoint"
  const UptimeTopic: string := "inversor/status/uptime"
  const DirectionTopic: string := "inversor/status/direcao"
  const OnlineTopic: string := "inversor/status/online"
  const ErrorTopic: string := "inversor/status/erro"
  const StatsTopic: string := "inversor/status/stats"

  function Initial(): Snapshot {
    Snapshot(None, false, false, false, 0, [], "", Error, false, 0,
             Num(0.0), Num(0.0), "--", Num(0.0), Stats(Num(0.0), Num(0.0), Num(0.0)),
             None, "Aguardando...", false, false, None, 0, 0, ReconnectInterval, [], [])
  }

  predicate SocketIs(s: Snapshot, state: ReadyState) {
    s.ws.Some? && s.ws.value.state == state
  }

  /** What holds between events: the log is within capacity, the delay is
      the backoff for the current attempt count, a pending reconnect belongs
      to an attempt, the ping timer runs exactly while connected, and
      gateway, motor and watchdog state exist only while connected. */
  ghost predicate Inv(s: Snapshot) {
    && |s.logs| <= LogCapacity
    && s.currentReconnectInterval
         == (if s.reconnectAttempts == 0 then ReconnectInterval else BackoffDelay(s.reconnectAttempts))
    && (s.reconnectTimerPending ==> s.reconnectAttempts >= 1)
    && (s.pingTimerActive <==> s.isConnected)
    && (s.isConnected ==> s.ws.Some?)
    && (SocketIs(s, Open) ==> s.isConnected)
    && (s.isESP32Online ==> s.isConnected)
    && (s.isRunning ==> s.isConnected)
    && (s.watchdogArmedAt.Some? ==> s.isConnected)
  }

  lemma InitialInv()
    ensures Inv(Initial())
  {
  }

  // ---------------------------------------------------------------------
  // Log, alert banner, toasts
  // ---------------------------------------------------------------------

  /** `addLog`: one more entry in the bounded log. */
  function Log(s: Snapshot, now: int, message: string, kind: Severity): Snapshot {
    s.(logs := BoundedAppend(s.logs, LogEntry(now, message, kind)))
  }

  /** Show a banner; a warning banner also starts its 10 s hide timer. */
  function Alert(s: Snapshot, message: string, kind: Severity): Snapshot {
    s.(alertMessage := message, alertType := kind, showAlertBanner := true,
       pendingDismissals := if kind == Warning then s.pendingDismissals + 1 else s.pendingDismissals)
  }

  function Hide(s: Snapshot): Snapshot {
    s.(showAlertBanner := false)
  }

  /** A warning banner's hide timer fires: it hides whatever banner is
      showing by then, even an error banner raised after the warning. */
  function DismissTimerFired(s: Snapshot): Snapshot
    requires s.pendingDismissals > 0
  {
    s.(showAlertBanner := false, pendingDismissals := s.pendingDismissals - 1)
  }

  function Toast(s: Snapshot, message: string, kind: Severity): Snapshot {
    s.(toastRequests := s.toastRequests + [ToastRequest(message, kind)])
  }

  /** A log entry is appended last and the log keeps within capacity;
      appending to a full log drops exactly the oldest entry. */
  lemma LogIsBoundedFifo(s: Snapshot, now: int, message: string, kind: Severity)
    requires |s.logs| <= LogCapacity
    ensures var r := Log(s, now, message, kind);
      && |r.logs| <= LogCapacity
      && r.logs[|r.logs| - 1] == LogEntry(now, message, kind)
      && (|s.logs| < LogCapacity ==> r.logs[..|r.logs| - 1] == s.logs)
      && (|s.logs| == LogCapacity ==> r.logs[..|r.logs| - 1] == s.logs[1..])
  {
    var r := Log(s, now, message, kind);
    if |s.logs| == LogCapacity {
      assert r.logs == s.logs[1..] + [LogEntry(now, message, kind)];
    }
  }

  // ---------------------------------------------------------------------
  // Connection lifecycle
  // ---------------------------------------------------------------------

  /** `connect`: nothing while the socket is connecting or open; otherwise a
      log line naming the attempt and a new connecting socket. */
  function Connect(s: Snapshot, now: int, pageProtocol: string): Snapshot {
    if SocketIs(s, Connecting) || SocketIs(s, Open) then s
    else
      Log(s, now, "Conectando... (tentativa " + NatToString(s.reconnectAttempts + 1) + ")", Info)
        .(ws := Some(Socket(WebSocketUrl(pageProtocol), Connecting)))
  }

  /** The socket's `open` event. */
  function SocketOpened(s: Snapshot, now: int): Snapshot
    requires s.ws.Some?
  {
    var s1 := s.(reconnectAttempts := 0, currentReconnectInterval := ReconnectInterval,
                 isConnected := true, ws := Some(s.ws.value.(state := Open)));
    Hide(Log(s1, now, "Conectado ao Node-RED!", Success))
      .(reconnectTimerPending := false, pingTimerActive := true, watchdogArmedAt := Some(now))
  }

  /** `scheduleReconnect`: nothing while a reconnect timer is pending;
      otherwise one more attempt, waiting the backoff delay for it. */
  function ScheduleReconnect(s: Snapshot, now: int): Snapshot {
    if s.reconnectTimerPending then s
    else
      var attempts := s.reconnectAttempts + 1;
      var delay := BackoffDelay(attempts);
      Log(s.(reconnectAttempts := attempts, currentReconnectInterval := delay, reconnectTimerPending := true),
          now, "Próxima tentativa em " + NatToString(DelaySeconds(delay) as nat) + "s", Warning)
  }

  /** The reconnect timer fires: it is no longer pending, and `connect` runs. */
  function ReconnectTimerFired(s: Snapshot, now: int, pageProtocol: string): Snapshot {
    Connect(s.(reconnectTimerPending := false), now, pageProtocol)
  }

  /** The socket's `close` event: everything that depends on the link is
      reset, the close is logged (and, when unclean, raised as an error
      banner) and a reconnect is scheduled. */
  function SocketClosed(s: Snapshot, now: int, wasClean: bool): Snapshot {
    var s1 := s.(ws := None, isConnected := false, isESP32Online := false, isRunning := false,
                 pingTimerActive := false, watchdogArmedAt := None);
    var s2 := if wasClean then Log(s1, now, "Conexão fechada", Warning)
              else Alert(Log(s1, now, "Conexão perdida - reconectando...", Error),
                         "Conexão perdida - tentando reconectar...", Error);
    ScheduleReconnect(s2, now)
  }

  /** The socket's `error` event only logs; the close that follows does the rest. */
  function SocketErrored(s: Snapshot, now: int): Snapshot {
    Log(s, now, "Erro de conexão", Error)
  }

  /** `disconnect`: asks a connecting or open socket to close. The reconnect
      policy is untouched, so the close event that follows schedules a
      reconnect as any other close does. */
  function Disconnect(s: Snapshot): Snapshot {
    if SocketIs(s, Connecting) || SocketIs(s, Open) then s.(ws := Some(s.ws.value.(state := Closing)))
    else s
  }

  // ---------------------------------------------------------------------
  // Timers
  // ---------------------------------------------------------------------

  function PingFrame(now: int): JsValue {
    Obj(map["cmd" := Str("ping"), "timestamp" := Num(now as real)])
  }

  /** The ping interval fires: a ping goes out when the socket is open. */
  function PingTimerFired(s: Snapshot, now: int): Snapshot {
    if SocketIs(s, Open) then s.(outbox := s.outbox + [PingFrame(now)]) else s
  }

  /** The watchdog timer fires: it warns only when no message arrived for
      more than the timeout. */
  function WatchdogFired(s: Snapshot, now: int): Snapshot {
    var s1 := s.(watchdogArmedAt := None);
    if SilentTooLong(now, s.lastMessageTime) then
      Alert(Log(s1, now, "Sem dados - verificando conexão", Warning), "Sem atualizações do servidor", Warning)
    else s1
  }

  /** The periodic heartbeat check. */
  function HeartbeatChecked(s: Snapshot, now: int): Snapshot {
    if HeartbeatStale(now, s.lastHeartbeatTime) then Alert(s, "ESP32 pode estar offline", Warning) else s
  }

  // ---------------------------------------------------------------------
  // Inbound frames
  // ---------------------------------------------------------------------

  /** `direcao`: "frente" in any letter case is forward, anything else reverse. */
  function DirectionLabel(value: JsValue, numberText: real -> string): string {
    if AsciiLower(ToJsString(value, numberText)) == "frente" then "Frente" else "Reverso"
  }

  /** A counter of a `stats` payload replaces the stored one only when the
      payload defines it. */
  function StatField(payload: JsValue, key: string, current: JsValue): JsValue
    requires !payload.Null? && !payload.Undefined?
  {
    var v := Get(payload, key).value;
    if v != Undefined then v else current
  }

  /** `stats`: the payload is parsed when it is a string; a payload that
      fails to parse, or is null, throws before anything is written. */
  function ApplyStats(s: Snapshot, value: JsValue, parseJson: string -> Option<JsValue>): Snapshot {
    var parsed := if value.Str? then parseJson(value.s) else Some(value);
    if parsed.None? || parsed.value.Null? || parsed.value.Undefined? then s
    else MergedStats(s, parsed.value)
  }

  /** The defined counters of the payload replace the stored ones; while
      the gateway is online the system state follows the read counter. */
  function MergedStats(s: Snapshot, payload: JsValue): Snapshot
    requires !payload.Null? && !payload.Undefined?
  {
    var stats := Stats(StatField(payload, "cmd", s.stats.cmd),
                       StatField(payload, "read", s.stats.read),
                       StatField(payload, "err", s.stats.err));
    if s.isESP32Online then s.(stats := stats, systemState := ReadingState(stats.read))
    else s.(stats := stats)
  }

  /** More than 10 reads is a steady system, anything else (NaN included)
      a transient one. */
  function ReadingState(read: JsValue): string {
    if GreaterThan(read, 10.0) then "Estável" else "Transitório"
  }

  /** The topics the handler recognises; `OtherTopic` covers every other
      value, including a topic that is not a string. */
  datatype Topic =
    | HeartbeatFrame | RunningFrame | FrequencyFrame | SetpointFrame | UptimeFrame
    | DirectionFrame | OnlineFrame | ErrorFrame | StatsFrame | OtherTopic

  /** The topic string each recognised topic is published under. */
  function TopicName(t: Topic): string
    requires t != OtherTopic
  {
    match t
    case HeartbeatFrame => HeartbeatTopic
    case RunningFrame => RunningTopic
    case FrequencyFrame => FrequencyTopic
    case SetpointFrame => SetpointTopic
    case UptimeFrame => UptimeTopic
    case DirectionFrame => DirectionTopic
    case OnlineFrame => OnlineTopic
    case ErrorFrame => ErrorTopic
    case StatsFrame => StatsTopic
  }

  /** Which of the handler's strict (`===`) topic comparisons succeeds. */
  function TopicOf(topic: JsValue): Topic {
    if topic == Str(HeartbeatTopic) then HeartbeatFrame
    else if topic == Str(RunningTopic) then RunningFrame
    else if topic == Str(FrequencyTopic) then FrequencyFrame
    else if topic == Str(SetpointTopic) then SetpointFrame
    else if topic == Str(UptimeTopic) then UptimeFrame
    else if topic == Str(DirectionTopic) then DirectionFrame
    else if topic == Str(OnlineTopic) then OnlineFrame
    else if topic == Str(ErrorTopic) then ErrorFrame
    else if topic == Str(StatsTopic) then StatsFrame
    else OtherTopic
  }

  /** `rodando`: the motor runs when the value reads as 1; a change seen
      while the ESP32 is online is logged. */
  function ApplyRunning(s: Snapshot, value: JsValue, now: int): Snapshot {
    var running := CoercesToOne(value);
    var s1 := if running != s.isRunning && s.isESP32Online
              then Log(s, now, if running then "Inversor LIGADO" else "Inversor DESLIGADO", Info)
              else s;
    s1.(isRunning := running)
  }

  /** `online`: going offline stops the motor and raises an error banner,
      coming online hides the banner; both are logged. */
  function ApplyOnline(s: Snapshot, value: JsValue, now: int): Snapshot {
    if CoercesToOne(value) then
      Log(Hide(s.(isESP32Online := true, systemState := "ESP32 Online")), now, "ESP32 ONLINE", Success)
    else
      Log(Alert(s.(isESP32Online := false, isRunning := false, systemState := "ESP32 Offline"),
                "ESP32 OFFLINE", Error),
          now, "ESP32 OFFLINE", Error)
  }

  /** `erro`: an error banner and log line carrying the value, and one more
      error counted. */
  function ApplyError(s: Snapshot, value: JsValue, now: int, numberText: real -> string): Snapshot {
    var text := ToJsString(value, numberText);
    Log(Alert(s, "Erro: " + text, Error), now, "ERRO: " + text, Error)
      .(stats := s.stats.(err := Increment(s.stats.err)))
  }

  /** The effect of a frame with the given topic and value. */
  function ApplyTopic(s: Snapshot, topic: Topic, value: JsValue, now: int,
                      parseJson: string -> Option<JsValue>, numberText: real -> string): Snapshot
  {
    match topic
    case RunningFrame => ApplyRunning(s, value, now)
    case FrequencyFrame => s.(currentFreq := NumberOf(value))
    case SetpointFrame => s.(setpointFreq := NumberOf(value))
    case UptimeFrame => s.(uptime := NumberOf(value))
    case DirectionFrame => s.(direction := DirectionLabel(value, numberText))
    case OnlineFrame => ApplyOnline(s, value, now)
    case ErrorFrame => ApplyError(s, value, now, numberText)
    case StatsFrame => ApplyStats(s, value, parseJson)
    case _ => s
  }

  /** `handleMessage`: stamps the last-update time, then dispatches on the
      frame's topic. The second component is false when reading the topic
      threw (a null frame), which also skips the watchdog reset. */
  function ApplyMessage(s: Snapshot, data: JsValue, now: int,
                        parseJson: string -> Option<JsValue>, numberText: real -> string): (Snapshot, bool)
  {
    var s1 := s.(lastUpdate := Some(now));
    match Get(data, "topic")
    case None => (s1, false)
    case Some(topic) =>
      if TopicOf(topic) == HeartbeatFrame then (s1.(lastHeartbeatTime := now), true)
      else (ApplyTopic(s1, TopicOf(topic), Get(data, "value").value, now, parseJson, numberText), true)
  }

  /** The socket's `message` event: an unparsable frame changes nothing;
      otherwise the arrival time is recorded, the frame handled, and the
      watchdog restarted unless handling threw. */
  function MessageReceived(s: Snapshot, parsed: Option<JsValue>, now: int,
                           parseJson: string -> Option<JsValue>, numberText: real -> string): Snapshot
  {
    match parsed
    case None => s
    case Some(data) =>
      var (s1, completed) := ApplyMessage(s.(lastMessageTime := now), data, now, parseJson, numberText);
      if completed then s1.(watchdogArmedAt := Some(now)) else s1
  }

  // ---------------------------------------------------------------------
  // Outbound commands
  // ---------------------------------------------------------------------

  /** The command frame: `{cmd, value}`, or just `{cmd}` when value is null;
      an explicit `undefined` argument takes the parameter's default, null. */
  function CommandFrame(cmd: string, value: JsValue): JsValue {
    if value != Null && value != Undefined then Obj(map["cmd" := Str(cmd), "value" := value]) else Obj(map["cmd" := Str(cmd)])
  }

  /** `sendCommand`: refused (logged and toasted) without an open socket,
      and, for anything but a ping, while the ESP32 is offline. */
  function SendCommand(s: Snapshot, now: int, cmd: string, value: JsValue): (Snapshot, bool) {
    if !SocketIs(s, Open) then
      (Toast(Log(s, now, "Erro: Desconectado", Error), "Sem conexão com o servidor", Error), false)
    else if !s.isESP32Online && cmd != "ping" then
      (Toast(Log(s, now, "Erro: ESP32 offline", Error), "ESP32 não está respondendo", Warning), false)
    else
      (s.(outbox := s.outbox + [CommandFrame(cmd, value)]), true)
  }
}
