/** The telemetry composable as the object it is: its module-level refs and
    timer handles are the fields of one session, and each handler updates
    them in place. Every method is proved to leave exactly the state the
    matching transition of `TelemetryState` describes, so the properties
    proved there (the invariant, the backoff, the frame reducer, the
    command gate) hold of the object. */
module Telemetry {

  import opened Optional
  import opened JsValues
  import opened TelemetryFormat
  import opened TelemetryState
  import TelemetryProperties

  class TelemetrySession {
    /** `window.location.protocol` of the page that loaded the composable. */
    const pageProtocol: string

    var ws: Option<Socket>
    var isConnected: bool
    var isESP32Online: bool
    var isRunning: bool
    var reconnectAttempts: nat
    var logs: seq<LogEntry>
    var alertMessage: string
    var alertType: Severity
    var showAlertBanner: bool
    var pendingDismissals: nat
    var currentFreq: JsValue
    var setpointFreq: JsValue
    var direction: string
    var uptime: JsValue
    var stats: Stats
    var lastUpdate: Option<int>
    var systemState: string
    var reconnectTimerPending: bool
    var pingTimerActive: bool
    var watchdogArmedAt: Option<int>
    var lastMessageTime: int
    var lastHeartbeatTime: int
    var currentReconnectInterval: real
    var outbox: seq<JsValue>
    var toastRequests: seq<ToastRequest>

    /** The whole observable state of the session. */
    function State(): Snapshot
      reads this
    {
      Snapshot(ws, isConnected, isESP32Online, isRunning, reconnectAttempts, logs,
               alertMessage, alertType, showAlertBanner, pendingDismissals,
               currentFreq, setpointFreq, direction, uptime, stats, lastUpdate, systemState,
               reconnectTimerPending, pingTimerActive, watchdogArmedAt,
               lastMessageTime, lastHeartbeatTime, currentReconnectInterval, outbox, toastRequests)
    }

    ghost predicate Valid()
      reads this
    {
      Inv(State())
    }

    /** Module load: every ref at its initial value, no socket, no timers. */
    constructor (pageProtocol: string)
      ensures this.pageProtocol == pageProtocol
      ensures State() == Initial()
      ensures Valid()
    {
      this.pageProtocol := pageProtocol;
      ws := None;
      isConnected := false;
      isESP32Online := false;
      isRunning := false;
      reconnectAttempts := 0;
      logs := [];
      alertMessage := "";
      alertType := Error;
      showAlertBanner := false;
      pendingDismissals := 0;
      currentFreq := Num(0.0);
      setpointFreq := Num(0.0);
      direction := "--";
      uptime := Num(0.0);
      stats := Stats(Num(0.0), Num(0.0), Num(0.0));
      lastUpdate := None;
      systemState := "Aguardando...";
      reconnectTimerPending := false;
      pingTimerActive := false;
      watchdogArmedAt := None;
      lastMessageTime := 0;
      lastHeartbeatTime := 0;
      currentReconnectInterval := ReconnectInterval;
      outbox := [];
      toastRequests := [];
      new;
      InitialInv();
    }

    // -------------------------------------------------------------------
    // Log, banner, toasts
    // -------------------------------------------------------------------

    /** `addLog`: push, then drop the oldest entry once there are more than 100. */
    method AddLog(now: int, message: string, kind: Severity)
      modifies this`logs
      ensures State() == Log(old(State()), now, message, kind)
    {
      logs := logs + [LogEntry(now, message, kind)];
      if |logs| > LogCapacity {
        logs := logs[1..];
      }
    }

    /** `showAlert`; a warning also starts a hide timer. */
    method ShowAlert(message: string, kind: Severity)
      modifies this`alertMessage, this`alertType, this`showAlertBanner, this`pendingDismissals
      ensures State() == Alert(old(State()), message, kind)
    {
      SetBanner(message, kind);
    }

    method SetBanner(message: string, kind: Severity)
      modifies this`alertMessage, this`alertType, this`showAlertBanner, this`pendingDismissals
      ensures alertMessage == message && alertType == kind && showAlertBanner
      ensures pendingDismissals == if kind == Warning then old(pendingDismissals) + 1 else old(pendingDismissals)
    {
      alertMessage := message;
      alertType := kind;
      showAlertBanner := true;
      if kind == Warning {
        pendingDismissals := pendingDismissals + 1;
      }
    }

    method HideAlert()
      modifies this`showAlertBanner
      ensures State() == Hide(old(State()))
    {
      showAlertBanner := false;
    }

    /** A warning banner's 10 s hide timer fires. */
    method OnAlertDismissTimer()
      requires pendingDismissals > 0
      modifies this`showAlertBanner, this`pendingDismissals
      ensures State() == DismissTimerFired(old(State()))
      ensures old(Valid()) ==> Valid()
    {
      ghost var s0 := State();
      HideAlert();
      ForgetDismissal();
      if Inv(s0) {
        TelemetryProperties.DismissKeepsInv(s0);
      }
    }

    method ForgetDismissal()
      requires pendingDismissals > 0
      modifies this`pendingDismissals
      ensures State() == old(State()).(pendingDismissals := old(pendingDismissals) - 1)
    {
      pendingDismissals := pendingDismissals - 1;
    }

    /** `showToast` of the shared toast store. */
    method ShowToast(message: string, kind: Severity)
      modifies this`toastRequests
      ensures State() == Toast(old(State()), message, kind)
    {
      toastRequests := toastRequests + [ToastRequest(message, kind)];
    }

    // -------------------------------------------------------------------
    // Connection lifecycle
    // -------------------------------------------------------------------

    method Connect(now: int)
      modifies this`logs, this`ws
      ensures State() == TelemetryState.Connect(old(State()), now, pageProtocol)
      ensures old(Valid()) ==> Valid()
    {
      if ws.Some? && (ws.value.state == Connecting || ws.value.state == Open) {
        return;
      }
      ghost var s0 := State();
      OpenSocket(now);
      if Inv(s0) {
        TelemetryProperties.ConnectKeepsInv(s0, now, pageProtocol);
      }
    }

    /** `connect` past its guard: log the attempt, create the socket. */
    method OpenSocket(now: int)
      requires !(ws.Some? && (ws.value.state == Connecting || ws.value.state == Open))
      modifies this`logs, this`ws
      ensures State() == TelemetryState.Connect(old(State()), now, pageProtocol)
    {
      var url := WebSocketUrl(pageProtocol);
      AddLog(now, "Conectando... (tentativa " + Decimal.NatToString(reconnectAttempts + 1) + ")", Info);
      SetSocket(Some(Socket(url, Connecting)));
    }

    method SetSocket(socket: Option<Socket>)
      modifies this`ws
      ensures State() == old(State()).(ws := socket)
    {
      ws := socket;
    }

    /** The socket's `open` event. */
    method OnOpen(now: int)
      requires ws.Some? && ws.value.state == Connecting
      modifies this
      ensures State() == SocketOpened(old(State()), now)
      ensures old(Valid()) ==> Valid()
    {
      ghost var s0 := State();
      MarkOpen();
      AddLog(now, "Conectado ao Node-RED!", Success);
      HideAlert();
      StartTimers(now);
      if Inv(s0) {
        TelemetryProperties.OpenKeepsInv(s0, now);
      }
    }

    /** The first half of the open handler: the failed attempts are
        forgotten and the link is up. */
    method MarkOpen()
      requires ws.Some?
      modifies this`reconnectAttempts, this`currentReconnectInterval, this`isConnected, this`ws
      ensures State() == old(State()).(reconnectAttempts := 0, currentReconnectInterval := ReconnectInterval,
                                       isConnected := true, ws := Some(old(ws).value.(state := Open)))
    {
      SetLinkUp();
    }

    /** The field-level half of `MarkOpen`; the two are one step, split
        only so that each frame proof stays small. */
    method SetLinkUp()
      requires ws.Some?
      modifies this`reconnectAttempts, this`currentReconnectInterval, this`isConnected, this`ws
      ensures reconnectAttempts == 0 && currentReconnectInterval == ReconnectInterval && isConnected
      ensures ws == Some(old(ws).value.(state := Open))
    {
      reconnectAttempts := 0;
      currentReconnectInterval := ReconnectInterval;
      isConnected := true;
      ws := Some(ws.value.(state := Open));
    }

    /** The pending reconnect is cancelled; ping and watchdog start. */
    method StartTimers(now: int)
      modifies this`reconnectTimerPending, this`pingTimerActive, this`watchdogArmedAt
      ensures State() == old(State()).(reconnectTimerPending := false, pingTimerActive := true,
                                       watchdogArmedAt := Some(now))
    {
      SetTimers(false, true, Some(now));
    }

    /** The field-level half of `StartTimers`, split from it only to keep
        the frame proof small. */
    method SetTimers(reconnectPending: bool, pinging: bool, watchdog: Option<int>)
      modifies this`reconnectTimerPending, this`pingTimerActive, this`watchdogArmedAt
      ensures reconnectTimerPending == reconnectPending && pingTimerActive == pinging
      ensures watchdogArmedAt == watchdog
    {
      reconnectTimerPending := reconnectPending;
      pingTimerActive := pinging;
      watchdogArmedAt := watchdog;
    }

    /** The socket's `close` event. */
    method OnClose(now: int, wasClean: bool)
      requires ws.Some? && ws.value.state != Closed
      modifies this
      ensures State() == SocketClosed(old(State()), now, wasClean)
      ensures old(Valid()) ==> Valid()
    {
      ghost var s0 := State();
      DropLink();
      ReportClose(now, wasClean);
      ScheduleReconnect(now);
      if Inv(s0) {
        TelemetryProperties.CloseKeepsInv(s0, now, wasClean);
      }
    }

    /** The first half of the close handler: the socket, the link flags and
        the ping and watchdog timers all go. */
    method DropLink()
      modifies this`ws, this`isConnected, this`isESP32Online, this`isRunning
      modifies this`pingTimerActive, this`watchdogArmedAt
      ensures State() == old(State()).(ws := None, isConnected := false, isESP32Online := false,
                                       isRunning := false, pingTimerActive := false, watchdogArmedAt := None)
    {
      SetLinkDown();
    }

    /** The field-level half of `DropLink`, split from it only to keep the
        frame proof small. */
    method SetLinkDown()
      modifies this`ws, this`isConnected, this`isESP32Online, this`isRunning
      modifies this`pingTimerActive, this`watchdogArmedAt
      ensures ws == None && !isConnected && !isESP32Online && !isRunning
      ensures !pingTimerActive && watchdogArmedAt == None
    {
      ws := None;
      isConnected := false;
      isESP32Online := false;
      isRunning := false;
      pingTimerActive := false;
      watchdogArmedAt := None;
    }

    /** The close is logged, and an unclean one raised as an error banner. */
    method ReportClose(now: int, wasClean: bool)
      modifies this`logs, this`alertMessage, this`alertType, this`showAlertBanner, this`pendingDismissals
      ensures wasClean ==> State() == Log(old(State()), now, "Conexão fechada", Warning)
      ensures !wasClean ==> State() == Alert(Log(old(State()), now, "Conexão perdida - reconectando...", Error),
                                             "Conexão perdida - tentando reconectar...", Error)
    {
      if wasClean {
        AddLog(now, "Conexão fechada", Warning);
      } else {
        AddLog(now, "Conexão perdida - reconectando...", Error);
        ShowAlert("Conexão perdida - tentando reconectar...", Error);
      }
    }

    /** The socket's `error` event. */
    method OnError(now: int)
      requires ws.Some?
      modifies this`logs
      ensures State() == SocketErrored(old(State()), now)
      ensures old(Valid()) ==> Valid()
    {
      ghost var s0 := State();
      AddLog(now, "Erro de conexão", Error);
      if Inv(s0) {
        TelemetryProperties.ErrorKeepsInv(s0, now);
      }
    }

    method ScheduleReconnect(now: int)
      modifies this`reconnectAttempts, this`currentReconnectInterval, this`logs, this`reconnectTimerPending
      ensures State() == TelemetryState.ScheduleReconnect(old(State()), now)
      ensures old(Valid()) ==> Valid()
    {
      if reconnectTimerPending {
        return;
      }
      ghost var s0 := State();
      Backoff(now);
      if Inv(s0) {
        TelemetryProperties.ScheduleReconnectKeepsInv(s0, now);
      }
    }

    /** `scheduleReconnect` past its guard. */
    method Backoff(now: int)
      requires !reconnectTimerPending
      modifies this`reconnectAttempts, this`currentReconnectInterval, this`logs, this`reconnectTimerPending
      ensures State() == TelemetryState.ScheduleReconnect(old(State()), now)
    {
      NextAttempt();
      var seconds := DelaySeconds(currentReconnectInterval);
      AddLog(now, "Próxima tentativa em " + Decimal.NatToString(seconds as nat) + "s", Warning);
      SetReconnectPending(true);
    }

    /** One more attempt, and the backoff delay for it. */
    method NextAttempt()
      modifies this`reconnectAttempts, this`currentReconnectInterval
      ensures State() == old(State()).(reconnectAttempts := old(reconnectAttempts) + 1,
                                       currentReconnectInterval := BackoffDelay(old(reconnectAttempts) + 1))
    {
      reconnectAttempts := reconnectAttempts + 1;
      currentReconnectInterval := BackoffDelay(reconnectAttempts);
    }

    method SetReconnectPending(pending: bool)
      modifies this`reconnectTimerPending
      ensures State() == old(State()).(reconnectTimerPending := pending)
    {
      reconnectTimerPending := pending;
    }

    /** The pending reconnect timer fires and calls `connect`. */
    method OnReconnectTimer(now: int)
      requires reconnectTimerPending
      modifies this`reconnectTimerPending, this`logs, this`ws
      ensures State() == ReconnectTimerFired(old(State()), now, pageProtocol)
      ensures old(Valid()) ==> Valid()
    {
      SetReconnectPending(false);
      Connect(now);
    }

    /** `disconnect`: `close()` on a connecting or open socket. */
    method Disconnect()
      modifies this`ws
      ensures State() == TelemetryState.Disconnect(old(State()))
      ensures old(Valid()) ==> Valid()
    {
      if ws.Some? && (ws.value.state == Connecting || ws.value.state == Open) {
        SetSocket(Some(ws.value.(state := Closing)));
      }
    }

    // -------------------------------------------------------------------
    // Timers
    // -------------------------------------------------------------------

    /** A frame handed to the socket. */
    method Transmit(frame: JsValue)
      modifies this`outbox
      ensures State() == old(State()).(outbox := old(outbox) + [frame])
    {
      outbox := outbox + [frame];
    }

    /** A tick of the running ping interval. */
    method OnPingTimer(now: int)
      requires pingTimerActive
      modifies this`outbox
      ensures State() == PingTimerFired(old(State()), now)
      ensures old(Valid()) ==> Valid()
    {
      if ws.Some? && ws.value.state == Open {
        Transmit(PingFrame(now));
      }
    }

    method SetWatchdog(armedAt: Option<int>)
      modifies this`watchdogArmedAt
      ensures State() == old(State()).(watchdogArmedAt := armedAt)
    {
      watchdogArmedAt := armedAt;
    }

    /** The armed watchdog fires; a stopped one never does. */
    method OnWatchdogTimer(now: int)
      requires watchdogArmedAt.Some?
      modifies this`watchdogArmedAt, this`logs
      modifies this`alertMessage, this`alertType, this`showAlertBanner, this`pendingDismissals
      ensures State() == WatchdogFired(old(State()), now)
      ensures old(Valid()) ==> Valid()
    {
      ghost var s0 := State();
      SetWatchdog(None);
      if now - lastMessageTime > WatchdogTimeout {
        AddLog(now, "Sem dados - verificando conexão", Warning);
        ShowAlert("Sem atualizações do servidor", Warning);
      }
      if Inv(s0) {
        TelemetryProperties.WatchdogKeepsInv(s0, now);
      }
    }

    method OnHeartbeatCheck(now: int)
      modifies this`alertMessage, this`alertType, this`showAlertBanner, this`pendingDismissals
      ensures State() == HeartbeatChecked(old(State()), now)
      ensures old(Valid()) ==> Valid()
    {
      if lastHeartbeatTime > 0 && now - lastHeartbeatTime > HeartbeatMaxAge {
        ShowAlert("ESP32 pode estar offline", Warning);
      }
    }

    // -------------------------------------------------------------------
    // Inbound frames
    // -------------------------------------------------------------------

    method SetRunning(running: bool)
      modifies this`isRunning
      ensures State() == old(State()).(isRunning := running)
    {
      isRunning := running;
    }

    method HandleRunning(value: JsValue, now: int)
      modifies this`logs, this`isRunning
      ensures State() == ApplyRunning(old(State()), value, now)
    {
      var running := CoercesToOne(value);
      if running != isRunning && isESP32Online {
        AddLog(now, if running then "Inversor LIGADO" else "Inversor DESLIGADO", Info);
      }
      SetRunning(running);
    }

    /** The gateway's status fields. */
    method SetDevice(online: bool, running: bool, state: string)
      modifies this`isESP32Online, this`isRunning, this`systemState
      ensures State() == old(State()).(isESP32Online := online, isRunning := running, systemState := state)
    {
      SetDeviceFields(online, running, state);
    }

    /** The field-level half of `SetDevice`, split from it only to keep the
        frame proof small. */
    method SetDeviceFields(online: bool, running: bool, state: string)
      modifies this`isESP32Online, this`isRunning, this`systemState
      ensures isESP32Online == online && isRunning == running && systemState == state
    {
      isESP32Online := online;
      isRunning := running;
      systemState := state;
    }

    method HandleOnline(value: JsValue, now: int)
      modifies this`isESP32Online, this`isRunning, this`systemState, this`logs
      modifies this`alertMessage, this`alertType, this`showAlertBanner, this`pendingDismissals
      ensures State() == ApplyOnline(old(State()), value, now)
    {
      if CoercesToOne(value) {
        SetDevice(true, isRunning, "ESP32 Online");
        HideAlert();
        AddLog(now, "ESP32 ONLINE", Success);
      } else {
        SetDevice(false, false, "ESP32 Offline");
        ShowAlert("ESP32 OFFLINE", Error);
        AddLog(now, "ESP32 OFFLINE", Error);
      }
    }

    method SetStats(counters: Stats)
      modifies this`stats
      ensures State() == old(State()).(stats := counters)
    {
      stats := counters;
    }

    method HandleError(value: JsValue, now: int, numberText: real -> string)
      modifies this`logs, this`stats
      modifies this`alertMessage, this`alertType, this`showAlertBanner, this`pendingDismissals
      ensures State() == ApplyError(old(State()), value, now, numberText)
    {
      var text := ToJsString(value, numberText);
      ShowAlert("Erro: " + text, Error);
      AddLog(now, "ERRO: " + text, Error);
      SetStats(stats.(err := Increment(stats.err)));
    }

    method SetSystemState(state: string)
      modifies this`systemState
      ensures State() == old(State()).(systemState := state)
    {
      systemState := state;
    }

    /** A payload that fails to parse, or is null, throws before any counter
        is written; the handler catches it. */
    method HandleStats(value: JsValue, parseJson: string -> Option<JsValue>)
      modifies this`stats, this`systemState
      ensures State() == ApplyStats(old(State()), value, parseJson)
    {
      var parsed := if value.Str? then parseJson(value.s) else Some(value);
      if parsed.None? || parsed.value.Null? || parsed.value.Undefined? {
        return;
      }
      MergeStats(parsed.value);
    }

    /** The counters the payload defines replace the stored ones; while the
        gateway is online the system state follows the read counter. */
    method MergeStats(payload: JsValue)
      requires !payload.Null? && !payload.Undefined?
      modifies this`stats, this`systemState
      ensures State() == MergedStats(old(State()), payload)
    {
      var counters := CountStats(payload);
      SetStats(counters);
      if isESP32Online {
        SetSystemState(ReadingState(counters.read));
      }
    }

    /** The stored counters, each replaced by the payload's when it defines one. */
    method CountStats(payload: JsValue) returns (counters: Stats)
      requires !payload.Null? && !payload.Undefined?
      ensures counters.cmd == StatField(payload, "cmd", stats.cmd)
      ensures counters.read == StatField(payload, "read", stats.read)
      ensures counters.err == StatField(payload, "err", stats.err)
    {
      counters := stats;
      var cmd := Get(payload, "cmd").value;
      if cmd != Undefined {
        counters := counters.(cmd := cmd);
      }
      var read := Get(payload, "read").value;
      if read != Undefined {
        counters := counters.(read := read);
      }
      var err := Get(payload, "err").value;
      if err != Undefined {
        counters := counters.(err := err);
      }
    }

    method SetFrequency(reading: JsValue)
      modifies this`currentFreq
      ensures State() == old(State()).(currentFreq := reading)
    {
      currentFreq := reading;
    }

    method SetSetpoint(reading: JsValue)
      modifies this`setpointFreq
      ensures State() == old(State()).(setpointFreq := reading)
    {
      setpointFreq := reading;
    }

    method SetUptime(reading: JsValue)
      modifies this`uptime
      ensures State() == old(State()).(uptime := reading)
    {
      uptime := reading;
    }

    method SetDirection(facing: string)
      modifies this`direction
      ensures State() == old(State()).(direction := facing)
    {
      direction := facing;
    }

    /** The effect of a frame whose topic has been read. */
    method HandleTopic(topic: Topic, value: JsValue, now: int,
                       parseJson: string -> Option<JsValue>, numberText: real -> string)
      modifies this
      ensures State() == ApplyTopic(old(State()), topic, value, now, parseJson, numberText)
    {
      match topic {
        case RunningFrame => HandleRunning(value, now);
        case FrequencyFrame => SetFrequency(NumberOf(value));
        case SetpointFrame => SetSetpoint(NumberOf(value));
        case UptimeFrame => SetUptime(NumberOf(value));
        case DirectionFrame => SetDirection(DirectionLabel(value, numberText));
        case OnlineFrame => HandleOnline(value, now);
        case ErrorFrame => HandleError(value, now, numberText);
        case StatsFrame => HandleStats(value, parseJson);
        case _ =>
      }
    }

    method SetLastUpdate(now: int)
      modifies this`lastUpdate
      ensures State() == old(State()).(lastUpdate := Some(now))
    {
      lastUpdate := Some(now);
    }

    method SetLastHeartbeat(now: int)
      modifies this`lastHeartbeatTime
      ensures State() == old(State()).(lastHeartbeatTime := now)
    {
      lastHeartbeatTime := now;
    }

    /** `handleMessage`; `completed` is false when reading the topic threw. */
    method HandleMessage(data: JsValue, now: int,
                         parseJson: string -> Option<JsValue>, numberText: real -> string)
      returns (completed: bool)
      modifies this
      ensures (State(), completed) == ApplyMessage(old(State()), data, now, parseJson, numberText)
    {
      SetLastUpdate(now);
      var topic := Get(data, "topic");
      if topic.None? {
        return false;
      }
      var t := TopicOf(topic.value);
      if t == HeartbeatFrame {
        SetLastHeartbeat(now);
      } else {
        HandleTopic(t, Get(data, "value").value, now, parseJson, numberText);
      }
      return true;
    }

    method SetLastMessage(now: int)
      modifies this`lastMessageTime
      ensures State() == old(State()).(lastMessageTime := now)
    {
      lastMessageTime := now;
    }

    /** The socket's `message` event: parse, stamp, handle, restart the watchdog. */
    method OnMessage(text: string, now: int,
                     parseJson: string -> Option<JsValue>, numberText: real -> string)
      requires ws.Some? && ws.value.state == Open
      modifies this
      ensures State() == MessageReceived(old(State()), parseJson(text), now, parseJson, numberText)
      ensures old(Valid()) ==> Valid()
    {
      ghost var s0 := State();
      var parsed := parseJson(text);
      if parsed.Some? {
        SetLastMessage(now);
        var completed := HandleMessage(parsed.value, now, parseJson, numberText);
        if completed {
          SetWatchdog(Some(now));
        }
      }
      if Inv(s0) {
        TelemetryProperties.MessageKeepsInv(s0, parsed, now, parseJson, numberText);
      }
    }

    // -------------------------------------------------------------------
    // Commands
    // -------------------------------------------------------------------

    /** `sendCommand`: `sent` is what the source returns. */
    method SendCommand(now: int, cmd: string, value: JsValue) returns (sent: bool)
      modifies this`logs, this`toastRequests, this`outbox
      ensures (State(), sent) == TelemetryState.SendCommand(old(State()), now, cmd, value)
      ensures old(Valid()) ==> Valid()
    {
      ghost var s0 := State();
      sent := TrySend(now, cmd, value);
      if Inv(s0) {
        TelemetryProperties.SendCommandKeepsInv(s0, now, cmd, value);
      }
    }

    method TrySend(now: int, cmd: string, value: JsValue) returns (sent: bool)
      modifies this`logs, this`toastRequests, this`outbox
      ensures (State(), sent) == TelemetryState.SendCommand(old(State()), now, cmd, value)
    {
      if !(ws.Some? && ws.value.state == Open) {
        AddLog(now, "Erro: Desconectado", Error);
        ShowToast("Sem conexão com o servidor", Error);
        sent := false;
      } else if !isESP32Online && cmd != "ping" {
        AddLog(now, "Erro: ESP32 offline", Error);
        ShowToast("ESP32 não está respondendo", Warning);
        sent := false;
      } else {
        Transmit(CommandFrame(cmd, value));
        sent := true;
      }
    }
  }
}
