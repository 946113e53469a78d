/** What the telemetry composable's transitions promise: the invariant each
    one keeps, the connection lifecycle, the reconnect backoff, the frame
    reducer topic by topic, the liveness checks and the command gate. */
module TelemetryProperties {

  import opened Optional
  import opened JsValues
  import opened TelemetryFormat
  import opened TelemetryState

  // ---------------------------------------------------------------------
  // The invariant is kept by every event
  // ---------------------------------------------------------------------

  lemma LogKeepsInv(s: Snapshot, now: int, message: string, kind: Severity)
    requires |s.logs| <= LogCapacity
    ensures |Log(s, now, message, kind).logs| <= LogCapacity
  {
    BoundedAppendWithinCapacity(s.logs, LogEntry(now, message, kind));
  }

  lemma ScheduleReconnectKeepsInv(s: Snapshot, now: int)
    requires Inv(s)
    ensures Inv(ScheduleReconnect(s, now))
  {
    if !s.reconnectTimerPending {
      var attempts := s.reconnectAttempts + 1;
      var delay := BackoffDelay(attempts);
      var s1 := s.(reconnectAttempts := attempts, currentReconnectInterval := delay, reconnectTimerPending := true);
      LogKeepsInv(s1, now, "Próxima tentativa em " + Decimal.NatToString(DelaySeconds(delay) as nat) + "s", Warning);
    }
  }

  lemma ConnectKeepsInv(s: Snapshot, now: int, pageProtocol: string)
    requires Inv(s)
    ensures Inv(Connect(s, now, pageProtocol))
  {
    if !(SocketIs(s, Connecting) || SocketIs(s, Open)) {
      LogKeepsInv(s, now, "Conectando... (tentativa " + Decimal.NatToString(s.reconnectAttempts + 1) + ")", Info);
    }
  }

  lemma OpenKeepsInv(s: Snapshot, now: int)
    requires Inv(s) && s.ws.Some?
    ensures Inv(SocketOpened(s, now))
  {
    var o := s.(reconnectAttempts := 0, currentReconnectInterval := ReconnectInterval,
                isConnected := true, ws := Some(s.ws.value.(state := Open)));
    LogKeepsInv(o, now, "Conectado ao Node-RED!", Success);
  }

  lemma CloseKeepsInv(s: Snapshot, now: int, wasClean: bool)
    requires Inv(s)
    ensures Inv(SocketClosed(s, now, wasClean))
  {
    var c := s.(ws := None, isConnected := false, isESP32Online := false, isRunning := false,
                pingTimerActive := false, watchdogArmedAt := None);
    LogKeepsInv(c, now, "Conexão fechada", Warning);
    LogKeepsInv(c, now, "Conexão perdida - reconectando...", Error);
    var c2 := if wasClean then Log(c, now, "Conexão fechada", Warning)
              else Alert(Log(c, now, "Conexão perdida - reconectando...", Error),
                         "Conexão perdida - tentando reconectar...", Error);
    ScheduleReconnectKeepsInv(c2, now);
  }

  lemma ErrorKeepsInv(s: Snapshot, now: int)
    requires Inv(s)
    ensures Inv(SocketErrored(s, now))
  {
    LogKeepsInv(s, now, "Erro de conexão", Error);
  }

  lemma DisconnectKeepsInv(s: Snapshot)
    requires Inv(s)
    ensures Inv(Disconnect(s))
  {
  }

  lemma PingKeepsInv(s: Snapshot, now: int)
    requires Inv(s)
    ensures Inv(PingTimerFired(s, now))
  {
  }

  lemma WatchdogKeepsInv(s: Snapshot, now: int)
    requires Inv(s)
    ensures Inv(WatchdogFired(s, now))
  {
    LogKeepsInv(s.(watchdogArmedAt := None), now, "Sem dados - verificando conexão", Warning);
  }

  lemma HeartbeatCheckKeepsInv(s: Snapshot, now: int)
    requires Inv(s)
    ensures Inv(HeartbeatChecked(s, now))
  {
  }

  lemma DismissKeepsInv(s: Snapshot)
    requires Inv(s) && s.pendingDismissals > 0
    ensures Inv(DismissTimerFired(s))
  {
  }

  lemma SendCommandKeepsInv(s: Snapshot, now: int, cmd: string, value: JsValue)
    requires Inv(s)
    ensures Inv(SendCommand(s, now, cmd, value).0)
  {
    if !SocketIs(s, Open) {
      LogKeepsInv(s, now, "Erro: Desconectado", Error);
    } else if !s.isESP32Online && cmd != "ping" {
      LogKeepsInv(s, now, "Erro: ESP32 offline", Error);
    }
  }

  /** Each recognised topic's own string selects that topic's handler. */
  lemma TopicNameRoundTrip(t: Topic)
    requires t != OtherTopic
    ensures TopicOf(Str(TopicName(t))) == t
  {
  }

  /** A string selects a recognised topic exactly when it is that topic's
      string: no two topics share a handler. */
  lemma TopicOfName(x: string, t: Topic)
    requires t != OtherTopic
    ensures TopicOf(Str(x)) == t <==> x == TopicName(t)
  {
    if x == TopicName(t) {
      TopicNameRoundTrip(t);
    }
  }

  /** What a frame handler leaves alone: the link, the reconnect policy,
      the timers and the outbound queue; and the log stays within capacity. */
  ghost predicate LinkKept(s: Snapshot, r: Snapshot) {
    && r.ws == s.ws && r.isConnected == s.isConnected
    && r.reconnectAttempts == s.reconnectAttempts && r.currentReconnectInterval == s.currentReconnectInterval
    && r.reconnectTimerPending == s.reconnectTimerPending && r.pingTimerActive == s.pingTimerActive
    && r.watchdogArmedAt == s.watchdogArmedAt && r.lastMessageTime == s.lastMessageTime
    && r.outbox == s.outbox && r.toastRequests == s.toastRequests
    && |r.logs| <= LogCapacity
  }

  lemma RunningKeepsLink(s: Snapshot, value: JsValue, now: int)
    requires |s.logs| <= LogCapacity
    ensures LinkKept(s, ApplyRunning(s, value, now))
  {
    LogKeepsInv(s, now, if CoercesToOne(value) then "Inversor LIGADO" else "Inversor DESLIGADO", Info);
  }

  lemma OnlineKeepsLink(s: Snapshot, value: JsValue, now: int)
    requires |s.logs| <= LogCapacity
    ensures LinkKept(s, ApplyOnline(s, value, now))
  {
    LogKeepsInv(Hide(s.(isESP32Online := true, systemState := "ESP32 Online")), now, "ESP32 ONLINE", Success);
    LogKeepsInv(Alert(s.(isESP32Online := false, isRunning := false, systemState := "ESP32 Offline"),
                      "ESP32 OFFLINE", Error), now, "ESP32 OFFLINE", Error);
  }

  lemma ErrorKeepsLink(s: Snapshot, value: JsValue, now: int, numberText: real -> string)
    requires |s.logs| <= LogCapacity
    ensures LinkKept(s, ApplyError(s, value, now, numberText))
  {
    var text := ToJsString(value, numberText);
    LogKeepsInv(Alert(s, "Erro: " + text, Error), now, "ERRO: " + text, Error);
  }

  lemma StatsKeepsLink(s: Snapshot, value: JsValue, parseJson: string -> Option<JsValue>)
    requires |s.logs| <= LogCapacity
    ensures LinkKept(s, ApplyStats(s, value, parseJson))
  {
    var parsed := if value.Str? then parseJson(value.s) else Some(value);
    if !(parsed.None? || parsed.value.Null? || parsed.value.Undefined?) {
      MergedStatsKeepsLink(s, parsed.value);
    }
  }

  lemma MergedStatsKeepsLink(s: Snapshot, payload: JsValue)
    requires |s.logs| <= LogCapacity
    requires !payload.Null? && !payload.Undefined?
    ensures LinkKept(s, MergedStats(s, payload))
    ensures var r := MergedStats(s, payload); r == s.(stats := r.stats, systemState := r.systemState)
  {
  }

  lemma DirectionKeepsLink(s: Snapshot, value: JsValue, now: int,
                           parseJson: string -> Option<JsValue>, numberText: real -> string)
    requires |s.logs| <= LogCapacity
    ensures LinkKept(s, ApplyTopic(s, DirectionFrame, value, now, parseJson, numberText))
  {
  }

  lemma StatsTopicKeepsLink(s: Snapshot, value: JsValue, now: int,
                            parseJson: string -> Option<JsValue>, numberText: real -> string)
    requires |s.logs| <= LogCapacity
    ensures LinkKept(s, ApplyTopic(s, StatsFrame, value, now, parseJson, numberText))
  {
    StatsKeepsLink(s, value, parseJson);
  }

  lemma ApplyTopicKeepsLink(s: Snapshot, topic: Topic, value: JsValue, now: int,
                            parseJson: string -> Option<JsValue>, numberText: real -> string)
    requires |s.logs| <= LogCapacity
    ensures LinkKept(s, ApplyTopic(s, topic, value, now, parseJson, numberText))
  {
    match topic
    case RunningFrame => RunningKeepsLink(s, value, now);
    case OnlineFrame => OnlineKeepsLink(s, value, now);
    case ErrorFrame => ErrorKeepsLink(s, value, now, numberText);
    case StatsFrame => StatsTopicKeepsLink(s, value, now, parseJson, numberText);
    case DirectionFrame => DirectionKeepsLink(s, value, now, parseJson, numberText);
    case _ =>
  }

  /** Handling a frame never touches the link, the reconnect policy, the
      timers or the outbound queue, and keeps the log within capacity. */
  lemma ApplyMessageLeavesLink(s: Snapshot, data: JsValue, now: int,
                               parseJson: string -> Option<JsValue>, numberText: real -> string)
    requires |s.logs| <= LogCapacity
    ensures LinkKept(s, ApplyMessage(s, data, now, parseJson, numberText).0)
  {
    var s1 := s.(lastUpdate := Some(now));
    var topic := Get(data, "topic");
    if topic.Some? && TopicOf(topic.value) != HeartbeatFrame {
      ApplyTopicKeepsLink(s1, TopicOf(topic.value), Get(data, "value").value, now, parseJson, numberText);
    }
  }

  /** Frames arrive on an open socket only; handling one keeps the invariant. */
  lemma MessageKeepsInv(s: Snapshot, parsed: Option<JsValue>, now: int,
                        parseJson: string -> Option<JsValue>, numberText: real -> string)
    requires Inv(s) && SocketIs(s, Open)
    ensures Inv(MessageReceived(s, parsed, now, parseJson, numberText))
  {
    if parsed.Some? {
      ApplyMessageLeavesLink(s.(lastMessageTime := now), parsed.value, now, parseJson, numberText);
    }
  }

  // ---------------------------------------------------------------------
  // Connection lifecycle
  // ---------------------------------------------------------------------

  /** `connect` does nothing while the socket is connecting or open;
      otherwise it logs the attempt and opens a connecting socket to the
      fixed URL, changing nothing else. */
  lemma ConnectGuard(s: Snapshot, now: int, pageProtocol: string)
    ensures SocketIs(s, Connecting) || SocketIs(s, Open) ==> Connect(s, now, pageProtocol) == s
    ensures !(SocketIs(s, Connecting) || SocketIs(s, Open)) ==>
      var r := Connect(s, now, pageProtocol);
      && r.ws == Some(Socket(WebSocketUrl(pageProtocol), Connecting))
      && r == s.(ws := r.ws, logs := r.logs)
      && |r.logs| >= 1 && r.logs[|r.logs| - 1].kind == Info
  {
  }

  /** A successful open connects, forgets the failed attempts, restores the
      base delay, hides the banner, cancels a pending reconnect and starts
      the ping and watchdog timers. */
  lemma OpenResets(s: Snapshot, now: int)
    requires s.ws.Some?
    ensures var r := SocketOpened(s, now);
      && r.isConnected && SocketIs(r, Open)
      && r.reconnectAttempts == 0 && r.currentReconnectInterval == ReconnectInterval
      && !r.showAlertBanner && !r.reconnectTimerPending
      && r.pingTimerActive && r.watchdogArmedAt == Some(now)
  {
  }

  /** An entry already past the head of the log, or the one appended,
      survives one more append. */
  lemma {:induction false} BoundedAppendKeeps<T>(log: seq<T>, x: T, e: T)
    requires (|log| < LogCapacity && x in log) || (|log| >= 1 && x in log[1..]) || x == e
    ensures x in BoundedAppend(log, e)
  {
    if |log| >= LogCapacity && x != e {
      var i :| 0 <= i < |log| - 1 && log[1..][i] == x;
      assert BoundedAppend(log, e)[i] == x;
    }
  }

  /** On close the link, the ESP32 and the motor all read as down. An
      unclean close logs an error and raises an error banner; a clean close
      logs a warning and leaves the banner alone. A reconnect is pending
      afterwards in both cases. */
  lemma CloseBehaviour(s: Snapshot, now: int, wasClean: bool)
    requires Inv(s)
    ensures var r := SocketClosed(s, now, wasClean);
      && !r.isConnected && !r.isESP32Online && !r.isRunning && r.ws.None?
      && !r.pingTimerActive && r.watchdogArmedAt.None?
      && r.reconnectTimerPending
      && (!wasClean ==>
            && LogEntry(now, "Conexão perdida - reconectando...", Error) in r.logs
            && r.showAlertBanner && r.alertType == Error
            && r.alertMessage == "Conexão perdida - tentando reconectar...")
      && (wasClean ==>
            && LogEntry(now, "Conexão fechada", Warning) in r.logs
            && r.showAlertBanner == s.showAlertBanner && r.alertType == s.alertType
            && r.alertMessage == s.alertMessage && r.pendingDismissals == s.pendingDismissals)
  {
    var c := s.(ws := None, isConnected := false, isESP32Online := false, isRunning := false,
                pingTimerActive := false, watchdogArmedAt := None);
    var entry := if wasClean then LogEntry(now, "Conexão fechada", Warning)
                 else LogEntry(now, "Conexão perdida - reconectando...", Error);
    var c2 := if wasClean then Log(c, now, "Conexão fechada", Warning)
              else Alert(Log(c, now, "Conexão perdida - reconectando...", Error),
                         "Conexão perdida - tentando reconectar...", Error);
    assert c2.logs == BoundedAppend(s.logs, entry);
    if !c2.reconnectTimerPending {
      var attempts := c2.reconnectAttempts + 1;
      var delay := BackoffDelay(attempts);
      var e2 := LogEntry(now, "Próxima tentativa em " + Decimal.NatToString(DelaySeconds(delay) as nat) + "s", Warning);
      assert c2.logs[|c2.logs| - 1] == entry;
      if |c2.logs| >= 2 {
        assert c2.logs[1..][|c2.logs| - 2] == entry;
      }
      BoundedAppendKeeps(c2.logs, entry, e2);
    }
  }

  // ---------------------------------------------------------------------
  // Reconnect backoff
  // ---------------------------------------------------------------------

  /** While a reconnect timer is pending nothing changes. Otherwise the
      attempt count grows by one and the delay becomes the backoff for it:
      at most 30 s, and never shorter than the delay before. */
  lemma ScheduleReconnectBackoff(s: Snapshot, now: int)
    requires Inv(s)
    ensures s.reconnectTimerPending ==> ScheduleReconnect(s, now) == s
    ensures !s.reconnectTimerPending ==>
      var r := ScheduleReconnect(s, now);
      && r.reconnectTimerPending
      && r.reconnectAttempts == s.reconnectAttempts + 1
      && r.currentReconnectInterval == BackoffDelay(r.reconnectAttempts)
      && s.currentReconnectInterval <= r.currentReconnectInterval <= MaxReconnectInterval
  {
    if !s.reconnectTimerPending && s.reconnectAttempts >= 1 {
      BackoffMonotone(s.reconnectAttempts, s.reconnectAttempts + 1);
    }
  }

  /** A close with no reconnect pending schedules the next attempt with
      its backoff delay. */
  lemma CloseSchedulesNextAttempt(s: Snapshot, now: int, wasClean: bool)
    requires !s.reconnectTimerPending
    ensures var r := SocketClosed(s, now, wasClean);
      && r.reconnectTimerPending
      && r.reconnectAttempts == s.reconnectAttempts + 1
      && r.currentReconnectInterval == BackoffDelay(s.reconnectAttempts + 1)
  {
  }

  /** Two unclean closes in a row, with the reconnect timer firing between
      them: the first schedules attempt 1 after 3 s, the second attempt 2
      after 4.5 s. */
  lemma ReconnectScenario(s: Snapshot, t1: int, t2: int, pageProtocol: string)
    requires s.reconnectAttempts == 0 && !s.reconnectTimerPending
    ensures var a := SocketClosed(s, t1, false);
      && a.reconnectAttempts == 1 && a.currentReconnectInterval == 3000.0 && a.reconnectTimerPending
      && var b := SocketClosed(ReconnectTimerFired(a, t2, pageProtocol), t2, false);
      && b.reconnectAttempts == 2 && b.currentReconnectInterval == 4500.0
  {
    var a := SocketClosed(s, t1, false);
    CloseSchedulesNextAttempt(s, t1, false);
    assert BackoffDelay(1) == 3000.0;
    var fired := ReconnectTimerFired(a, t2, pageProtocol);
    assert fired.reconnectAttempts == 1 && !fired.reconnectTimerPending;
    CloseSchedulesNextAttempt(fired, t2, false);
    assert BackoffDelay(2) == 3000.0 * Pow(1.5, 1);
  }

  // ---------------------------------------------------------------------
  // Inbound frames
  // ---------------------------------------------------------------------

  /** A frame object with the given topic and value. */
  function Frame(topic: string, value: JsValue): JsValue {
    Obj(map["topic" := Str(topic), "value" := value])
  }

  /** What handling a topic frame leaves behind. */
  function AfterFrame(s: Snapshot, topic: string, value: JsValue, now: int,
                      parseJson: string -> Option<JsValue>, numberText: real -> string): Snapshot
  {
    ApplyMessage(s, Frame(topic, value), now, parseJson, numberText).0
  }

  /** Handling a topic frame is the topic's own handler, after the
      last-update stamp. */
  lemma AfterFrameIsTopic(s: Snapshot, topic: string, value: JsValue, now: int,
                          parseJson: string -> Option<JsValue>, numberText: real -> string)
    requires topic != HeartbeatTopic
    ensures AfterFrame(s, topic, value, now, parseJson, numberText)
      == ApplyTopic(s.(lastUpdate := Some(now)), TopicOf(Str(topic)), value, now, parseJson, numberText)
  {
    assert Get(Frame(topic, value), "topic") == Some(Str(topic));
    assert Get(Frame(topic, value), "value") == Some(value);
  }

  /** An `online` frame that does not read as 1 takes the ESP32 offline,
      stops the motor and raises an error banner; one that does brings it
      online and hides the banner. */
  lemma OnlineHandlerEffect(s: Snapshot, value: JsValue, now: int)
    ensures var r := ApplyOnline(s, value, now);
      && r.isESP32Online == CoercesToOne(value)
      && (!CoercesToOne(value) ==>
            && !r.isRunning && r.systemState == "ESP32 Offline"
            && r.showAlertBanner && r.alertType == Error && r.alertMessage == "ESP32 OFFLINE")
      && (CoercesToOne(value) ==>
            && r.isRunning == s.isRunning && r.systemState == "ESP32 Online" && !r.showAlertBanner)
  {
  }

  /** A `rodando` frame sets the motor state to whether the value reads as
      1, and logs the change only when it is a change and the ESP32 is online. */
  lemma RunningHandlerEffect(s: Snapshot, value: JsValue, now: int)
    ensures var r := ApplyRunning(s, value, now);
      var logged := CoercesToOne(value) != s.isRunning && s.isESP32Online;
      && r.isRunning == CoercesToOne(value)
      && (logged ==> r.logs == BoundedAppend(s.logs, LogEntry(now,
            if CoercesToOne(value) then "Inversor LIGADO" else "Inversor DESLIGADO", Info)))
      && (!logged ==> r.logs == s.logs)
  {
  }

  /** A text reads as forward exactly when it spells "frente" with each
      letter in either case ("FRENTE", "Frente", "fReNtE", ...); every
      other text reads as reverse. */
  lemma {:induction false} DirectionOfText(t: string, numberText: real -> string)
    ensures DirectionLabel(Str(t), numberText) == "Frente" <==>
      |t| == 6 && forall i :: 0 <= i < 6 ==> t[i] == "frente"[i] || t[i] == "FRENTE"[i]
    ensures DirectionLabel(Str(t), numberText) == "Frente" || DirectionLabel(Str(t), numberText) == "Reverso"
  {
    var low := AsciiLower(t);
    assert ToJsString(Str(t), numberText) == t;
    if |t| == 6 {
      forall i | 0 <= i < 6
        ensures low[i] == "frente"[i] <==> t[i] == "frente"[i] || t[i] == "FRENTE"[i]
      {
        assert low[i] == AsciiLowerChar(t[i]);
      }
      if forall i :: 0 <= i < 6 ==> low[i] == "frente"[i] {
        assert low == "frente";
      }
    }
    assert "Frente" != "Reverso" by { assert "Frente"[0] != "Reverso"[0]; }
  }

  /** Null, undefined, booleans, NaN and objects always read as reverse:
      their string forms have the wrong length to be "frente". */
  lemma DirectionOfNonText(v: JsValue, numberText: real -> string)
    requires !v.Str? && !v.Num?
    ensures DirectionLabel(v, numberText) == "Reverso"
  {
    assert |AsciiLower(ToJsString(v, numberText))| == |ToJsString(v, numberText)| != 6;
  }

  /** A number reads as reverse too: `String(n)` of a number is digits,
      signs, a point, an exponent or "Infinity", never holding an "r". */
  lemma DirectionOfNumber(x: real, numberText: real -> string)
    requires forall c :: c in numberText(x) ==> c != 'r' && c != 'R'
    ensures DirectionLabel(Num(x), numberText) == "Reverso"
  {
    var t := numberText(x);
    if |t| == 6 {
      assert t[1] in t;
      assert AsciiLower(t)[1] != "frente"[1];
    }
  }

  /** The `erro` handler adds exactly one to a numeric error counter, and
      leaves NaN in one that is not numeric; it raises "Erro: ..." as an
      error banner, leaving the other counters alone. */
  lemma ErrorHandlerEffect(s: Snapshot, value: JsValue, now: int, numberText: real -> string)
    ensures var r := ApplyError(s, value, now, numberText);
      && (ToNumber(s.stats.err).Some? ==> r.stats == s.stats.(err := Num(ToNumber(s.stats.err).value + 1.0)))
      && (ToNumber(s.stats.err).None? ==> r.stats == s.stats.(err := NaN))
      && r.showAlertBanner && r.alertType == Error
      && r.alertMessage == "Erro: " + ToJsString(value, numberText)
  {
  }

  /** The `stats` handler, given an object or a JSON text of one,
      overwrites exactly the counters it defines; while the ESP32 is online the system reads "Estável" when
      more than 10 reads were counted and "Transitório" otherwise, and while
      it is offline the system state is untouched. */
  lemma StatsHandlerEffect(s: Snapshot, value: JsValue, fields: map<string, JsValue>,
                           parseJson: string -> Option<JsValue>)
    requires value == Obj(fields) || (value.Str? && parseJson(value.s) == Some(Obj(fields)))
    ensures var r := ApplyStats(s, value, parseJson);
      && r.stats.cmd == (if "cmd" in fields && fields["cmd"] != Undefined then fields["cmd"] else s.stats.cmd)
      && r.stats.read == (if "read" in fields && fields["read"] != Undefined then fields["read"] else s.stats.read)
      && r.stats.err == (if "err" in fields && fields["err"] != Undefined then fields["err"] else s.stats.err)
      && (s.isESP32Online ==> (r.systemState == "Estável" <==> GreaterThan(r.stats.read, 10.0)))
      && (s.isESP32Online ==> (r.systemState == "Transitório" <==> !GreaterThan(r.stats.read, 10.0)))
      && (!s.isESP32Online ==> r.systemState == s.systemState)
  {
    assert ApplyStats(s, value, parseJson) == MergedStats(s, Obj(fields));
    MergedObjectEffect(s, fields);
  }

  /** Merging an object payload, the step `StatsHandlerEffect` reduces to. */
  lemma MergedObjectEffect(s: Snapshot, fields: map<string, JsValue>)
    ensures var r := MergedStats(s, Obj(fields));
      && r.stats.cmd == (if "cmd" in fields && fields["cmd"] != Undefined then fields["cmd"] else s.stats.cmd)
      && r.stats.read == (if "read" in fields && fields["read"] != Undefined then fields["read"] else s.stats.read)
      && r.stats.err == (if "err" in fields && fields["err"] != Undefined then fields["err"] else s.stats.err)
      && (s.isESP32Online ==> (r.systemState == "Estável" <==> GreaterThan(r.stats.read, 10.0)))
      && (s.isESP32Online ==> (r.systemState == "Transitório" <==> !GreaterThan(r.stats.read, 10.0)))
      && (!s.isESP32Online ==> r.systemState == s.systemState)
  {
    assert "Estável" != "Transitório" by { assert "Estável"[0] != "Transitório"[0]; }
  }

  /** A `stats` payload whose text does not parse, or that is null or
      undefined, changes nothing. */
  lemma UnusableStats(s: Snapshot, value: JsValue, parseJson: string -> Option<JsValue>)
    requires value.Null? || value.Undefined? || (value.Str? && parseJson(value.s).None?)
    ensures ApplyStats(s, value, parseJson) == s
  {
  }

  /** A null frame throws on its topic: only the arrival time and the
      last-update stamp change, and the watchdog is not restarted. */
  lemma NullFrameEffect(s: Snapshot, now: int, parseJson: string -> Option<JsValue>, numberText: real -> string)
    ensures MessageReceived(s, Some(Null), now, parseJson, numberText)
      == s.(lastMessageTime := now, lastUpdate := Some(now))
  {
  }

  /** A heartbeat frame only records when it arrived. */
  lemma HeartbeatFrameEffect(s: Snapshot, now: int, parseJson: string -> Option<JsValue>, numberText: real -> string)
    ensures MessageReceived(s, Some(Obj(map["topic" := Str(HeartbeatTopic)])), now, parseJson, numberText)
      == s.(lastMessageTime := now, lastUpdate := Some(now), lastHeartbeatTime := now, watchdogArmedAt := Some(now))
  {
    TopicNameRoundTrip(HeartbeatFrame);
    assert Get(Obj(map["topic" := Str(HeartbeatTopic)]), "topic") == Some(Str(HeartbeatTopic));
  }

  // ---------------------------------------------------------------------
  // Liveness
  // ---------------------------------------------------------------------

  /** The watchdog raises its warning exactly when the silence has lasted
      longer than the timeout, and it is spent afterwards. */
  lemma WatchdogWarnsOnSilence(s: Snapshot, now: int)
    ensures var r := WatchdogFired(s, now);
      && r.watchdogArmedAt.None?
      && (r.showAlertBanner && r.alertType == Warning && r.alertMessage == "Sem atualizações do servidor"
          <== now - s.lastMessageTime > WatchdogTimeout)
      && (now - s.lastMessageTime <= WatchdogTimeout ==> r == s.(watchdogArmedAt := None))
  {
  }

  /** A frame received at `t` restarts the watchdog at `t`, so a firing at
      any time up to 20 s later finds no silence longer than the timeout. */
  lemma WatchdogAfterFrame(s: Snapshot, data: JsValue, t: int,
                           parseJson: string -> Option<JsValue>, numberText: real -> string)
    requires data != Null && data != Undefined && |s.logs| <= LogCapacity
    ensures var r := MessageReceived(s, Some(data), t, parseJson, numberText);
      && r.watchdogArmedAt == Some(t)
      && r.lastMessageTime == t
      && forall later :: t <= later <= t + WatchdogTimeout ==>
           WatchdogFired(r, later) == r.(watchdogArmedAt := None)
  {
    ApplyMessageLeavesLink(s.(lastMessageTime := t), data, t, parseJson, numberText);
  }

  /** The heartbeat check warns exactly when a heartbeat was seen and the
      last one is older than 45 s. */
  lemma HeartbeatCheck(s: Snapshot, now: int)
    ensures var r := HeartbeatChecked(s, now);
      && (r.showAlertBanner && r.alertType == Warning && r.alertMessage == "ESP32 pode estar offline"
          <== s.lastHeartbeatTime > 0 && now - s.lastHeartbeatTime > HeartbeatMaxAge)
      && (!(s.lastHeartbeatTime > 0 && now - s.lastHeartbeatTime > HeartbeatMaxAge) ==> r == s)
  {
  }

  // ---------------------------------------------------------------------
  // Commands
  // ---------------------------------------------------------------------

  /** A command goes out exactly when the socket is open and either the
      ESP32 is online or the command is a ping; a refused command sends
      nothing and raises a toast instead. */
  lemma SendCommandGate(s: Snapshot, now: int, cmd: string, value: JsValue)
    ensures var (r, sent) := SendCommand(s, now, cmd, value);
      && (sent <==> SocketIs(s, Open) && (s.isESP32Online || cmd == "ping"))
      && (sent ==> r.outbox == s.outbox + [CommandFrame(cmd, value)])
      && (!sent ==> r.outbox == s.outbox && |r.toastRequests| == |s.toastRequests| + 1)
  {
    if !SocketIs(s, Open) {
    } else if !s.isESP32Online && cmd != "ping" {
    } else {
    }
  }

  /** The frame is `{cmd, value}`, or `{cmd}` alone when the value is null
      or left out (an explicit `undefined` takes the default, null). */
  lemma CommandFrameShape(cmd: string, value: JsValue)
    ensures CommandFrame(cmd, value).Obj?
    ensures CommandFrame(cmd, value).fields.Keys ==
      (if value == Null || value == Undefined then {"cmd"} else {"cmd", "value"})
    ensures CommandFrame(cmd, value).fields["cmd"] == Str(cmd)
    ensures value != Null && value != Undefined ==> CommandFrame(cmd, value).fields["value"] == value
  {
  }
}
