/** The pure parts of the telemetry composable: its timing constants, the
    reconnect backoff, the uptime display, the socket URL, the bounded log
    and the two liveness checks (watchdog and heartbeat age). */
module TelemetryFormat {

  import opened Decimal

  // Timing constants of the composable, in milliseconds.
  const ReconnectInterval: real := 3000.0
  const MaxReconnectInterval: real := 30000.0
  const ReconnectBackoff: real := 1.5
  const PingInterval: nat := 30000
  const WatchdogTimeout: int := 20000
  const HeartbeatMaxAge: int := 45000
  const HeartbeatCheckPeriod: nat := 10000
  /** A warning banner hides itself this long after it is shown. */
  const WarningDismissDelay: nat := 10000
  /** The log keeps at most this many entries. */
  const LogCapacity: nat := 100

  // ---------------------------------------------------------------------
  // Reconnect backoff
  // ---------------------------------------------------------------------

  function Pow(b: real, k: nat): real {
    if k == 0 then 1.0 else b * Pow(b, k - 1)
  }

  lemma {:induction false} PowAtLeastOne(b: real, k: nat)
    requires b >= 1.0
    ensures Pow(b, k) >= 1.0
  {
    if k > 0 {
      PowAtLeastOne(b, k - 1);
    }
  }

  lemma {:induction false} PowMonotone(b: real, j: nat, k: nat)
    requires b >= 1.0 && j <= k
    ensures Pow(b, j) <= Pow(b, k)
  {
    if j < k {
      PowMonotone(b, j, k - 1);
      PowAtLeastOne(b, k - 1);
    }
  }

  function Min(x: real, y: real): real {
    if x <= y then x else y
  }

  /** The delay before reconnect attempt number `attempts` (counted from 1):
      the base interval grown by the backoff factor once per earlier attempt,
      capped at the maximum interval. */
  function BackoffDelay(attempts: nat): (delay: real)
    requires attempts >= 1
    ensures ReconnectInterval <= delay <= MaxReconnectInterval
  {
    PowAtLeastOne(ReconnectBackoff, attempts - 1);
    Min(ReconnectInterval * Pow(ReconnectBackoff, attempts - 1), MaxReconnectInterval)
  }

  /** The delay never shrinks as the attempt count grows. */
  lemma BackoffMonotone(m: nat, n: nat)
    requires 1 <= m <= n
    ensures BackoffDelay(m) <= BackoffDelay(n)
  {
    PowMonotone(ReconnectBackoff, m - 1, n - 1);
  }

  /** The first attempt waits exactly the base interval; below the cap each
      further attempt waits 1.5 times as long as the one before. */
  lemma BackoffSteps(n: nat)
    requires n >= 1
    ensures BackoffDelay(1) == ReconnectInterval
    ensures ReconnectInterval * Pow(ReconnectBackoff, n) <= MaxReconnectInterval ==>
      BackoffDelay(n + 1) == ReconnectBackoff * BackoffDelay(n)
  {
    PowMonotone(ReconnectBackoff, n - 1, n);
  }

  /** From the seventh attempt on, the delay sits at the 30 s cap (the sixth
      waits 22781.25 ms, the seventh would wait 34171.875 ms uncapped). */
  lemma {:induction false} BackoffCapped(n: nat)
    requires n >= 7
    ensures BackoffDelay(n) == MaxReconnectInterval
  {
    assert Pow(ReconnectBackoff, 6) == 11.390625 by {
      assert Pow(ReconnectBackoff, 2) == 2.25;
      assert Pow(ReconnectBackoff, 4) == 1.5 * (1.5 * 2.25);
    }
    PowMonotone(ReconnectBackoff, 6, n - 1);
  }

  /** `Math.round`: the nearest integer, halves rounded up. */
  function Round(x: real): (r: int)
    ensures x - 0.5 < r as real <= x + 0.5
  {
    (x + 0.5).Floor
  }

  /** The whole seconds announced in the "next attempt" log line. */
  function DelaySeconds(delay: real): (s: int)
    requires ReconnectInterval <= delay <= MaxReconnectInterval
    ensures 3 <= s <= 30
  {
    Round(delay / 1000.0)
  }

  // ---------------------------------------------------------------------
  // Uptime display
  // ---------------------------------------------------------------------

  /** Hours, minutes of the hour and seconds of the minute in `seconds`. */
  function UptimeParts(seconds: nat): (p: (nat, nat, nat))
    ensures p.0 * 3600 + p.1 * 60 + p.2 == seconds
    ensures p.1 < 60 && p.2 < 60
  {
    (seconds / 3600, (seconds % 3600) / 60, seconds % 60)
  }

  /** "Hh Mm" from one hour on, "Mm Ss" from one minute on, "Ss" below. */
  function FormatUptime(seconds: nat): string {
    var (hours, minutes, secs) := UptimeParts(seconds);
    RenderUptime(hours, minutes, secs)
  }

  /** The leading number, then its unit and what follows it. */
  function RenderUptime(hours: nat, minutes: nat, secs: nat): string {
    NatToString(LeadNumber(hours, minutes, secs)) + AfterLead(hours, minutes, secs)
  }

  /** Two numerals followed by texts that do not begin with a digit can only
      be equal when the numbers and the texts are. */
  lemma SplitNumeral(a: nat, b: nat, x: string, y: string)
    requires NatToString(a) + x == NatToString(b) + y
    requires x == [] || !IsDigit(x[0])
    requires y == [] || !IsDigit(y[0])
    ensures a == b && x == y
  {
    var sa, sb := NatToString(a), NatToString(b);
    var whole := sa + x;
    DigitRunOf(sa, x);
    DigitRunOf(sb, y);
    assert sa == whole[..|sa|] == sb;
    NatToStringInjective(a, b);
    assert x == whole[|sa|..] == y;
  }

  /** The number a rendered uptime begins with, and the text after it. */
  function LeadNumber(hours: nat, minutes: nat, secs: nat): nat {
    if hours > 0 then hours else if minutes > 0 then minutes else secs
  }

  function AfterLead(hours: nat, minutes: nat, secs: nat): (r: string)
    ensures r != [] && !IsDigit(r[0])
    ensures r[0] == 'h' <==> hours > 0
    ensures r[0] == 'm' <==> hours == 0 && minutes > 0
  {
    if hours > 0 then "h " + NatToString(minutes) + "m"
    else if minutes > 0 then "m " + NatToString(secs) + "s"
    else "s"
  }

  /** The rendered text gives back the hours and minutes it shows, and the
      seconds too when there are no hours. */
  lemma RenderUptimeDetermines(h1: nat, m1: nat, c1: nat, h2: nat, m2: nat, c2: nat)
    requires RenderUptime(h1, m1, c1) == RenderUptime(h2, m2, c2)
    ensures h1 == h2 && m1 == m2
    ensures h1 == 0 ==> c1 == c2
  {
    SplitNumeral(LeadNumber(h1, m1, c1), LeadNumber(h2, m2, c2), AfterLead(h1, m1, c1), AfterLead(h2, m2, c2));
    AfterLeadDetermines(h1, m1, c1, h2, m2, c2);
  }

  /** The text after the leading number gives back the unit of that number
      and the number after it. */
  lemma AfterLeadDetermines(h1: nat, m1: nat, c1: nat, h2: nat, m2: nat, c2: nat)
    requires AfterLead(h1, m1, c1) == AfterLead(h2, m2, c2)
    ensures (h1 > 0 <==> h2 > 0) && (h1 == 0 ==> (m1 > 0 <==> m2 > 0))
    ensures h1 > 0 ==> m1 == m2
    ensures h1 == 0 && m1 > 0 ==> c1 == c2
  {
    var rest1, rest2 := AfterLead(h1, m1, c1), AfterLead(h2, m2, c2);
    if h1 > 0 {
      assert rest1[2..] == NatToString(m1) + "m" && rest2[2..] == NatToString(m2) + "m";
      SplitNumeral(m1, m2, "m", "m");
    } else if m1 > 0 {
      assert rest1[2..] == NatToString(c1) + "s" && rest2[2..] == NatToString(c2) + "s";
      SplitNumeral(c1, c2, "s", "s");
    }
  }

  /** The display determines the uptime to the minute, and to the second
      while it is below one hour. */
  lemma FormatUptimeDetermines(s: nat, t: nat)
    requires FormatUptime(s) == FormatUptime(t)
    ensures s / 60 == t / 60
    ensures s < 3600 ==> s == t
  {
    var p, q := UptimeParts(s), UptimeParts(t);
    RenderUptimeDetermines(p.0, p.1, p.2, q.0, q.1, q.2);
    assert s / 60 == p.0 * 60 + p.1;
    assert t / 60 == q.0 * 60 + q.1;
  }

  // ---------------------------------------------------------------------
  // Socket URL
  // ---------------------------------------------------------------------

  /** Host and path of the telemetry socket; they do not depend on anything. */
  const GatewayAddress: string := "api.jamek.com.br/api/ws/inversor"

  /** The socket URL: a secure socket exactly when the page itself was
      served over https, always to the same host and path. */
  function WebSocketUrl(pageProtocol: string): (url: string)
    ensures |url| > |GatewayAddress| && url[|url| - |GatewayAddress|..] == GatewayAddress
    ensures url[..|url| - |GatewayAddress|] == (if pageProtocol == "https:" then "wss://" else "ws://")
  {
    (if pageProtocol == "https:" then "wss://" else "ws://") + GatewayAddress
  }

  /** The page protocol decides the URL through one bit only: two pages get
      the same URL exactly when both or neither are https, and the URL
      names a secure socket exactly on an https page. */
  lemma {:induction false} SecureExactlyOnHttps(p: string, q: string)
    ensures WebSocketUrl(p) == WebSocketUrl(q) <==> ((p == "https:") == (q == "https:"))
    ensures |WebSocketUrl(p)| >= 6 && (WebSocketUrl(p)[..6] == "wss://" <==> p == "https:")
  {
    var secure, plain := WebSocketUrl("https:"), "ws://" + GatewayAddress;
    assert secure[2] != plain[2];
    if p != "https:" {
      assert WebSocketUrl(p) == plain;
      assert WebSocketUrl(p)[..6][2] != "wss://"[2];
    }
  }

  // ---------------------------------------------------------------------
  // Bounded log
  // ---------------------------------------------------------------------

  /** The log after one more entry: appended last, and the oldest entry
      dropped when the log would otherwise exceed its capacity. */
  function BoundedAppend<T>(log: seq<T>, entry: T): (r: seq<T>)
    ensures |r| >= 1 && r[|r| - 1] == entry
    ensures |log| < LogCapacity ==> r == log + [entry]
    ensures |log| >= LogCapacity ==> r == log[1..] + [entry]
  {
    var pushed := log + [entry];
    if |pushed| > LogCapacity then pushed[1..] else pushed
  }

  /** A log within capacity stays within capacity, and a full one stays full. */
  lemma BoundedAppendWithinCapacity<T>(log: seq<T>, entry: T)
    requires |log| <= LogCapacity
    ensures |BoundedAppend(log, entry)| <= LogCapacity
    ensures |log| == LogCapacity ==> |BoundedAppend(log, entry)| == LogCapacity
  {
  }

  // ---------------------------------------------------------------------
  // Liveness checks
  // ---------------------------------------------------------------------

  /** The watchdog's test when it fires: more than the timeout has passed
      since the last message. */
  predicate SilentTooLong(now: int, lastMessageTime: int) {
    now - lastMessageTime > WatchdogTimeout
  }

  /** The periodic heartbeat test: a heartbeat has been seen, and the last
      one is older than the allowed age. */
  predicate HeartbeatStale(now: int, lastHeartbeatTime: int) {
    lastHeartbeatTime > 0 && now - lastHeartbeatTime > HeartbeatMaxAge
  }
}
