/**
 * src/middlewares/logger.ts: a level filter, the development log-line format, and the
 * entries the request hooks and the `logger` utility build. Clocks are parameters (`now`
 * in milliseconds, `timestamp` the ISO string); the configured level is the raw
 * `LOG_LEVEL` string, which the source uses without checking it.
 */
module Logging {
  import opened Wrappers
  import opened Text
  import opened Context

  datatype Level = Debug | Info | Warn | Error

  /** `LOG_LEVELS`. */
  function Rank(l: Level): (r: nat)
    ensures r <= 3
    ensures l == Error <==> r == 3
    ensures l == Debug <==> r == 0
    ensures l == Info <==> r == 1
    ensures l == Warn <==> r == 2
  {
    match l
    case Debug => 0
    case Info => 1
    case Warn => 2
    case Error => 3
  }

  /** The level's key in `LOG_LEVELS`. */
  function LevelName(l: Level): string {
    match l
    case Debug => "debug"
    case Info => "info"
    case Warn => "warn"
    case Error => "error"
  }

  /** `level.toUpperCase()`. */
  function UpperName(l: Level): string {
    match l
    case Debug => "DEBUG"
    case Info => "INFO"
    case Warn => "WARN"
    case Error => "ERROR"
  }

  /** Looking a configured name up in `LOG_LEVELS`: only the four keys have a rank. */
  function LevelOfName(name: string): (r: Option<Level>)
    ensures r.Some? ==> LevelName(r.value) == name
  {
    if name == "debug" then Some(Debug)
    else if name == "info" then Some(Info)
    else if name == "warn" then Some(Warn)
    else if name == "error" then Some(Error)
    else None
  }

  /** Level names and `LOG_LEVELS` keys are in one-to-one correspondence. */
  lemma LevelNameRoundTrip(l: Level)
    ensures LevelOfName(LevelName(l)) == Some(l)
  {
  }

  /**
   * `shouldLog(level)`: the level ranks at or above the configured one. An unknown configured
   * name has no rank, every comparison with it is false, and nothing is logged.
   */
  predicate ShouldLog(l: Level, configured: string)
    ensures ShouldLog(l, configured) <==>
              || configured == "debug"
              || (configured == "info" && l != Debug)
              || (configured == "warn" && (l == Warn || l == Error))
              || (configured == "error" && l == Error)
  {
    LevelOfName(configured).Some? && Rank(l) >= Rank(LevelOfName(configured).value)
  }

  /** Error entries pass at every known configured level; debug entries only at `debug`. */
  lemma FilterExtremes(configured: string)
    ensures ShouldLog(Error, configured) <==> LevelOfName(configured).Some?
    ensures ShouldLog(Debug, configured) <==> configured == "debug"
  {
  }

  /** The filter is monotone: whatever passes, passes at every higher level too. */
  lemma FilterMonotone(l: Level, l': Level, configured: string)
    requires Rank(l) <= Rank(l') && ShouldLog(l, configured)
    ensures ShouldLog(l', configured)
  {
  }

  /** An unchecked, unknown `LOG_LEVEL` silences every level. */
  lemma UnknownLevelSilences(l: Level, configured: string)
    requires configured !in {"debug", "info", "warn", "error"}
    ensures !ShouldLog(l, configured)
  {
  }

  datatype ErrorInfo = ErrorInfo(name: string, message: string, stack: Option<string>)

  /** A `LogEntry`; `status`, `latency` and `error` may be undefined. */
  datatype LogEntry = LogEntry(
    timestamp: string,
    level: Level,
    requestId: string,
    httpMethod: string,
    path: string,
    status: Option<int>,
    latency: Option<int>,
    message: string,
    error: Option<ErrorInfo>)

  /** ` ${status}` when the status is defined. */
  function StatusSegment(status: Option<int>): (r: string)
    ensures status.None? <==> r == ""
    ensures status.Some? ==> r == " " + IntToString(status.value)
    ensures status.Some? ==> ParseInt(r) == Some(status.value)
  {
    if status.Some? then
      ParseIntOfIntToString(status.value);
      LeadingSpaceIgnored(IntToString(status.value));
      " " + IntToString(status.value)
    else ""
  }

  /** ` ${latency}ms` when the latency is defined. */
  function LatencySegment(latency: Option<int>): (r: string)
    ensures latency.None? <==> r == ""
    ensures latency.Some? ==> |r| >= 3 && r[|r| - 2..] == "ms" && r[..|r| - 2] == " " + IntToString(latency.value)
  {
    if latency.Some? then " " + IntToString(latency.value) + "ms" else ""
  }

  /** ` | Error: ${error.message}` when an error is attached. */
  function ErrorSegment(error: Option<ErrorInfo>): (r: string)
    ensures error.None? <==> r == ""
    ensures error.Some? ==> r == " | Error: " + error.value.message
  {
    if error.Some? then " | Error: " + error.value.message else ""
  }

  /** A space before a number does not change what `parseInt` reads. */
  lemma LeadingSpaceIgnored(s: string)
    requires |s| >= 1 && !IsWhitespace(s[0])
    ensures ParseInt(" " + s) == ParseInt(s)
  {
    assert TrimStart(" " + s) == TrimStart(s) by {
      assert (" " + s)[1..] == s;
    }
  }

  /** `[ts] LEVEL [`: what precedes the request id on a development line. */
  function LineOpening(e: LogEntry): string {
    "[" + e.timestamp + "] " + UpperName(e.level) + " ["
  }

  /** Everything after the shortened request id: `] METHOD PATH[ status][ latencyms] - message[ | Error: m]`. */
  function LineRest(e: LogEntry): string {
    LineFields(e) + LineTail(e)
  }

  /** `] METHOD PATH[ status][ latencyms]`. */
  function LineFields(e: LogEntry): string {
    "] " + e.httpMethod + " " + e.path + StatusSegment(e.status) + LatencySegment(e.latency)
  }

  /** ` - message[ | Error: m]`. */
  function LineTail(e: LogEntry): string {
    " - " + e.message + ErrorSegment(e.error)
  }

  /**
   * The development branch of `formatLog`: the level upper-cased, the request id cut to
   * its first 8 characters, the optional status and latency, the message, and the optional
   * error suffix.
   */
  function FormatDev(e: LogEntry): (line: string)
    ensures |line| >= 2 && line[0] == '['
  {
    LineOpening(e) + Prefix(e.requestId, 8) + LineRest(e)
  }

  /**
   * The bracketed id on the line is the request id's first 8 characters (all of it when
   * shorter), closed by `]`.
   */
  lemma LineShowsShortRequestId(e: LogEntry)
    ensures var shown := Prefix(e.requestId, 8);
            var at := |LineOpening(e)|;
            && |shown| == (if |e.requestId| <= 8 then |e.requestId| else 8)
            && shown == e.requestId[..|shown|]
            && at + |shown| < |FormatDev(e)|
            && FormatDev(e)[at..at + |shown|] == shown
            && FormatDev(e)[at + |shown|] == ']'
            && FormatDev(e)[at - 1] == '['
  {
    var shown := Prefix(e.requestId, 8);
    var line := FormatDev(e);
    assert line == LineOpening(e) + (shown + LineRest(e));
  }

  /**
   * The line opens with the bracketed timestamp, the upper-cased level and `[`; right after
   * the shortened request id come `] METHOD PATH`, then the status and latency segments.
   */
  lemma LineLayout(e: LogEntry)
    ensures var line := FormatDev(e);
            var opening := "[" + e.timestamp + "] " + UpperName(e.level) + " [";
            var fields := "] " + e.httpMethod + " " + e.path + StatusSegment(e.status) + LatencySegment(e.latency);
            var tail := " - " + e.message + ErrorSegment(e.error);
            var at := |opening| + |Prefix(e.requestId, 8)|;
            && |opening| <= at && |line| == at + |fields| + |tail|
            && line[..|opening|] == opening
            && line[at..at + |fields|] == fields
            && line[at + |fields|..] == tail
  {
    var opening := LineOpening(e);
    var shown := Prefix(e.requestId, 8);
    var fields := LineFields(e);
    var line := FormatDev(e);
    assert line == opening + (shown + (fields + LineTail(e)));
    assert line == (opening + shown) + fields + LineTail(e);
    assert line[..|opening|] == opening;
    assert line[|opening| + |shown|..|opening| + |shown| + |fields|] == fields;
    assert line[|opening| + |shown| + |fields|..] == LineTail(e);
  }

  /** The line ends with ` - message`, followed by ` | Error: <its message>` exactly when an error is attached. */
  lemma LineEnding(e: LogEntry)
    ensures var line := FormatDev(e);
            var tail := " - " + e.message + (if e.error.Some? then " | Error: " + e.error.value.message else "");
            |tail| <= |line| && line[|line| - |tail|..] == tail
  {
    var head := LineOpening(e) + Prefix(e.requestId, 8);
    assert FormatDev(e) == (head + LineFields(e)) + LineTail(e);
  }

  /** Where `log` sends a line. */
  datatype Channel = ConsoleError | ConsoleWarn | ConsoleDebug | ConsoleLog

  datatype Emission = Emission(channel: Channel, entry: LogEntry)

  /** `log(entry)`: nothing when the filter refuses; otherwise the console method for the level. */
  function Log(e: LogEntry, configured: string): (r: Option<Emission>)
    ensures r.Some? <==> ShouldLog(e.level, configured)
    ensures r.Some? ==> r.value.entry == e
    ensures r.Some? ==> (r.value.channel == ConsoleError <==> e.level == Error)
    ensures r.Some? ==> (r.value.channel == ConsoleWarn <==> e.level == Warn)
    ensures r.Some? ==> (r.value.channel == ConsoleDebug <==> e.level == Debug)
    ensures r.Some? ==> (r.value.channel == ConsoleLog <==> e.level == Info)
  {
    if !ShouldLog(e.level, configured) then None
    else
      var channel := match e.level
        case Error => ConsoleError
        case Warn => ConsoleWarn
        case Debug => ConsoleDebug
        case Info => ConsoleLog;
      Some(Emission(channel, e))
  }

  /** The logger's `derive` hook: records when the request started. */
  method DeriveStartTime(ctx: RequestContext, now: int)
    modifies ctx`startTime
    ensures ctx.startTime == Some(now)
  {
    ctx.startTime := Some(now);
  }

  /** The `onBeforeHandle` hook: a debug entry `Request received`, only at the debug level. */
  function RequestReceived(requestId: Option<string>, httpMethod: string, path: string, timestamp: string, configured: string): (r: Option<Emission>)
    ensures r.Some? <==> configured == "debug"
    ensures r.Some? ==> r.value.entry.level == Debug && r.value.entry.requestId == OrIfEmpty(requestId, "unknown")
    ensures r.Some? ==> r.value.entry.status.None? && r.value.entry.latency.None? && r.value.entry.error.None?
  {
    if ShouldLog(Debug, configured) then
      Log(LogEntry(timestamp, Debug, OrIfEmpty(requestId, "unknown"), httpMethod, path, None, None, "Request received", None), configured)
    else None
  }

  /** The `onAfterHandle` hook's entry: status `set.status || 200` and the elapsed time. */
  function RequestCompleted(requestId: Option<string>, startTime: int, status: Option<int>, now: int,
                            httpMethod: string, path: string, timestamp: string): (e: LogEntry)
    ensures e.level == Info && e.message == "Request completed" && e.error.None?
    ensures e.requestId == OrIfEmpty(requestId, "unknown")
    ensures e.status == Some(if status.None? || status.value == 0 then 200 else status.value)
    ensures e.latency == Some(now - startTime)
  {
    var st := if status.Some? && status.value != 0 then status.value else 200;
    LogEntry(timestamp, Info, OrIfEmpty(requestId, "unknown"), httpMethod, path, Some(st), Some(now - startTime), "Request completed", None)
  }

  /**
   * The `onError` hook's entry: status `set.status || 500`, no latency when no start time
   * was recorded (or it was 0), and the stack only in development.
   */
  function RequestFailed(requestId: Option<string>, startTime: Option<int>, status: Option<int>, now: int,
                         httpMethod: string, path: string, timestamp: string,
                         errorName: string, errorMessage: string, stack: Option<string>, isDevelopment: bool): (e: LogEntry)
    ensures e.level == Error && e.message == "Request failed"
    ensures e.requestId == OrIfEmpty(requestId, "unknown")
    ensures e.status == Some(if status.None? || status.value == 0 then 500 else status.value)
    ensures e.latency.Some? <==> startTime.Some? && startTime.value != 0
    ensures e.latency.Some? ==> e.latency.value == now - startTime.value
    ensures e.error.Some? && e.error.value.name == errorName && e.error.value.message == errorMessage
    ensures e.error.value.stack.Some? ==> isDevelopment
    ensures isDevelopment ==> e.error.value.stack == stack
  {
    var st := if status.Some? && status.value != 0 then status.value else 500;
    var latency := if startTime.Some? && startTime.value != 0 then Some(now - startTime.value) else None;
    var info := ErrorInfo(errorName, errorMessage, if isDevelopment then stack else None);
    LogEntry(timestamp, Error, OrIfEmpty(requestId, "unknown"), httpMethod, path, Some(st), latency, "Request failed", Some(info))
  }

  /** A request that fails is always logged unless the configured level is unknown. */
  lemma FailuresAlwaysLogged(requestId: Option<string>, startTime: Option<int>, status: Option<int>, now: int,
                             httpMethod: string, path: string, timestamp: string,
                             errorName: string, errorMessage: string, stack: Option<string>, isDevelopment: bool,
                             configured: string)
    requires LevelOfName(configured).Some?
    ensures Log(RequestFailed(requestId, startTime, status, now, httpMethod, path, timestamp,
                              errorName, errorMessage, stack, isDevelopment), configured).Some?
  {
    FilterExtremes(configured);
  }

  /**
   * The `logger` utility's entry: method and path `-`, request id `meta.requestId || 'system'`,
   * after which spreading `meta` puts back a `requestId` key it carries, even an empty one.
   * `metaRequestId` is that key when present.
   */
  function UtilityEntry(level: Level, message: string, metaRequestId: Option<string>, timestamp: string): (e: LogEntry)
    ensures e.level == level && e.message == message && e.httpMethod == "-" && e.path == "-"
    ensures e.requestId == if metaRequestId.Some? then metaRequestId.value else "system"
    ensures e.status.None? && e.latency.None? && e.error.None?
  {
    var defaulted := OrIfEmpty(metaRequestId, "system");
    var spread := if metaRequestId.Some? then metaRequestId.value else defaulted;
    LogEntry(timestamp, level, spread, "-", "-", None, None, message, None)
  }

  /** `logger.debug`, `logger.info`, `logger.warn` and `logger.error`. */
  function UtilityLog(level: Level, message: string, metaRequestId: Option<string>, timestamp: string, configured: string): (r: Option<Emission>)
    ensures r.Some? <==> ShouldLog(level, configured)
    ensures r.Some? ==> r.value.entry == UtilityEntry(level, message, metaRequestId, timestamp)
  {
    if ShouldLog(level, configured) then Log(UtilityEntry(level, message, metaRequestId, timestamp), configured) else None
  }
}
