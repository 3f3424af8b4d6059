/**
 * The formatting side of src/utils/logger.ts: entry creation, the console
 * line and its routing, and the level chosen for an HTTP response. The
 * console itself is the caller's; the model returns the call it would make.
 */
module Logger {
  import opened Wrappers
  import opened Strings

  datatype Level = Info | Warn | Error | Debug

  function LevelName(level: Level): string {
    match level
    case Info => "info"
    case Warn => "warn"
    case Error => "error"
    case Debug => "debug"
  }

  /** `LogEntry`; `data` is the optional attachment, kept opaque as text. */
  datatype LogEntry = LogEntry(level: Level, message: string, data: Option<string>, timestamp: string, source: string)

  /** The console methods a line can go to. */
  datatype Console = ConsoleError | ConsoleWarn | ConsoleDebug | ConsoleLog

  /** A console call: the method, the formatted line and the attachment (`data || ''`). */
  datatype ConsoleCall = ConsoleCall(console: Console, line: string, extra: string)

  /** `createEntry`; the clock reading is a parameter. */
  function CreateEntry(level: Level, source: string, message: string, data: Option<string>, timestamp: string): (entry: LogEntry)
    ensures entry.level == level && entry.source == source && entry.message == message
    ensures entry.data == data && entry.timestamp == timestamp
  {
    LogEntry(level, message, data, timestamp, source)
  }

  /** Error, warn and debug have their own console method; info and anything else use `console.log`. */
  function ConsoleFor(level: Level): (console: Console)
    ensures console == ConsoleLog <==> level == Info
    ensures console == ConsoleError <==> level == Error
    ensures console == ConsoleWarn <==> level == Warn
    ensures console == ConsoleDebug <==> level == Debug
  {
    match level
    case Error => ConsoleError
    case Warn => ConsoleWarn
    case Debug => ConsoleDebug
    case Info => ConsoleLog
  }

  /** The tag between the second pair of brackets. */
  function LevelTag(level: Level): (tag: string)
    ensures |tag| == |LevelName(level)|
    ensures forall i | 0 <= i < |tag| :: !IsLowerAscii(tag[i])
    ensures forall i | 0 <= i < |tag| :: tag[i] == UpperChar(LevelName(level)[i])
    ensures level == Info ==> tag == "INFO"
    ensures level == Warn ==> tag == "WARN"
    ensures level == Error ==> tag == "ERROR"
    ensures level == Debug ==> tag == "DEBUG"
  {
    ToUpper(LevelName(level))
  }

  /** Distinct levels get distinct tags, so a line tells its level. */
  lemma {:induction false} LevelTagsDistinct(a: Level, b: Level)
    requires LevelTag(a) == LevelTag(b)
    ensures a == b
  {
    assert LevelTag(a)[0] == UpperChar(LevelName(a)[0]);
    assert LevelTag(b)[0] == UpperChar(LevelName(b)[0]);
  }

  /** `logToConsole`'s line: `[timestamp] [LEVEL] [source] message`. */
  function FormatLine(entry: LogEntry): (line: string)
    ensures |line| == |entry.timestamp| + |LevelTag(entry.level)| + |entry.source| + |entry.message| + 9
    ensures var t, g, s := |entry.timestamp|, |LevelTag(entry.level)|, |entry.source|;
      && line[0] == '['
      && line[1..t + 1] == entry.timestamp
      && line[t + 1..t + 4] == "] ["
      && line[t + 4..t + 4 + g] == LevelTag(entry.level)
      && line[t + 4 + g..t + 7 + g] == "] ["
      && line[t + 7 + g..t + 7 + g + s] == entry.source
      && line[t + 7 + g + s..t + 9 + g + s] == "] "
      && line[t + 9 + g + s..] == entry.message
  {
    "[" + entry.timestamp + "] [" + LevelTag(entry.level) + "] [" + entry.source + "] " + entry.message
  }

  /** `logToConsole`: the console method the level selects, the line, and the attachment or `''`. */
  function LogToConsole(entry: LogEntry): (call: ConsoleCall)
    ensures call.console == ConsoleFor(entry.level)
    ensures call.line == FormatLine(entry)
    ensures entry.data.None? ==> call.extra == []
    ensures entry.data.Some? ==> call.extra == entry.data.value
  {
    ConsoleCall(ConsoleFor(entry.level), FormatLine(entry), entry.data.GetOr(""))
  }

  /** `logResponse`'s level: error from 400 up, warn from 300, info below. */
  function LevelForStatus(status: int): (level: Level)
    ensures level == Error <==> status >= 400
    ensures level == Warn <==> 300 <= status < 400
    ensures level == Info <==> status < 300
  {
    if status >= 400 then Error else if status >= 300 then Warn else Info
  }

  /** The level never drops as the status grows. */
  lemma LevelForStatusMonotone(s: int, t: int)
    requires s <= t
    ensures LevelForStatus(s) == Error ==> LevelForStatus(t) == Error
    ensures LevelForStatus(t) == Info ==> LevelForStatus(s) == Info
  {
  }

  /** `logRequest`'s message. */
  function RequestMessage(verb: string, url: string): (message: string)
    ensures |message| == |verb| + |url| + 6
    ensures message[..5] == "HTTP "
    ensures message[5..5 + |verb|] == ToUpper(verb)
    ensures message[5 + |verb|] == ' '
    ensures message[|message| - |url|..] == url
  {
    "HTTP " + ToUpper(verb) + " " + url
  }

  /** `logResponse`'s message: the request message followed by the status. */
  function ResponseMessage(verb: string, url: string, status: nat): (message: string)
    ensures IsPrefix(RequestMessage(verb, url), message)
    ensures message[|RequestMessage(verb, url)|..] == " - " + DecimalString(status)
  {
    var request := RequestMessage(verb, url);
    var message := request + " - " + DecimalString(status);
    assert message[..|request|] == request;
    message
  }

  /** `logRequest`: a debug entry whose message is the request line. */
  function LogRequest(source: string, verb: string, url: string, data: Option<string>, timestamp: string): (call: ConsoleCall)
    ensures call.console == ConsoleDebug
    ensures call.line == FormatLine(CreateEntry(Debug, source, RequestMessage(verb, url), data, timestamp))
  {
    LogToConsole(CreateEntry(Debug, source, RequestMessage(verb, url), data, timestamp))
  }

  /**
   * `logResponse`: the entry's level follows the status. The attachment of an
   * error-level entry is passed through unchanged here.
   */
  function LogResponse(source: string, verb: string, url: string, status: nat, data: Option<string>, timestamp: string): (call: ConsoleCall)
    ensures call.console == ConsoleError <==> status >= 400
    ensures call.console == ConsoleWarn <==> 300 <= status < 400
    ensures call.console == ConsoleLog <==> status < 300
    ensures call.line == FormatLine(CreateEntry(LevelForStatus(status), source, ResponseMessage(verb, url, status), data, timestamp))
  {
    LogToConsole(CreateEntry(LevelForStatus(status), source, ResponseMessage(verb, url, status), data, timestamp))
  }
}
