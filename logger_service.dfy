/** `LoggerService`: a level threshold fixed at construction, and one method
    per severity that writes a prefixed line to the console when the severity
    reaches the threshold. */
module Logging {
  import opened Wrappers
  import opened Text

  /** The four severities, with the numbers of `LEVELS`. */
  datatype Severity = Debug | Info | Warn | Error

  function Rank(s: Severity): (n: nat)
    ensures n <= 3
  {
    match s
    case Debug => 0
    case Info => 1
    case Warn => 2
    case Error => 3
  }

  /** `LEVELS[name]` for an upper-cased name; `None` where it is undefined. */
  function LevelNamed(name: string): (r: Option<nat>)
    ensures r.Some? <==> name in {"DEBUG", "INFO", "WARN", "ERROR"}
    ensures r.Some? ==> r.value <= 3
  {
    if name == "DEBUG" then Some(0)
    else if name == "INFO" then Some(1)
    else if name == "WARN" then Some(2)
    else if name == "ERROR" then Some(3)
    else None
  }

  /** The threshold the constructor computes: the named level, matched
      without regard to case, `INFO` when the name is missing or unknown. */
  function LevelOf(name: Option<string>): (n: nat)
    ensures n <= 3
    ensures name.None? ==> n == 1
    ensures name.Some? && LevelNamed(ToUpper(name.value)).Some? ==> n == LevelNamed(ToUpper(name.value)).value
    ensures name.Some? && LevelNamed(ToUpper(name.value)).None? ==> n == 1
  {
    LevelNamed(ToUpper(name.GetOr("INFO"))).GetOr(1)
  }

  /** The console stream each severity writes to. */
  datatype Stream = ConsoleDebug | ConsoleLog | ConsoleWarn | ConsoleError

  datatype Line = Line(stream: Stream, text: string)

  function StreamOf(s: Severity): Stream
  {
    match s
    case Debug => ConsoleDebug
    case Info => ConsoleLog
    case Warn => ConsoleWarn
    case Error => ConsoleError
  }

  function Prefix(s: Severity): string
  {
    match s
    case Debug => "[DEBUG] "
    case Info => "[INFO] "
    case Warn => "[WARN] "
    case Error => "[ERROR] "
  }

  /** What one call writes: the prefixed line when the severity's number is at
      least the threshold, nothing otherwise. */
  function Output(level: nat, s: Severity, message: string): (r: seq<Line>)
    ensures |r| <= 1
    ensures r != [] <==> level <= Rank(s)
    ensures r != [] ==> r[0].stream == StreamOf(s)
    ensures r != [] ==> StartsWith(r[0].text, Prefix(s)) && r[0].text[|Prefix(s)|..] == message
  {
    var text := Prefix(s) + message;
    StartsWithConcat(Prefix(s), message);
    if level <= Rank(s) then [Line(StreamOf(s), text)] else []
  }

  /** A lower threshold shows everything a higher one shows. */
  lemma LowerLevelShowsMore(low: nat, high: nat, s: Severity, message: string)
    requires low <= high
    ensures Output(high, s, message) != [] ==> Output(low, s, message) != []
  {
  }

  /** Errors always show; debug lines only at the debug threshold. */
  lemma Thresholds(name: Option<string>, message: string)
    ensures Output(LevelOf(name), Error, message) != []
    ensures Output(LevelOf(name), Debug, message) != [] <==> LevelOf(name) == 0
    ensures name.None? ==> Output(LevelOf(name), Info, message) != [] && Output(LevelOf(name), Debug, message) == []
  {
  }

  /** An unknown level name behaves as `INFO`: info shows, debug does not. */
  lemma UnknownLevelIsInfo(name: string, message: string)
    requires LevelNamed(ToUpper(name)).None?
    ensures Output(LevelOf(Some(name)), Info, message) == [Line(ConsoleLog, "[INFO] " + message)]
    ensures Output(LevelOf(Some(name)), Debug, message) == []
  {
  }

  /** Level names are matched without regard to case. */
  lemma DebugAnyCase()
    ensures LevelOf(Some("debug")) == 0
  {
    assert ToUpper("debug") == "DEBUG";
  }

  /** The logger; `lines` is what it has written to the console, in order. */
  class LoggerService {
    const level: nat
    var lines: seq<Line>

    constructor (name: Option<string>)
      ensures level == LevelOf(name) && lines == []
    {
      level := LevelOf(name);
      lines := [];
    }

    method Log(s: Severity, message: string)
      modifies this
      ensures lines == old(lines) + Output(level, s, message)
    {
      if level <= Rank(s) {
        lines := lines + [Line(StreamOf(s), Prefix(s) + message)];
      }
    }

    /** `debug(message)`. */
    method Debug(message: string)
      modifies this
      ensures lines == old(lines) + Output(level, Severity.Debug, message)
    {
      Log(Severity.Debug, message);
    }

    /** `info(message)`. */
    method Info(message: string)
      modifies this
      ensures lines == old(lines) + Output(level, Severity.Info, message)
    {
      Log(Severity.Info, message);
    }

    /** `warn(message)`. */
    method Warn(message: string)
      modifies this
      ensures lines == old(lines) + Output(level, Severity.Warn, message)
    {
      Log(Severity.Warn, message);
    }

    /** `error(message)`. */
    method Error(message: string)
      modifies this
      ensures lines == old(lines) + Output(level, Severity.Error, message)
    {
      Log(Severity.Error, message);
    }
  }
}
