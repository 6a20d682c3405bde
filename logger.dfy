/** The extension's logger: a level setting kept in two forms (the level name
    and its ordinal), the gate every log method applies before writing to the
    output channel or the console, and the helpers that shape a log line. */
module Logging {
  import opened Wrappers
  import opened Strings

  /** The `LogLevel` names, from least to most verbose; a level's ordinal is its
      position here. */
  const LogLevels: seq<string> := ["off", "error", "warn", "info", "debug"]

  /** The `OutputLevel` names the settings use. */
  const OutputLevels: seq<string> := ["silent", "errors", "verbose", "debug"]

  /** `OrderedLevel`: Off = 0, Error = 1, Warn = 2, Info = 3, Debug = 4. */
  type OrderedLevel = n: nat | n <= 4

  const OrderedOff: OrderedLevel := 0
  const OrderedError: OrderedLevel := 1
  const OrderedWarn: OrderedLevel := 2
  const OrderedInfo: OrderedLevel := 3
  const OrderedDebug: OrderedLevel := 4

  const ConsolePrefix := "[GitLens]"
  const GitConsolePrefix := "[GitLens (Git)]"

  // ---------------------------------------------------------------------------
  // Levels

  /** `fromOutputLevel`: a settings level becomes a log level; anything else is
      passed through unchanged. */
  function FromOutputLevel(level: string): string
  {
    if level == "silent" then "off"
    else if level == "errors" then "error"
    else if level == "verbose" then "info"
    else if level == "debug" then "debug"
    else level
  }

  /** `toOrderedLevel`: the ordinal of a log level; an unknown name is Off. */
  function ToOrderedLevel(level: string): OrderedLevel
  {
    if level == "off" then OrderedOff
    else if level == "error" then OrderedError
    else if level == "warn" then OrderedWarn
    else if level == "info" then OrderedInfo
    else if level == "debug" then OrderedDebug
    else OrderedOff
  }

  /** The ordinal of a level name is its position in the order
      Off < Error < Warn < Info < Debug, so the ordinals grow with verbosity;
      every other name counts as Off. */
  lemma ToOrderedLevelIsPosition(level: string)
    ensures forall i :: 0 <= i < |LogLevels| ==> ToOrderedLevel(LogLevels[i]) == i
    ensures level !in LogLevels ==> ToOrderedLevel(level) == OrderedOff
  {
    assert LogLevels[0] == "off" && LogLevels[1] == "error" && LogLevels[2] == "warn";
    assert LogLevels[3] == "info" && LogLevels[4] == "debug";
  }

  /** Each settings level lands on a log level (Silent on Off, Errors on Error,
      Verbose on Info, Debug on Debug); log levels and unknown names are kept. */
  lemma FromOutputLevelMapping(level: string)
    ensures FromOutputLevel(OutputLevels[0]) == LogLevels[0]
    ensures FromOutputLevel(OutputLevels[1]) == LogLevels[1]
    ensures FromOutputLevel(OutputLevels[2]) == LogLevels[3]
    ensures FromOutputLevel(OutputLevels[3]) == LogLevels[4]
    ensures level !in OutputLevels ==> FromOutputLevel(level) == level
  {
  }

  /** Converting twice changes nothing more than converting once. */
  lemma FromOutputLevelIdempotent(level: string)
    ensures FromOutputLevel(FromOutputLevel(level)) == FromOutputLevel(level)
  {
  }

  // ---------------------------------------------------------------------------
  // Pieces of a log line

  /** The context of a correlated operation: its id and the prefix its log
      messages start with. */
  datatype CorrelationContext = CorrelationContext(correlationId: Option<nat>, prefix: string)

  /** `getNewCorrelationContext(prefix)` for the id the correlation counter
      handed out (the counter is not part of this model). */
  function NewCorrelationContext(correlationId: nat, prefix: string): CorrelationContext
  {
    CorrelationContext(Some(correlationId), "[" + PadStart(NatToString(correlationId), 5) + "] " + prefix)
  }

  /** For ids below 100000 the prefix is `[`, the id's decimal digits
      right-aligned with spaces in five columns, `] ` and the caller's prefix;
      the id can be read back from it. */
  lemma CorrelationPrefixLayout(correlationId: nat, prefix: string)
    requires correlationId < 100000
    ensures var ctx := NewCorrelationContext(correlationId, prefix);
      && ctx.correlationId == Some(correlationId)
      && |ctx.prefix| == |prefix| + 8
      && ctx.prefix[0] == '[' && ctx.prefix[6..8] == "] " && ctx.prefix[8..] == prefix
      && |NatToString(correlationId)| <= 5
      && ctx.prefix[1..6] == Spaces(5 - |NatToString(correlationId)|) + NatToString(correlationId)
      && TrimStart(ctx.prefix[1..6]) == NatToString(correlationId)
      && IsDecimal(TrimStart(ctx.prefix[1..6]))
      && ParseDecimal(TrimStart(ctx.prefix[1..6])) == correlationId
  {
    var digits := NatToString(correlationId);
    var padded := PadStart(digits, 5);
    PaddedId(correlationId);
    DecimalRoundTrip(correlationId);
    BracketedLayout(padded, prefix);
  }

  /** The pieces of `[<field>] <rest>` for a five-column field. */
  lemma BracketedLayout(field: string, rest: string)
    requires |field| == 5
    ensures var s := "[" + field + "] " + rest;
      && |s| == |rest| + 8 && s[0] == '['
      && s[1..6] == field && s[6..8] == "] " && s[8..] == rest
  {
    var s := "[" + field + "] " + rest;
    assert s[1..6] == field;
    assert s[6..8] == "] ";
    assert s[8..] == rest;
  }

  /** An id below 100000 padded to five columns: spaces, then its digits. */
  lemma PaddedId(correlationId: nat)
    requires correlationId < 100000
    ensures |NatToString(correlationId)| <= 5
    ensures PadStart(NatToString(correlationId), 5) ==
      Spaces(5 - |NatToString(correlationId)|) + NatToString(correlationId)
    ensures TrimStart(PadStart(NatToString(correlationId), 5)) == NatToString(correlationId)
  {
    var digits := NatToString(correlationId);
    assert Pow10(5) == 100000;
    DecimalWidth(correlationId, 5);
    TrimStartPadded(5 - |digits|, digits);
  }

  /** An id of six digits or more fills the field, so `padStart` leaves it as it
      is: the prefix is `[`, the id's digits, `] ` and the caller's prefix, and
      the id reads back from those digits. */
  lemma CorrelationPrefixWide(correlationId: nat, prefix: string)
    requires correlationId >= 100000
    ensures var ctx := NewCorrelationContext(correlationId, prefix);
      && ctx.correlationId == Some(correlationId)
      && ctx.prefix == "[" + NatToString(correlationId) + "] " + prefix
      && |NatToString(correlationId)| > 5
      && ParseDecimal(NatToString(correlationId)) == correlationId
  {
    assert Pow10(5) == 100000;
    DecimalWidthAtLeast(correlationId, 5);
    DecimalRoundTrip(correlationId);
  }

  /** What `toLoggableName` can see of its argument: a function without a
      prototype constructor (its own name is used as is), a function whose
      prototype has a constructor, or an object; the last two carry their
      constructor's name when it has one. */
  datatype Nameable =
    | BareFunction(name: string)
    | ConstructorFunction(constructorName: Option<string>)
    | Instance(constructorName: Option<string>)

  /** Drops a bundler's module name: everything up to the first `_`. */
  function StripModuleName(name: string): string
  {
    var index := IndexOf(name, '_');
    if index == -1 then name else SubstringFrom(name, index + 1)
  }

  function ToLoggableName(instance: Nameable): string
  {
    match instance
    case BareFunction(name) => name
    case ConstructorFunction(constructorName) => StripModuleName(constructorName.GetOr(""))
    case Instance(constructorName) => StripModuleName(constructorName.GetOr(""))
  }

  /** A name without `_` is kept; otherwise the name is an underscore-free
      module part, `_`, and the result. */
  lemma StripModuleNameSplits(name: string)
    ensures '_' !in name ==> StripModuleName(name) == name
    ensures '_' in name ==>
      var i := IndexOf(name, '_');
      name == name[..i] + "_" + StripModuleName(name) && '_' !in name[..i]
  {
    if '_' in name {
      var i := IndexOf(name, '_');
      SplitAtFirst(name, '_');
      assert SubstringFrom(name, i + 1) == name[i + 1..];
    }
  }

  /** A class name `module_Class`, with an underscore-free module part, logs as
      `Class`, whatever the class name holds. */
  lemma ModuleNameStripped(moduleName: string, className: string)
    requires '_' !in moduleName
    ensures ToLoggableName(Instance(Some(moduleName + "_" + className))) == className
    ensures ToLoggableName(ConstructorFunction(Some(moduleName + "_" + className))) == className
  {
    var name := moduleName + "_" + className;
    IndexOfAfter(moduleName, '_', className);
    assert SubstringFrom(name, |moduleName| + 1) == name[|moduleName| + 1..] == className;
  }

  /** `toLoggableParams`: nothing when there are no params, or when the params
      are debug-only and neither the level nor a debugger asks for them;
      otherwise ` — ` and the params joined with `, `, unless that is empty. */
  function LoggableParams(debugOnly: bool, level: OrderedLevel, isDebugging: bool, params: seq<string>): string
  {
    if |params| == 0 || (debugOnly && level < OrderedDebug && !isDebugging) then ""
    else
      var loggableParams := Join(params, ", ");
      if |loggableParams| != 0 then " \U{2014} " + loggableParams else ""
  }

  /** The params are shown exactly when there is one that is not empty text and
      the gate lets them through, and then they are shown in full. */
  lemma LoggableParamsShown(debugOnly: bool, level: OrderedLevel, isDebugging: bool, params: seq<string>)
    ensures LoggableParams(debugOnly, level, isDebugging, params) == "" <==>
      params == [] || params == [""] || (debugOnly && level < OrderedDebug && !isDebugging)
    ensures LoggableParams(debugOnly, level, isDebugging, params) != "" ==>
      LoggableParams(debugOnly, level, isDebugging, params) == " \U{2014} " + Join(params, ", ")
  {
    JoinEmpty(params, ", ");
  }

  /** The first argument of a log call: a message, a correlation context, or
      `undefined`. */
  datatype ContextOrMessage = Message(text: string) | Context(context: CorrelationContext) | NoContext

  function First(params: seq<string>): Option<string>
  {
    if params == [] then None else Some(params[0])
  }

  /** What `params.shift()` leaves. */
  function Shifted(params: seq<string>): seq<string>
  {
    if params == [] then [] else params[1..]
  }

  /** The message of `debug`, `log`, `logWithDebugParams` and `warn`, and the
      params left after it: without a text message the first param is taken
      as the message, behind the context's prefix when there is a context. */
  function TakeMessage(head: ContextOrMessage, params: seq<string>): (Option<string>, seq<string>)
  {
    match head
    case Message(text) => (Some(text), params)
    case NoContext => (First(params), Shifted(params))
    case Context(ctx) => (Some(ctx.prefix + " " + First(params).GetOr("")), Shifted(params))
  }

  /** The message of `error`: `undefined` stays a missing message and takes
      nothing from the params. */
  function TakeErrorMessage(head: ContextOrMessage, params: seq<string>): (Option<string>, seq<string>)
  {
    match head
    case Message(text) => (Some(text), params)
    case NoContext => (None, params)
    case Context(ctx) => (Some(ctx.prefix + " " + First(params).GetOr("")), Shifted(params))
  }

  /** The two call forms agree: `log(m, ...ps)` and `log(undefined, m, ...ps)`
      log the same thing, and a context puts its prefix and a space in front of
      the message. `error(ex, undefined, ...ps)` takes no message from `ps`. */
  lemma CallFormsAgree(m: string, ctx: CorrelationContext, params: seq<string>)
    ensures TakeMessage(NoContext, [m] + params) == TakeMessage(Message(m), params)
    ensures TakeMessage(Context(ctx), [m] + params) == (Some(ctx.prefix + " " + m), params)
    ensures TakeErrorMessage(Context(ctx), [m] + params) == TakeMessage(Context(ctx), [m] + params)
    ensures TakeErrorMessage(NoContext, params) == (None, params)
  {
    assert ([m] + params)[1..] == params;
  }

  /** An output channel after one more line, if there is a channel and the
      level lets the line through. */
  function Appended(output: Option<seq<string>>, enabled: bool, line: string): Option<seq<string>>
  {
    if output.Some? && enabled then Some(output.value + [line]) else output
  }

  datatype ConsoleStream = ConsoleLog | ConsoleWarn | ConsoleError

  /** One console call and the arguments it was given. */
  datatype ConsoleEntry = ConsoleEntry(stream: ConsoleStream, args: seq<string>)

  // ---------------------------------------------------------------------------
  // The logger's state

  /** The logger's static state. The output channels are the lines appended
      to them (`None` when there is no channel); the console is the calls made
      to it; timestamps are given to each call. */
  class Logger {
    var level: OrderedLevel
    var logLevel: string
    var isDebugging: bool
    var output: Option<seq<string>>
    var gitOutput: Option<seq<string>>
    var console: seq<ConsoleEntry>

    /** The two forms of the level agree. */
    ghost predicate Valid()
      reads this
    {
      level == ToOrderedLevel(logLevel)
    }

    constructor ()
      ensures Valid()
      ensures level == OrderedOff && logLevel == "off" && !isDebugging
      ensures output == None && gitOutput == None && console == []
    {
      level := OrderedOff;
      logLevel := "off";
      isDebugging := false;
      output := None;
      gitOutput := None;
      console := [];
    }

    /** `enabled(level)` */
    function Enabled(l: string): bool
      reads this
    {
      level >= ToOrderedLevel(l)
    }

    /** The `logLevel` setter. The channel is dropped only when the value is
        literally `off`; any other value (the settings' `silent` included)
        keeps the channel, or opens an empty one. */
    method SetLogLevel(value: string)
      modifies this
      ensures Valid()
      ensures logLevel == FromOutputLevel(value) && level == ToOrderedLevel(FromOutputLevel(value))
      ensures value == "off" ==> output == None
      ensures value != "off" ==> output == if old(output).Some? then old(output) else Some([])
      ensures isDebugging == old(isDebugging) && gitOutput == old(gitOutput) && console == old(console)
    {
      logLevel := FromOutputLevel(value);
      level := ToOrderedLevel(logLevel);
      if value == "off" {
        output := None;
      } else if output.None? {
        output := Some([]);
      }
    }

    /** `configure`: the extension runs under a debugger in development mode. */
    method Configure(isDevelopment: bool, outputLevel: string)
      modifies this
      ensures Valid() && isDebugging == isDevelopment
      ensures logLevel == FromOutputLevel(outputLevel) && level == ToOrderedLevel(FromOutputLevel(outputLevel))
      ensures outputLevel == "off" ==> output == None
      ensures outputLevel != "off" ==> output == if old(output).Some? then old(output) else Some([])
      ensures gitOutput == old(gitOutput) && console == old(console)
    {
      isDebugging := isDevelopment;
      SetLogLevel(outputLevel);
    }

    /** The body shared by `debug`, `log`, `logWithDebugParams` and `warn`:
        nothing at all happens below `severity` unless a debugger is attached;
        the console gets the message when debugging; the channel gets a line
        only if it exists and the level reaches `severity`. */
    method Write(severity: OrderedLevel, stream: ConsoleStream, debugOnlyParams: bool,
                 timestamp: string, head: ContextOrMessage, params: seq<string>)
      requires Valid()
      modifies this`output, this`console
      ensures Valid()
      ensures !isDebugging && level < severity ==> output == old(output) && console == old(console)
      ensures var (message, rest) := TakeMessage(head, params);
        && console == (if isDebugging
                       then old(console) + [ConsoleEntry(stream, [timestamp, ConsolePrefix, message.GetOr("")] + rest)]
                       else old(console))
        && output == Appended(old(output), level >= severity,
                              timestamp + " " + message.GetOr("") + LoggableParams(debugOnlyParams, level, isDebugging, rest))
    {
      if level < severity && !isDebugging {
        return;
      }
      var (message, rest) := TakeMessage(head, params);
      if isDebugging {
        console := console + [ConsoleEntry(stream, [timestamp, ConsolePrefix, message.GetOr("")] + rest)];
      }
      if output.None? || level < severity {
        return;
      }
      output := Some(output.value + [timestamp + " " + message.GetOr("") + LoggableParams(debugOnlyParams, level, isDebugging, rest)]);
    }

    method Debug(timestamp: string, head: ContextOrMessage, params: seq<string>)
      requires Valid()
      modifies this`output, this`console
      ensures Valid()
      ensures !isDebugging && level < OrderedDebug ==> output == old(output) && console == old(console)
      ensures var (message, rest) := TakeMessage(head, params);
        && console == (if isDebugging
                       then old(console) + [ConsoleEntry(ConsoleLog, [timestamp, ConsolePrefix, message.GetOr("")] + rest)]
                       else old(console))
        && output == Appended(old(output), level >= OrderedDebug,
                              timestamp + " " + message.GetOr("") + LoggableParams(true, level, isDebugging, rest))
    {
      Write(OrderedDebug, ConsoleLog, true, timestamp, head, params);
    }

    method Log(timestamp: string, head: ContextOrMessage, params: seq<string>)
      requires Valid()
      modifies this`output, this`console
      ensures Valid()
      ensures !isDebugging && level < OrderedInfo ==> output == old(output) && console == old(console)
      ensures var (message, rest) := TakeMessage(head, params);
        && console == (if isDebugging
                       then old(console) + [ConsoleEntry(ConsoleLog, [timestamp, ConsolePrefix, message.GetOr("")] + rest)]
                       else old(console))
        && output == Appended(old(output), level >= OrderedInfo,
                              timestamp + " " + message.GetOr("") + LoggableParams(false, level, isDebugging, rest))
    {
      Write(OrderedInfo, ConsoleLog, false, timestamp, head, params);
    }

    /** Logged at Info, with params shown only at Debug or under a debugger. */
    method LogWithDebugParams(timestamp: string, head: ContextOrMessage, params: seq<string>)
      requires Valid()
      modifies this`output, this`console
      ensures Valid()
      ensures !isDebugging && level < OrderedInfo ==> output == old(output) && console == old(console)
      ensures var (message, rest) := TakeMessage(head, params);
        && console == (if isDebugging
                       then old(console) + [ConsoleEntry(ConsoleLog, [timestamp, ConsolePrefix, message.GetOr("")] + rest)]
                       else old(console))
        && output == Appended(old(output), level >= OrderedInfo,
                              timestamp + " " + message.GetOr("") + LoggableParams(true, level, isDebugging, rest))
    {
      Write(OrderedInfo, ConsoleLog, true, timestamp, head, params);
    }

    method Warn(timestamp: string, head: ContextOrMessage, params: seq<string>)
      requires Valid()
      modifies this`output, this`console
      ensures Valid()
      ensures !isDebugging && level < OrderedWarn ==> output == old(output) && console == old(console)
      ensures var (message, rest) := TakeMessage(head, params);
        && console == (if isDebugging
                       then old(console) + [ConsoleEntry(ConsoleWarn, [timestamp, ConsolePrefix, message.GetOr("")] + rest)]
                       else old(console))
        && output == Appended(old(output), level >= OrderedWarn,
                              timestamp + " " + message.GetOr("") + LoggableParams(false, level, isDebugging, rest))
    {
      Write(OrderedWarn, ConsoleWarn, false, timestamp, head, params);
    }

    /** `error(ex, ...)`. `exText` is `String(ex)`; `stackFrame` is the frame
        name found in the exception's stack trace, if any, used when no message
        was given. */
    method Error(timestamp: string, exText: string, stackFrame: Option<string>,
                 head: ContextOrMessage, params: seq<string>)
      requires Valid()
      modifies this`output, this`console
      ensures Valid()
      ensures !isDebugging && level < OrderedError ==> output == old(output) && console == old(console)
      ensures var (given, rest) := TakeErrorMessage(head, params);
        var message := if given.None? then stackFrame else given;
        && console == (if isDebugging
                       then old(console) + [ConsoleEntry(ConsoleError, [timestamp, ConsolePrefix, message.GetOr("")] + rest + [exText])]
                       else old(console))
        && output == Appended(old(output), level >= OrderedError,
                              timestamp + " " + message.GetOr("") + LoggableParams(false, level, isDebugging, rest) + "\n" + exText)
    {
      if level < OrderedError && !isDebugging {
        return;
      }
      var (message, rest) := TakeErrorMessage(head, params);
      if message.None? {
        message := stackFrame;
      }
      if isDebugging {
        console := console + [ConsoleEntry(ConsoleError, [timestamp, ConsolePrefix, message.GetOr("")] + rest + [exText])];
      }
      if output.None? || level < OrderedError {
        return;
      }
      output := Some(output.value + [timestamp + " " + message.GetOr("") + LoggableParams(false, level, isDebugging, rest) + "\n" + exText]);
    }

    /** `logGitCommand`: unlike the other methods, once past the gate it always
        writes, opening the git channel on first use, so a debugger alone is
        enough to get a line there. */
    method LogGitCommand(timestamp: string, command: string, ex: Option<string>)
      requires Valid()
      modifies this`gitOutput, this`console
      ensures Valid()
      ensures !isDebugging && level < OrderedDebug ==> gitOutput == old(gitOutput) && console == old(console)
      ensures isDebugging || level >= OrderedDebug ==>
        gitOutput == Some(old(gitOutput).GetOr([]) + [timestamp + " " + command + (if ex.Some? then "\n\n" + ex.value else "")])
      ensures console == if !isDebugging then old(console)
                         else if ex.Some? then old(console) + [ConsoleEntry(ConsoleError, [timestamp, GitConsolePrefix, command, ex.value])]
                         else old(console) + [ConsoleEntry(ConsoleLog, [timestamp, GitConsolePrefix, command])]
    {
      if level < OrderedDebug && !isDebugging {
        return;
      }
      if isDebugging {
        if ex.Some? {
          console := console + [ConsoleEntry(ConsoleError, [timestamp, GitConsolePrefix, command, ex.value])];
        } else {
          console := console + [ConsoleEntry(ConsoleLog, [timestamp, GitConsolePrefix, command])];
        }
      }
      if gitOutput.None? {
        gitOutput := Some([]);
      }
      gitOutput := Some(gitOutput.value + [timestamp + " " + command + (if ex.Some? then "\n\n" + ex.value else "")]);
    }
  }

  /** `enabled` follows the order of the level names: with the logger at level
      `current`, a level is enabled exactly when it is not more verbose, and an
      unknown level name is always enabled. */
  lemma EnabledFollowsOrder(lg: Logger, i: nat)
    requires lg.Valid() && lg.logLevel in LogLevels && i < |LogLevels|
    ensures lg.Enabled(LogLevels[i]) <==> exists j :: i <= j < |LogLevels| && LogLevels[j] == lg.logLevel
  {
    ToOrderedLevelIsPosition(lg.logLevel);
  }

  lemma UnknownLevelAlwaysEnabled(lg: Logger, l: string)
    requires l !in LogLevels
    ensures lg.Enabled(l)
  {
    ToOrderedLevelIsPosition(l);
  }

  /** On a fresh logger, setting the level from the settings' `silent` turns
      every severity from `error` to `debug` off, yet opens an empty output
      channel. */
  method SilentOpensChannel() returns (lg: Logger)
    ensures lg.Valid() && lg.logLevel == "off" && lg.level == OrderedOff
    ensures lg.output == Some([])
    ensures forall i :: 1 <= i < |LogLevels| ==> !lg.Enabled(LogLevels[i])
  {
    lg := new Logger();
    lg.SetLogLevel("silent");
  }
}
