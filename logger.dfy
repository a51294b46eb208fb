/** The application logger (src/core/utils/Logger.ts): a level filter, a
    configuration merged from defaults, one shared instance, and the line a
    message becomes on the console. `__DEV__` is the parameter
    `isDevelopment`; the ISO text of the current time is the parameter
    `isoTime`. */
module Logging {
  import opened Wrappers
  import opened Text

  datatype LogLevel = Debug | Info | Warn | Error

  /** The string values of the `LogLevel` enum. */
  function LevelText(level: LogLevel): string {
    match level
    case Debug => "debug"
    case Info => "info"
    case Warn => "warn"
    case Error => "error"
  }

  /** The position of a level in `[DEBUG, INFO, WARN, ERROR]`. */
  function Rank(level: LogLevel): nat {
    match level
    case Debug => 0
    case Info => 1
    case Warn => 2
    case Error => 3
  }

  datatype LoggerConfig = LoggerConfig(minLevel: LogLevel, enableConsole: bool, enableTimestamps: bool, prettyPrint: bool)

  /** `Partial<LoggerConfig>`: each field may be left out. */
  datatype PartialConfig = PartialConfig(minLevel: Option<LogLevel>, enableConsole: Option<bool>,
                                         enableTimestamps: Option<bool>, prettyPrint: Option<bool>)

  function DefaultConfig(isDevelopment: bool): LoggerConfig {
    LoggerConfig(if isDevelopment then Debug else Info, true, true, isDevelopment)
  }

  function Pick<T>(given: Option<T>, default: T): T {
    if given.Some? then given.value else default
  }

  /** `{ ...defaults, ...config }`: every field given wins over the default. */
  function MergeConfig(defaults: LoggerConfig, config: Option<PartialConfig>): (c: LoggerConfig)
    ensures config.None? ==> c == defaults
    ensures config.Some? && config.value.minLevel.Some? ==> c.minLevel == config.value.minLevel.value
    ensures config.Some? && config.value.minLevel.None? ==> c.minLevel == defaults.minLevel
    ensures config.Some? && config.value.enableConsole.Some? ==> c.enableConsole == config.value.enableConsole.value
    ensures config.Some? && config.value.enableConsole.None? ==> c.enableConsole == defaults.enableConsole
    ensures config.Some? && config.value.enableTimestamps.Some? ==> c.enableTimestamps == config.value.enableTimestamps.value
    ensures config.Some? && config.value.enableTimestamps.None? ==> c.enableTimestamps == defaults.enableTimestamps
    ensures config.Some? && config.value.prettyPrint.Some? ==> c.prettyPrint == config.value.prettyPrint.value
    ensures config.Some? && config.value.prettyPrint.None? ==> c.prettyPrint == defaults.prettyPrint
  {
    if config.None? then defaults
    else
      var p := config.value;
      LoggerConfig(Pick(p.minLevel, defaults.minLevel), Pick(p.enableConsole, defaults.enableConsole),
                   Pick(p.enableTimestamps, defaults.enableTimestamps), Pick(p.prettyPrint, defaults.prettyPrint))
  }

  /** `shouldLog`: a message passes when its level ranks at or above the
      configured minimum. */
  predicate ShouldLog(config: LoggerConfig, level: LogLevel) {
    Rank(level) >= Rank(config.minLevel)
  }

  /** ERROR messages pass whatever the minimum level. */
  lemma ErrorAlwaysLogged(config: LoggerConfig)
    ensures ShouldLog(config, Error)
  {
  }

  /** The filter is monotone: a level passes exactly when it is the minimum
      level or above it, so whatever passes, every higher level passes too. */
  lemma ShouldLogMonotone(config: LoggerConfig, level: LogLevel, higher: LogLevel)
    requires ShouldLog(config, level) && Rank(higher) >= Rank(level)
    ensures ShouldLog(config, higher)
    ensures ShouldLog(config, config.minLevel)
  {
  }

  /** The console method a level is written with. */
  datatype ConsoleMethod = ConsoleDebug | ConsoleInfo | ConsoleWarn | ConsoleError

  function ConsoleMethodOf(level: LogLevel): ConsoleMethod {
    match level
    case Debug => ConsoleDebug
    case Info => ConsoleInfo
    case Warn => ConsoleWarn
    case Error => ConsoleError
  }

  /** What one logged message writes to the console. A pretty line is the
      prefix and the message, followed by the metadata when it has keys and
      by the error when there is one; otherwise one JSON record. */
  datatype Output =
    | Pretty(consoleMethod: ConsoleMethod, prefix: string, message: string, showsMetadata: bool, showsError: bool)
    | JsonRecord(consoleMethod: ConsoleMethod, timestamp: string, level: string, context: Option<string>,
                 message: string, hasMetadata: bool, hasError: bool)

  /** `[context]` for a non-empty context, the empty string otherwise. */
  function ContextTag(context: Option<string>): string {
    if context.Some? && context.value != "" then "[" + context.value + "]" else ""
  }

  /** The pretty-print prefix: timestamp, upper-cased level and context tag,
      separated by spaces, then trimmed. */
  function PrettyPrefix(timestamp: string, level: LogLevel, context: Option<string>): string {
    JoinTrimmed(timestamp, ToUpperAscii(LevelText(level)), ContextTag(context))
  }

  /** The template `${timestamp} ${level} ${context}`, trimmed. */
  function JoinTrimmed(timestamp: string, upper: string, tag: string): string {
    Trim(timestamp + " " + upper + " " + tag)
  }

  /** `logToConsole` for one entry; `isoTime` is the entry's time as ISO text. */
  function Render(config: LoggerConfig, level: LogLevel, message: string, context: Option<string>,
                  metadata: Option<map<string, string>>, hasError: bool, isoTime: string): Output
  {
    var timestamp := if config.enableTimestamps then isoTime else "";
    if config.prettyPrint then
      Pretty(ConsoleMethodOf(level), PrettyPrefix(timestamp, level, context), message,
             metadata.Some? && |metadata.value| > 0, hasError)
    else
      JsonRecord(ConsoleMethodOf(level), timestamp, LevelText(level), context, message, metadata.Some?, hasError)
  }

  /** A `Logger` and its configuration, fixed at construction. */
  class Logger {
    const config: LoggerConfig

    constructor (isDevelopment: bool, partial: Option<PartialConfig>)
      ensures config == MergeConfig(DefaultConfig(isDevelopment), partial)
    {
      config := MergeConfig(DefaultConfig(isDevelopment), partial);
    }

    /** `log`: nothing is written for a message below the minimum level or
        when the console is disabled. */
    method Log(level: LogLevel, message: string, context: Option<string>,
               metadata: Option<map<string, string>>, hasError: bool, isoTime: string)
      returns (output: Option<Output>)
      ensures output.None? <==> !ShouldLog(config, level) || !config.enableConsole
      ensures output.Some? ==> output.value == Render(config, level, message, context, metadata, hasError, isoTime)
      ensures output.Some? ==> output.value.consoleMethod == ConsoleMethodOf(level)
    {
      if !ShouldLog(config, level) {
        return None;
      }
      if config.enableConsole {
        output := Some(Render(config, level, message, context, metadata, hasError, isoTime));
      } else {
        output := None;
      }
    }
  }

  /** The static `Logger.instance` slot. */
  class LoggerRegistry {
    var instance: Logger?

    constructor ()
      ensures instance == null
    {
      instance := null;
    }

    /** `getInstance`: the first call creates the logger from its
        configuration; every later call returns that same logger and ignores
        its argument. */
    method GetInstance(isDevelopment: bool, partial: Option<PartialConfig>) returns (logger: Logger)
      modifies this
      ensures old(instance) != null ==> logger == old(instance)
      ensures old(instance) == null ==> fresh(logger) && logger.config == MergeConfig(DefaultConfig(isDevelopment), partial)
      ensures instance == logger
    {
      if instance == null {
        instance := new Logger(isDevelopment, partial);
      }
      logger := instance;
    }
  }

  /** Two calls give the same logger, configured by the first call's argument. */
  method GetInstanceTwice(registry: LoggerRegistry, isDevelopment: bool, first: Option<PartialConfig>, second: Option<PartialConfig>)
    returns (a: Logger, b: Logger)
    requires registry.instance == null
    modifies registry
    ensures a == b
    ensures a.config == MergeConfig(DefaultConfig(isDevelopment), first)
  {
    a := registry.GetInstance(isDevelopment, first);
    b := registry.GetInstance(isDevelopment, second);
  }

  /** `part` occurs in `s` at position `p`. */
  lemma {:induction false} ContainsAt(s: string, part: string, p: nat)
    requires p + |part| <= |s| && s[p..p + |part|] == part
    ensures Contains(s, part)
  {
    if p > 0 {
      assert s[1..][p - 1..p - 1 + |part|] == part;
      ContainsAt(s[1..], part, p - 1);
    }
  }

  /** Trimming the start stops at the first non-space character. */
  lemma {:induction false} TrimStartStopsAt(s: string, k: nat)
    requires k < |s| && !IsJsSpace(s[k])
    ensures |TrimStart(s)| >= |s| - k
  {
    if s != [] && IsJsSpace(s[0]) {
      assert k > 0;
      TrimStartStopsAt(s[1..], k - 1);
    }
  }

  /** An upper-case ASCII letter is not whitespace. */
  lemma LetterNotSpace(c: char)
    requires 'A' <= c <= 'Z'
    ensures !IsJsSpace(c)
  {
  }

  /** Each level's text is a lower-case word. */
  lemma LevelTextIsWord(level: LogLevel)
    ensures var l := LevelText(level);
            l != [] && 'a' <= l[0] <= 'z' && 'a' <= l[|l| - 1] <= 'z'
  {
  }

  /** The upper-cased level neither starts nor ends with whitespace. */
  lemma UpperLevelText(level: LogLevel)
    ensures var t := ToUpperAscii(LevelText(level));
            t != [] && !IsJsSpace(t[0]) && !IsJsSpace(t[|t| - 1])
  {
    var l := LevelText(level);
    LevelTextIsWord(level);
    var t := ToUpperAscii(l);
    assert t[0] == UpperAscii(l[0]) && t[|t| - 1] == UpperAscii(l[|l| - 1]);
    LetterNotSpace(t[0]);
    LetterNotSpace(t[|t| - 1]);
  }

  /** A part that starts with a non-space character survives the trimming of
      the start. */
  lemma ContainsAfterTrimStart(u: string, part: string, p: nat)
    requires p + |part| <= |u| && u[p..p + |part|] == part
    requires part != [] && !IsJsSpace(part[0])
    ensures Contains(TrimStart(u), part)
  {
    assert u[p] == part[0];
    TrimStartStopsAt(u, p);
    var t := TrimStart(u);
    var j := |u| - |t|;
    SliceOfSuffix(u, j, p, |part|);
    ContainsAt(t, part, p - j);
  }

  /** A slice of a suffix is a slice of the whole. */
  lemma SliceOfSuffix(u: string, j: nat, p: nat, len: nat)
    requires j <= p && p + len <= |u|
    ensures u[j..][p - j..p - j + len] == u[p..p + len]
  {
  }

  /** Trimming "timestamp LEVEL tag" keeps the level and the tag whole when
      both start with a non-space character and the tag ends with one. */
  lemma TrimKeepsLevelAndTag(timestamp: string, upper: string, tag: string)
    requires upper != [] && !IsJsSpace(upper[0])
    requires tag != [] && !IsJsSpace(tag[0]) && !IsJsSpace(tag[|tag| - 1])
    ensures var trimmed := JoinTrimmed(timestamp, upper, tag);
            && Contains(trimmed, upper) && Contains(trimmed, tag)
            && trimmed != [] && !IsJsSpace(trimmed[0]) && !IsJsSpace(trimmed[|trimmed| - 1])
  {
    PaddedSlices(timestamp, upper, tag);
    TrimKeepsParts(timestamp + " " + upper + " " + tag, upper, |timestamp| + 1, tag);
  }

  /** Trimming keeps a part that starts with a non-space character, and a
      tag that ends the string and starts and ends with one. */
  lemma TrimKeepsParts(u: string, upper: string, p: nat, tag: string)
    requires p + |upper| <= |u| && u[p..p + |upper|] == upper
    requires upper != [] && !IsJsSpace(upper[0])
    requires |tag| <= |u| && u[|u| - |tag|..] == tag
    requires tag != [] && !IsJsSpace(tag[0]) && !IsJsSpace(tag[|tag| - 1])
    ensures var trimmed := Trim(u);
            && Contains(trimmed, upper) && Contains(trimmed, tag)
            && trimmed != [] && !IsJsSpace(trimmed[0]) && !IsJsSpace(trimmed[|trimmed| - 1])
  {
    ContainsAfterTrimStart(u, upper, p);
    assert u[|u| - |tag|..|u|] == tag;
    ContainsAfterTrimStart(u, tag, |u| - |tag|);
    TrimEndKeeps(TrimStart(u), u, tag);
  }

  /** Where the level and the tag sit in "timestamp LEVEL tag". */
  lemma PaddedSlices(timestamp: string, upper: string, tag: string)
    ensures var u := timestamp + " " + upper + " " + tag;
            var p := |timestamp| + 1;
            && |u| == |timestamp| + |upper| + 2 + |tag|
            && u[p..p + |upper|] == upper
            && u[|u| - |tag|..] == tag
  {
  }

  /** A string that ends like `tag` is left alone by `TrimEnd`. */
  lemma TrimEndKeeps(t: string, u: string, tag: string)
    requires t == TrimStart(u)
    requires tag != [] && |tag| <= |u| && u[|u| - |tag|..] == tag && !IsJsSpace(tag[|tag| - 1])
    requires Contains(t, tag)
    ensures TrimEnd(t) == t
  {
    assert t == u[|u| - |t|..];
    assert t != [];
    assert t[|t| - 1] == u[|u| - 1] == tag[|tag| - 1];
  }

  /** With a context, the pretty prefix contains the upper-cased level and
      "[context]", and it neither starts nor ends with a space. */
  lemma PrettyPrefixShowsLevelAndContext(timestamp: string, level: LogLevel, context: string)
    requires context != ""
    ensures var prefix := PrettyPrefix(timestamp, level, Some(context));
            && Contains(prefix, ToUpperAscii(LevelText(level)))
            && Contains(prefix, "[" + context + "]")
            && prefix != [] && !IsJsSpace(prefix[0]) && !IsJsSpace(prefix[|prefix| - 1])
  {
    UpperLevelText(level);
    ContextTagShape(context);
    TrimKeepsLevelAndTag(timestamp, ToUpperAscii(LevelText(level)), ContextTag(Some(context)));
  }

  /** A non-empty context's tag is "[context]", which starts and ends with
      a bracket. */
  lemma ContextTagShape(context: string)
    requires context != ""
    ensures var tag := ContextTag(Some(context));
            && tag == "[" + context + "]"
            && tag != [] && !IsJsSpace(tag[0]) && !IsJsSpace(tag[|tag| - 1])
  {
    var tag := "[" + context + "]";
    assert tag[0] == '[' && tag[|tag| - 1] == ']';
  }

  /** Without a context, the pretty prefix is still trimmed: with timestamps
      disabled it is exactly the upper-cased level. */
  lemma PrettyPrefixWithoutContext(level: LogLevel)
    ensures PrettyPrefix("", level, None) == ToUpperAscii(LevelText(level))
  {
    UpperLevelText(level);
    TrimPadded(ToUpperAscii(LevelText(level)));
  }

  /** A word between two single spaces trims to the word. */
  lemma TrimPadded(word: string)
    requires word != [] && !IsJsSpace(word[0]) && !IsJsSpace(word[|word| - 1])
    ensures JoinTrimmed("", word, "") == word
  {
    assert "" + " " + word + " " + "" == " " + word + " ";
    TrimStartPadded(word);
    TrimEndPadded(word);
  }

  lemma TrimStartPadded(word: string)
    requires word != [] && !IsJsSpace(word[0])
    ensures TrimStart(" " + word + " ") == word + " "
  {
    assert (" " + word + " ")[1..] == word + " ";
  }

  lemma TrimEndPadded(word: string)
    requires word != [] && !IsJsSpace(word[|word| - 1])
    ensures TrimEnd(word + " ") == word
  {
    assert (word + " ")[..|word|] == word;
  }
}
