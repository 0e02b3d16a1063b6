/**
 * The application logger (lib/logger.js): options over defaults, a current
 * level that gates every message, a single shared instance, label
 * resolution, and the formatter that turns errors into one message line.
 * The winston transports themselves are not modelled: what the logger emits
 * is the sequence of entries it hands to them.
 */
module Logging {
  import opened Js

  /** winston's npm levels, most severe first; a level's rank is its position. */
  const Levels: seq<string> := ["error", "warn", "info", "http", "verbose", "debug", "silly"]

  /** The rank of a level name. */
  function Rank(name: string): (r: Option<nat>)
    ensures r.Some? <==> name in Levels
    ensures r.Some? ==> r.value < |Levels| && Levels[r.value] == name
  {
    if name == "error" then Some(0)
    else if name == "warn" then Some(1)
    else if name == "info" then Some(2)
    else if name == "http" then Some(3)
    else if name == "verbose" then Some(4)
    else if name == "debug" then Some(5)
    else if name == "silly" then Some(6)
    else None
  }

  /** `this.logger.levels[level]`: the rank of a level name, undefined for any other key. */
  function LevelOf(level: Value): (r: Option<nat>)
    ensures r.Some? <==> ToText(level) in Levels
    ensures r.Some? ==> r.value < |Levels| && Levels[r.value] == ToText(level)
  {
    Rank(ToText(level))
  }

  /** `current >= rank`, false when either side is undefined. */
  predicate Passes(current: Option<nat>, rank: Option<nat>) {
    current.Some? && rank.Some? && current.value >= rank.value
  }

  const DefaultLabel := "common"

  /** `getLabel(label)` (lib/logger.js:12-18): a string as it is, else its `label` property, else "common". */
  function GetLabel(tag: Value): (r: Value)
    ensures tag.Str? ==> r == tag
    ensures IsNil(tag) ==> r == Str(DefaultLabel)
    ensures tag.Obj? && "label" in tag.fields && !tag.fields["label"].Undefined? ==> r == tag.fields["label"]
    ensures tag.Obj? && "label" !in tag.fields ==> r == Str(DefaultLabel)
  {
    if tag.Str? then tag else AccessSafe(Member(tag, "label"), Str(DefaultLabel))
  }

  /** The options the logger reads; a field that is not given is undefined. */
  datatype LoggerOptions = LoggerOptions(path: Value, filename: Value, loglevel: Value)

  const Defaults := LoggerOptions(Str("./log"), Str("log.txt"), Str("info"))

  /** `_.merge({}, defaults, options)`: a given field wins, an undefined one keeps the default. */
  function Merge(defaults: LoggerOptions, options: LoggerOptions): (r: LoggerOptions)
    ensures r.path == (if options.path.Undefined? then defaults.path else options.path)
    ensures r.filename == (if options.filename.Undefined? then defaults.filename else options.filename)
    ensures r.loglevel == (if options.loglevel.Undefined? then defaults.loglevel else options.loglevel)
  {
    LoggerOptions(
      if options.path.Undefined? then defaults.path else options.path,
      if options.filename.Undefined? then defaults.filename else options.filename,
      if options.loglevel.Undefined? then defaults.loglevel else options.loglevel)
  }

  /** An error as the formatter reads it. `response` is undefined when there is none. */
  datatype ErrorValue = ErrorValue(
    message: Value,
    code: Value,
    stack: Value,
    isAxiosError: bool,
    correlationid: Value,   // err.config.correlationid
    response: Value)

  /** What is logged: a value, or an error. */
  datatype LogMessage = Text(value: Value) | Err(error: ErrorValue)

  /** The `info` object winston passes through the formatters; `self` is set when `info` is itself an error. */
  datatype Info = Info(level: Value, message: LogMessage, tag: Value, self: Option<ErrorValue>)

  /** `err.response.data.errors`, when it is an array. */
  function PercipioErrors(err: ErrorValue): Option<seq<Value>> {
    match Path2(err.response, "data", "errors")
    case Ok(Arr(items)) => Some(items)
    case _ => None
  }

  /** The lines every error gets (lib/logger.js:30-34): its message, its code, and its stack when it has one. */
  function Described(err: ErrorValue): (r: seq<string>)
    ensures |r| == 2 + (if Truthy(err.stack) then 1 else 0)
  {
    ["Error message: " + ToText(err.message), "Error code: " + ToText(err.code)]
    + (if Truthy(err.stack) then ["Error stack: " + ToText(err.stack)] else [])
  }

  function CorrelationLine(err: ErrorValue): string {
    "CorrelationId: " + ToText(err.correlationid)
  }

  /** One line per Percipio error message, each stringified and followed by a comma. */
  function ErrorLines(es: seq<Value>, stringify: Value -> string): (r: seq<string>)
    ensures |r| == |es|
  {
    seq(|es|, i requires 0 <= i < |es| => stringify(es[i]) + ", ")
  }

  /** The lines for one error (lib/logger.js:28-48), added to those already gathered. */
  function ErrorItems(gathered: seq<string>, err: ErrorValue, stringify: Value -> string): (r: seq<string>)
    // message and code, a stack, a correlation id, and Percipio's messages between two bracket lines
    ensures |r| == |gathered| + 2 + (if Truthy(err.stack) then 1 else 0)
                   + (if err.isAxiosError && Truthy(err.correlationid) then 1 else 0)
                   + (if err.isAxiosError && PercipioErrors(err).Some? then |PercipioErrors(err).value| + 2 else 0)
  {
    var described := gathered + Described(err);
    if !err.isAxiosError then described
    else
      var tagged := if Truthy(err.correlationid) then [CorrelationLine(err)] + described else described;
      match PercipioErrors(err)
      case None => tagged
      case Some(es) => tagged + ["Percipio Error Messages: ["] + ErrorLines(es, stringify) + ["]"]
  }

  /** Every line `errorFormatter` gathers for an `info`: first for its message, then for itself. */
  function Items(info: Info, stringify: Value -> string): seq<string> {
    var fromMessage := if info.message.Err? then ErrorItems([], info.message.error, stringify) else [];
    if info.self.Some? then ErrorItems(fromMessage, info.self.value, stringify) else fromMessage
  }

  /**
   * `errorFormatter` (lib/logger.js:24-77): gathers the lines for each error,
   * pushing and unshifting as it goes, and replaces the message by the lines
   * joined with spaces when there is at least one.
   */
  method ErrorFormatter(info: Info, stringify: Value -> string) returns (r: Info)
    ensures Items(info, stringify) == [] ==> r == info
    ensures Items(info, stringify) != [] ==> r == info.(message := Text(Str(Join(Items(info, stringify), " "))))
  {
    var message: seq<string> := [];
    if info.message.Err? {
      message := Gather(message, info.message.error, stringify);
    }
    if info.self.Some? {
      message := Gather(message, info.self.value, stringify);
    }
    r := info;
    if |message| > 0 {
      r := info.(message := Text(Str(Join(message, " "))));
    }
  }

  /** The statements of lib/logger.js:29-47 for one error, with the `forEach` over Percipio's messages. */
  method Gather(gathered: seq<string>, err: ErrorValue, stringify: Value -> string) returns (message: seq<string>)
    ensures message == ErrorItems(gathered, err, stringify)
  {
    message := gathered + Described(err);
    if err.isAxiosError {
      if Truthy(err.correlationid) {
        message := [CorrelationLine(err)] + message;
      }
      var errors := PercipioErrors(err);
      if errors.Some? {
        var es := errors.value;
        message := message + ["Percipio Error Messages: ["];
        ghost var before := message;
        var i := 0;
        while i < |es|
          invariant 0 <= i <= |es|
          invariant message == before + ErrorLines(es[..i], stringify)
        {
          message := message + [stringify(es[i]) + ", "];
          i := i + 1;
          assert ErrorLines(es[..i], stringify) == ErrorLines(es[..i - 1], stringify) + [stringify(es[i - 1]) + ", "];
        }
        assert es[..i] == es;
        message := message + ["]"];
      }
    }
  }

  /** For an axios error with a correlation id, the id is the first line, before everything gathered so far. */
  lemma CorrelationIdFirst(gathered: seq<string>, err: ErrorValue, stringify: Value -> string)
    requires err.isAxiosError && Truthy(err.correlationid)
    ensures ErrorItems(gathered, err, stringify)[0] == CorrelationLine(err)
    ensures ErrorItems(gathered, err, stringify)[1..|gathered| + 1] == gathered
  {
  }

  /** The message is rewritten exactly when the info carries an error, in its message or as itself. */
  lemma RewrittenIffError(info: Info, stringify: Value -> string)
    ensures Items(info, stringify) != [] <==> info.message.Err? || info.self.Some?
  {
  }

  /** One entry handed to the transports. */
  datatype Entry = Entry(level: Value, message: LogMessage, tag: Value)

  class Logger {
    /** The options in effect: the defaults overlaid by the caller's. */
    var options: LoggerOptions
    /** Whether a file transport was added. */
    var fileLogging: bool
    /** The rank messages must not exceed; undefined when the configured level is unknown. */
    var currentLogLevel: Option<nat>
    /** What has been handed to the transports, oldest first. */
    var emitted: seq<Entry>

    /** `new Logger(options)` (lib/logger.js:82-121). */
    constructor (given: LoggerOptions)
      ensures options == Merge(Defaults, given)
      ensures fileLogging <==> !options.path.Null? && !options.filename.Null?
      ensures currentLogLevel == LevelOf(options.loglevel)
      ensures emitted == []
    {
      options := Merge(Defaults, given);
      fileLogging := !Merge(Defaults, given).path.Null? && !Merge(Defaults, given).filename.Null?;
      currentLogLevel := LevelOf(Merge(Defaults, given).loglevel);
      emitted := [];
    }

    /** `update(level)` (lib/logger.js:147-149): a known level takes effect, any other is ignored. */
    method Update(level: Value)
      modifies this
      ensures LevelOf(level).Some? ==> currentLogLevel == LevelOf(level)
      ensures LevelOf(level).None? ==> currentLogLevel == old(currentLogLevel)
      ensures options == old(options) && fileLogging == old(fileLogging) && emitted == old(emitted)
    {
      var rank := LevelOf(level);
      if rank.Some? {
        currentLogLevel := rank;
      }
    }

    /**
     * `log(level, message, label)` (lib/logger.js:243-253): the entry is
     * handed on, and true returned, exactly when the current level admits the
     * message's level.
     */
    method Log(level: Value, message: LogMessage, tag: Value) returns (logged: bool)
      modifies this
      ensures logged <==> Passes(currentLogLevel, LevelOf(level))
      ensures emitted == old(emitted) + (if logged then [Entry(level, message, tag)] else [])
      ensures options == old(options) && fileLogging == old(fileLogging) && currentLogLevel == old(currentLogLevel)
    {
      if Passes(currentLogLevel, LevelOf(level)) {
        emitted := emitted + [Entry(level, message, tag)];
        logged := true;
      } else {
        logged := false;
      }
    }

    /**
     * `error`, `warn`, `http`, `info`, `verbose`, `debug` and `silly`
     * (lib/logger.js:158-226): logging at that level under the resolved label,
     * "common" when none is given.
     */
    method At(level: string, message: LogMessage, tag: Value)
      requires level in Levels
      modifies this
      ensures var resolved := GetLabel(if tag.Undefined? then Str(DefaultLabel) else tag);
              emitted == old(emitted)
                         + (if Passes(currentLogLevel, LevelOf(Str(level))) then [Entry(Str(level), message, resolved)] else [])
      ensures options == old(options) && fileLogging == old(fileLogging) && currentLogLevel == old(currentLogLevel)
    {
      var _ := Log(Str(level), message, GetLabel(if tag.Undefined? then Str(DefaultLabel) else tag));
    }
  }

  /** The static `Logger.loggerInstance`. */
  class LoggerRegistry {
    var loggerInstance: Logger?

    constructor ()
      ensures loggerInstance == null
    {
      loggerInstance := null;
    }

    /** `Logger.getInstance(options)` (lib/logger.js:123-128): the first call creates the logger, every call returns it. */
    method GetInstance(given: LoggerOptions) returns (l: Logger)
      modifies this
      ensures old(loggerInstance) != null ==> l == old(loggerInstance)
      ensures old(loggerInstance) == null ==> fresh(l) && l.options == Merge(Defaults, given)
                                              && l.currentLogLevel == LevelOf(l.options.loglevel) && l.emitted == []
      ensures loggerInstance == l
    {
      if loggerInstance == null {
        loggerInstance := new Logger(given);
      }
      l := loggerInstance;
    }
  }

  /** Two calls give one logger, configured by the first call's options. */
  method GetInstanceTwice(registry: LoggerRegistry, first: LoggerOptions, second: LoggerOptions)
      returns (a: Logger, b: Logger)
    requires registry.loggerInstance == null
    modifies registry
    ensures a == b && a.options == Merge(Defaults, first)
  {
    a := registry.GetInstance(first);
    b := registry.GetInstance(second);
  }

  /** The ranks run from error, the most severe, to silly. */
  lemma LevelRanks()
    ensures LevelOf(Str("error")) == Some(0) && LevelOf(Str("warn")) == Some(1)
    ensures LevelOf(Str("info")) == Some(2) && LevelOf(Str("http")) == Some(3)
    ensures LevelOf(Str("verbose")) == Some(4) && LevelOf(Str("debug")) == Some(5)
    ensures LevelOf(Str("silly")) == Some(6)
  {
  }

  /** At a known level, a message passes exactly when its level is at most as verbose. */
  lemma GateByRank(current: Value, level: Value)
    requires LevelOf(current).Some? && LevelOf(level).Some?
    ensures Passes(LevelOf(current), LevelOf(level)) <==> LevelOf(level).value <= LevelOf(current).value
  {
  }

  /** At the default level, errors, warnings and information pass; http, verbose, debug and silly do not. */
  lemma DefaultLevelGate()
    ensures var current := LevelOf(Defaults.loglevel);
            Passes(current, LevelOf(Str("error"))) && Passes(current, LevelOf(Str("warn")))
            && Passes(current, LevelOf(Str("info"))) && !Passes(current, LevelOf(Str("http")))
            && !Passes(current, LevelOf(Str("verbose"))) && !Passes(current, LevelOf(Str("debug")))
            && !Passes(current, LevelOf(Str("silly")))
  {
    LevelRanks();
  }

  /** An unknown configured level silences every message. */
  lemma UnknownLevelSilent(current: Value, level: Value)
    requires LevelOf(current).None?
    ensures !Passes(LevelOf(current), LevelOf(level))
  {
  }
}
