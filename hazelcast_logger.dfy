/**
 * The Hazelcast ILogger adapter: it turns each logging call into a
 * java.util.logging LogRecord, formats it with its own JSONLogFormatter and
 * prints the result. It never filters by level itself.
 */
module HazelcastLogger {
  import opened Wrappers
  import opened JavaText
  import opened Levels
  import opened LogRecords
  import opened Formatter

  /**
   * What the JVM supplies at the moment of a call: the clock and the thread
   * id the LogRecord constructor records, the name of the current thread the
   * formatter reads, and the LogManager's loggers.
   */
  datatype Ambient = Ambient(millis: int, threadId: int, threadName: string, registry: Registry)

  /**
   * The record `log(level, message, thrown)` builds: `new LogRecord(level,
   * message)` then the logger name, the throwable and the logger name again as
   * source class. Parameters, source method and bundle stay null; setting the
   * source class switches off caller inference, so the method name is never
   * inferred.
   */
  function AdapterRecord(level: Level, message: Option<string>, thrown: Option<Throwable>,
                         loggerName: Option<string>, env: Ambient): (r: LogRecord)
    ensures r.level == level && r.message == message && r.thrown == thrown
    ensures r.loggerName == loggerName && r.sourceClassName == loggerName
    ensures r.millis == env.millis && r.threadId == env.threadId
    ensures r.parameters.None? && r.sourceMethodName.None? && r.resourceBundle.None?
  {
    LogRecord(level, message, env.millis, loggerName, env.threadId, None, thrown, loggerName, None, None)
  }

  /** The assembly of the adapter's record on a formatter whose state is `st`. */
  function AdapterAssembly(cfg: StaticConfig, lib: Library, rdf: Option<string>, st: FormatterState,
                           level: Level, message: Option<string>, thrown: Option<Throwable>,
                           loggerName: Option<string>, env: Ambient): Assembly
    requires IsLong(st.recordNumber)
  {
    Assemble(cfg, lib, rdf, st, AdapterRecord(level, message, thrown, loggerName, env), env.registry, env.threadName)
  }

  /**
   * What a successful line of the adapter carries: its level and logger name,
   * never `_MessageID` (the record has no bundle) nor `MethodName`, and
   * `ClassName` (the logger name) exactly when source location is on or the
   * level is FINE or finer, and the name is not empty.
   */
  lemma AdapterFields(cfg: StaticConfig, lib: Library, rdf: Option<string>, st: FormatterState,
                      level: Level, message: Option<string>, thrown: Option<Throwable>,
                      loggerName: Option<string>, env: Ambient)
    requires IsLong(st.recordNumber)
    ensures var a := AdapterAssembly(cfg, lib, rdf, st, level, message, thrown, loggerName, env);
            a.fields.Some? ==>
              var f := a.fields.value;
              && LogLevel in f && f[LogLevel] == Str(level.Name())
              && LoggerName in f && f[LoggerName] == Str(loggerName.GetOr(""))
              && MessageId !in f
              && MethodName !in f
              && (ClassName in f <==> (cfg.logSourceInKeyValue || level.IntValue() <= 500) && NonEmpty(loggerName))
              && (ClassName in f ==> f[ClassName] == Str(loggerName.value))
  {
    var rec := AdapterRecord(level, message, thrown, loggerName, env);
    AssembledHeader(cfg, lib, rdf, st, rec, env.registry, env.threadName);
    AssembledOptional(cfg, lib, rdf, st, rec, env.registry, env.threadName);
    assert Fine.IntValue() == 500;
  }

  /**
   * The adapter's records never take the MessageFormat template shortcut (they
   * carry no parameters), so only the logger's bundle can rewrite the text.
   */
  lemma AdapterNoTemplate(level: Level, message: string, thrown: Option<Throwable>,
                          loggerName: Option<string>, env: Ambient)
    ensures !UsesTemplate(message, AdapterRecord(level, Some(message), thrown, loggerName, env).parameters)
  {
  }

  class JsonLoggingHazelcastLogger {
    const loggerName: Option<string>
    const configuredLevel: Level
    const formatter: JSONLogFormatter
    /** The arguments of the `System.out.println` calls, in order. */
    var printed: seq<string>

    ghost predicate Valid()
      reads this, formatter
    {
      formatter.Valid()
    }

    /** `new JsonLoggingHazelcastLogger(loggerName, level)`, with a formatter of its own. */
    constructor (loggerName: Option<string>, level: Level, config: StaticConfig, lib: Library)
      ensures Valid()
      ensures this.loggerName == loggerName && GetLevel() == level
      ensures fresh(formatter) && formatter.config == config && formatter.lib == lib
      ensures formatter.State() == FormatterState(0, map[]) && formatter.recordDateFormat == None
      ensures printed == []
    {
      this.loggerName := loggerName;
      configuredLevel := level;
      formatter := new JSONLogFormatter(config, lib);
      printed := [];
    }

    /** `getLevel()`: the level given at construction; the field is final. */
    function GetLevel(): (l: Level)
      ensures l == configuredLevel
    {
      configuredLevel
    }

    /** `isLoggable(level)`: the configured rank is at most the level's. */
    function IsLoggable(level: Level): (r: bool)
      ensures r <==> configuredLevel.IntValue() <= level.IntValue()
      ensures level == configuredLevel ==> r
      ensures configuredLevel == All ==> r
      ensures configuredLevel == Off ==> (r <==> level == Off)
    {
      configuredLevel.IntValue() <= level.IntValue()
    }

    /** `isFinestEnabled()`: only a logger at ALL or FINEST takes FINEST. */
    function IsFinestEnabled(): (r: bool)
      ensures r == IsLoggable(Levels.Finest)
      ensures r <==> configuredLevel == Levels.All || configuredLevel == Levels.Finest
    {
      IsLoggable(Levels.Finest)
    }

    /** `isFineEnabled()`: a logger at ALL, FINEST, FINER or FINE takes FINE. */
    function IsFineEnabled(): (r: bool)
      ensures r == IsLoggable(Levels.Fine)
      ensures r <==> configuredLevel in {Levels.All, Levels.Finest, Levels.Finer, Levels.Fine}
    {
      IsLoggable(Levels.Fine)
    }

    /** Loggable at one level, loggable at every higher one. */
    lemma IsLoggableMonotone(a: Level, b: Level)
      requires IsLoggable(a) && a.IntValue() <= b.IntValue()
      ensures IsLoggable(b)
    {
    }

    /**
     * One call of `log(level, message, thrown)` happened between the two
     * states: exactly one more line, the formatter's output for the adapter's
     * record, and the formatter's counter and cache advanced accordingly.
     */
    twostate predicate LoggedOnce(level: Level, message: Option<string>, thrown: Option<Throwable>, env: Ambient)
      reads this, formatter
      requires old(formatter.Valid())
    {
      var a := AdapterAssembly(formatter.config, formatter.lib, old(formatter.recordDateFormat), old(formatter.State()),
                               level, message, thrown, loggerName, env);
      && printed == old(printed) + [Output(formatter.config, formatter.lib, a)]
      && formatter.State() == a.state
      && formatter.recordDateFormat == old(formatter.recordDateFormat)
    }

    /**
     * `log(level, message, thrown)`: builds the record through its setters
     * and prints its formatted form. The configured level is not consulted.
     */
    method Log(level: Level, message: Option<string>, thrown: Option<Throwable>, env: Ambient)
      requires Valid()
      modifies this`printed, formatter
      ensures Valid()
      ensures LoggedOnce(level, message, thrown, env)
    {
      var logRecord := LogRecord(level, message, env.millis, None, env.threadId, None, None, None, None, None);
      logRecord := logRecord.(loggerName := loggerName);
      logRecord := logRecord.(thrown := thrown);
      logRecord := logRecord.(sourceClassName := loggerName);
      assert logRecord == AdapterRecord(level, message, thrown, loggerName, env);
      LogRecordLine(logRecord, env.registry, env.threadName);
    }

    /** `log(LogEvent le)`: prints the event's own record, formatted. */
    method LogEvent(record: LogRecord, registry: Registry, threadName: string)
      requires Valid()
      modifies this`printed, formatter
      ensures Valid()
      ensures var a := Assemble(formatter.config, formatter.lib, old(formatter.recordDateFormat), old(formatter.State()),
                                record, registry, threadName);
              && printed == old(printed) + [Output(formatter.config, formatter.lib, a)]
              && formatter.State() == a.state
              && formatter.recordDateFormat == old(formatter.recordDateFormat)
    {
      LogRecordLine(record, registry, threadName);
    }

    /** `logRecord(record)`: `System.out.println(formatter.format(record))`. */
    method LogRecordLine(record: LogRecord, registry: Registry, threadName: string)
      requires Valid()
      modifies this`printed, formatter
      ensures Valid()
      ensures var a := Assemble(formatter.config, formatter.lib, old(formatter.recordDateFormat), old(formatter.State()),
                                record, registry, threadName);
              && printed == old(printed) + [Output(formatter.config, formatter.lib, a)]
              && formatter.State() == a.state
              && formatter.recordDateFormat == old(formatter.recordDateFormat)
    {
      var line := formatter.Format(record, registry, threadName);
      printed := printed + [line];
    }

    /** `log(level, message)`, which is `log(level, message, null)`. */
    method LogMessage(level: Level, message: Option<string>, env: Ambient)
      requires Valid()
      modifies this`printed, formatter
      ensures Valid() && LoggedOnce(level, message, None, env)
    {
      Log(level, message, None, env);
    }

    /** `finest(String message)`. */
    method Finest(message: Option<string>, env: Ambient)
      requires Valid()
      modifies this`printed, formatter
      ensures Valid() && LoggedOnce(Levels.Finest, message, None, env)
    {
      Log(Levels.Finest, message, None, env);
    }

    /** `finest(Throwable thrown)`. */
    method FinestThrown(thrown: Option<Throwable>, env: Ambient)
      requires Valid()
      modifies this`printed, formatter
      ensures Valid() && LoggedOnce(Levels.Finest, None, thrown, env)
    {
      Log(Levels.Finest, None, thrown, env);
    }

    /** `finest(String message, Throwable thrown)`. */
    method FinestMessageThrown(message: Option<string>, thrown: Option<Throwable>, env: Ambient)
      requires Valid()
      modifies this`printed, formatter
      ensures Valid() && LoggedOnce(Levels.Finest, message, thrown, env)
    {
      Log(Levels.Finest, message, thrown, env);
    }

    /** `fine(String message)`. */
    method Fine(message: Option<string>, env: Ambient)
      requires Valid()
      modifies this`printed, formatter
      ensures Valid() && LoggedOnce(Levels.Fine, message, None, env)
    {
      Log(Levels.Fine, message, None, env);
    }

    /** `info(String message)`. */
    method Info(message: Option<string>, env: Ambient)
      requires Valid()
      modifies this`printed, formatter
      ensures Valid() && LoggedOnce(Levels.Info, message, None, env)
    {
      Log(Levels.Info, message, None, env);
    }

    /** `warning(String message)`. */
    method Warning(message: Option<string>, env: Ambient)
      requires Valid()
      modifies this`printed, formatter
      ensures Valid() && LoggedOnce(Levels.Warning, message, None, env)
    {
      Log(Levels.Warning, message, None, env);
    }

    /** `warning(Throwable thrown)`. */
    method WarningThrown(thrown: Option<Throwable>, env: Ambient)
      requires Valid()
      modifies this`printed, formatter
      ensures Valid() && LoggedOnce(Levels.Warning, None, thrown, env)
    {
      Log(Levels.Warning, None, thrown, env);
    }

    /** `warning(String message, Throwable thrown)`. */
    method WarningMessageThrown(message: Option<string>, thrown: Option<Throwable>, env: Ambient)
      requires Valid()
      modifies this`printed, formatter
      ensures Valid() && LoggedOnce(Levels.Warning, message, thrown, env)
    {
      Log(Levels.Warning, message, thrown, env);
    }

    /** `severe(String message)`. */
    method Severe(message: Option<string>, env: Ambient)
      requires Valid()
      modifies this`printed, formatter
      ensures Valid() && LoggedOnce(Levels.Severe, message, None, env)
    {
      Log(Levels.Severe, message, None, env);
    }

    /** `severe(Throwable thrown)`. */
    method SevereThrown(thrown: Option<Throwable>, env: Ambient)
      requires Valid()
      modifies this`printed, formatter
      ensures Valid() && LoggedOnce(Levels.Severe, None, thrown, env)
    {
      Log(Levels.Severe, None, thrown, env);
    }

    /** `severe(String message, Throwable thrown)`. */
    method SevereMessageThrown(message: Option<string>, thrown: Option<Throwable>, env: Ambient)
      requires Valid()
      modifies this`printed, formatter
      ensures Valid() && LoggedOnce(Levels.Severe, message, thrown, env)
    {
      Log(Levels.Severe, message, thrown, env);
    }
  }
}
