/**
 * JSONLogFormatter: turns one LogRecord into one line of JSON.
 *
 * The first half of this module specifies the record assembly as functions
 * over values (which keys go into the output map, what the message body is,
 * how the per-logger bundle cache and the record counter evolve); the class
 * at the end is the formatter itself, whose methods build the map put by put
 * and update their fields in place, and are proved against those functions.
 */
module Formatter {
  import opened Wrappers
  import opened JavaText
  import opened Levels
  import opened LogRecords

  /** The keys of the output object and of the nested exception object. */
  datatype Key =
    | Timestamp | TimeMillis | LogLevel | ProductId | LoggerName | ThreadId | ThreadName
    | LevelValue | MessageId | ClassName | MethodName | RecordNumber | LogMessage
    | Exception | StackTrace
  {
    /** The key as written into the JSON text. */
    function Name(): string {
      match this
      case Timestamp => "_Timestamp"
      case TimeMillis => "_TimeMillis"
      case LogLevel => "_Level"
      case ProductId => "_Version"
      case LoggerName => "_LoggerName"
      case ThreadId => "_ThreadID"
      case ThreadName => "_ThreadName"
      case LevelValue => "_LevelValue"
      case MessageId => "_MessageID"
      case ClassName => "ClassName"
      case MethodName => "MethodName"
      case RecordNumber => "RecordNumber"
      case LogMessage => "_LogMessage"
      case Exception => "_Exception"
      case StackTrace => "_StackTrace"
    }
  }

  const RFC3339_DATE_FORMAT := "yyyy-MM-dd'T'HH:mm:ss.SSSZ"
  const PRODUCT_ID := "hazelcast"

  /** Every key the formatter can ever put into the top-level object. */
  const AllKeys: set<Key> := {
    Timestamp, TimeMillis, LogLevel, ProductId, LoggerName,
    ThreadId, ThreadName, LevelValue, MessageId, ClassName,
    MethodName, RecordNumber, LogMessage }

  /** A value of the output object: a string, or the nested exception object. */
  datatype Value = Str(s: string) | Obj(fields: map<Key, string>)

  /**
   * The library calls the formatter makes, taken as given functions:
   * `renderTimestamp(pattern, millis)` is `new SimpleDateFormat(pattern).format(..)`
   * (None when the pattern is rejected), `messageFormat(template, params)` is
   * `MessageFormat.format` (None when it throws), and `toJson` is
   * `JSONObject.toString`.
   */
  datatype Library = Library(
    renderTimestamp: (string, int) -> Option<string>,
    messageFormat: (string, Option<seq<string>>) -> Option<string>,
    toJson: map<Key, Value> -> string)

  /** The class's static state: two switches and the line separator. */
  datatype StaticConfig = StaticConfig(
    logSourceInKeyValue: bool,
    recordNumberInKeyValue: bool,
    lineSeparator: string)

  /** The static initialiser, given the values of the two system properties (None when unset). */
  function StaticInit(logSourceProperty: Option<string>, recordNumberProperty: Option<string>,
                      lineSeparator: string): (c: StaticConfig)
    ensures c.logSourceInKeyValue <==> logSourceProperty == Some("true")
    ensures c.recordNumberInKeyValue <==> recordNumberProperty == Some("true")
    ensures c.lineSeparator == lineSeparator
  {
    var logSource := logSourceProperty.Some? && logSourceProperty.value == "true";
    var recordCount := recordNumberProperty.Some? && recordNumberProperty.value == "true";
    StaticConfig(logSource, recordCount, lineSeparator)
  }

  // ---------------------------------------------------------------------
  // The per-logger bundle cache
  // ---------------------------------------------------------------------

  /** The LogManager as the formatter queries it: a registered logger name and that logger's bundle (if any). */
  type Registry = map<string, Option<Bundle>>

  /** `loggerResourceBundleTable`: may hold a null bundle for a name. */
  type BundleCache = map<string, Option<Bundle>>

  /** `HashMap.get`: a stored null and a missing entry both read as null. */
  function CacheGet(cache: BundleCache, name: string): (b: Option<Bundle>)
    ensures b.Some? ==> name in cache && cache[name] == b
    ensures name in cache && cache[name].Some? ==> b == cache[name]
  {
    if name in cache then cache[name] else None
  }

  datatype BundleLookup = BundleLookup(bundle: Option<Bundle>, cache: BundleCache)

  /** `getResourceBundle(loggerName)`: the bundle returned and the cache afterwards. */
  function ResolveBundle(cache: BundleCache, loggerName: Option<string>, registry: Registry): (r: BundleLookup)
    // a null name: null, nothing cached
    ensures loggerName.None? ==> r == BundleLookup(None, cache)
    // a non-null cached bundle is returned as it is
    ensures loggerName.Some? && CacheGet(cache, loggerName.value).Some? ==>
              r == BundleLookup(CacheGet(cache, loggerName.value), cache)
    // a miss with a registered logger stores that logger's bundle (null included) and returns it
    ensures loggerName.Some? && CacheGet(cache, loggerName.value).None? && loggerName.value in registry ==>
              r == BundleLookup(registry[loggerName.value], cache[loggerName.value := registry[loggerName.value]])
    // a miss with no such logger: null, nothing cached
    ensures loggerName.Some? && CacheGet(cache, loggerName.value).None? && loggerName.value !in registry ==>
              r == BundleLookup(None, cache)
    // whatever happens, no entry is dropped and no non-null entry is replaced
    ensures cache.Keys <= r.cache.Keys
    ensures forall n :: CacheGet(cache, n).Some? ==> CacheGet(r.cache, n) == CacheGet(cache, n)
    ensures forall n | n in r.cache && (loggerName.None? || n != loggerName.value) :: n in cache && r.cache[n] == cache[n]
  {
    match loggerName
    case None => BundleLookup(None, cache)
    case Some(name) =>
      var bundle := CacheGet(cache, name);
      if bundle.None? && name in registry then
        BundleLookup(registry[name], cache[name := registry[name]])
      else
        BundleLookup(bundle, cache)
  }

  /** Asking twice for the same name against the same registry gives the same bundle. */
  lemma ResolveBundleRepeat(cache: BundleCache, loggerName: Option<string>, registry: Registry)
    ensures var first := ResolveBundle(cache, loggerName, registry);
            ResolveBundle(first.cache, loggerName, registry).bundle == first.bundle
  {
  }

  // ---------------------------------------------------------------------
  // Field groups of the output object
  // ---------------------------------------------------------------------

  /** The pattern used for `_Timestamp`: the configured one, else RFC 3339 with milliseconds. */
  function TimestampPattern(recordDateFormat: Option<string>): (p: string)
    ensures recordDateFormat.Some? ==> p == recordDateFormat.value
    ensures recordDateFormat.None? ==> p == "yyyy-MM-dd'T'HH:mm:ss.SSSZ"
  {
    recordDateFormat.GetOr(RFC3339_DATE_FORMAT)
  }

  predicate NonEmpty(s: Option<string>) {
    s.Some? && s.value != ""
  }

  /** The raw message is a key of the record's own bundle with a non-empty template. */
  predicate IsMessageKey(rec: LogRecord) {
    && NonEmpty(rec.message)
    && rec.resourceBundle.Some?
    && rec.message.value in rec.resourceBundle.value
    && rec.resourceBundle.value[rec.message.value] != ""
  }

  /** Source location is wanted when forced by the switch, or at FINE and below. */
  predicate IncludesSource(logSource: bool, level: Level) {
    logSource || level.IntValue() <= Fine.IntValue()
  }

  function NextRecordNumber(on: bool, n: int): (r: int)
    requires IsLong(n)
    ensures IsLong(r)
  {
    if on then LongIncrement(n) else n
  }

  /** A put that is skipped when the value is null or empty. */
  function PutNonEmpty(m: map<Key, Value>, key: Key, value: Option<string>): map<Key, Value> {
    if NonEmpty(value) then m[key := Str(value.value)] else m
  }

  /** The seven puts that always happen first (lines 125-153). */
  function HeaderPuts(timestamp: string, rec: LogRecord, threadName: string): map<Key, Value> {
    var m: map<Key, Value> := map[];
    m[Timestamp := Str(timestamp)][TimeMillis := Str(Decimal(rec.millis))][LogLevel := Str(rec.level.Name())]
     [ProductId := Str(PRODUCT_ID)][LoggerName := Str(rec.loggerName.GetOr(""))]
     [ThreadId := Str(Decimal(rec.threadId))][ThreadName := Str(threadName)]
  }

  /** The source-location puts (lines 165-178). */
  function SourcePuts(m: map<Key, Value>, logSource: bool, rec: LogRecord): map<Key, Value> {
    if IncludesSource(logSource, rec.level)
    then PutNonEmpty(PutNonEmpty(m, ClassName, rec.sourceClassName), MethodName, rec.sourceMethodName)
    else m
  }

  /** The object as the puts before the message body leave it, in the order they happen. */
  function BaseFields(cfg: StaticConfig, timestamp: string, number: int, rec: LogRecord, threadName: string): map<Key, Value> {
    var m := PutNonEmpty(HeaderPuts(timestamp, rec, threadName), MessageId, JSONLogFormatter.GetMessageId(rec));
    var m := SourcePuts(m[LevelValue := Str(Decimal(rec.level.IntValue()))], cfg.logSourceInKeyValue, rec);
    if cfg.recordNumberInKeyValue then m[RecordNumber := Str(Decimal(number))] else m
  }

  /** No key outside AllKeys, and not the message body, is in the base object. */
  lemma BaseKeys(cfg: StaticConfig, timestamp: string, number: int, rec: LogRecord, threadName: string)
    ensures LogMessage !in BaseFields(cfg, timestamp, number, rec, threadName)
    ensures BaseFields(cfg, timestamp, number, rec, threadName).Keys <= AllKeys
  {
  }

  /** The values of the seven first puts. */
  lemma HeaderPutsValues(timestamp: string, rec: LogRecord, threadName: string)
    ensures var h := HeaderPuts(timestamp, rec, threadName);
            && Timestamp in h && h[Timestamp] == Str(timestamp)
            && TimeMillis in h && h[TimeMillis] == Str(Decimal(rec.millis))
            && LogLevel in h && h[LogLevel] == Str(rec.level.Name())
            && ProductId in h && h[ProductId] == Str("hazelcast")
            && LoggerName in h && h[LoggerName] == Str(if rec.loggerName.Some? then rec.loggerName.value else "")
            && ThreadId in h && h[ThreadId] == Str(Decimal(rec.threadId))
            && ThreadName in h && h[ThreadName] == Str(threadName)
  {
  }

  /** The base object keeps the first seven puts and adds `_LevelValue`. */
  lemma BaseHeader(cfg: StaticConfig, timestamp: string, number: int, rec: LogRecord, threadName: string)
    ensures var b := BaseFields(cfg, timestamp, number, rec, threadName);
            var h := HeaderPuts(timestamp, rec, threadName);
            && (forall k | k in h :: k in b && b[k] == h[k])
            && LevelValue in b && b[LevelValue] == Str(Decimal(rec.level.IntValue()))
  {
    var h := HeaderPuts(timestamp, rec, threadName);
    var m := PutNonEmpty(h, MessageId, JSONLogFormatter.GetMessageId(rec))[LevelValue := Str(Decimal(rec.level.IntValue()))];
    var b := BaseFields(cfg, timestamp, number, rec, threadName);
    assert MessageId !in h;
    forall k | k in m && k != MessageId ensures k in b && b[k] == m[k] {
      SourcePutsKeep(m, cfg.logSourceInKeyValue, rec, k);
    }
  }

  /** The source-location puts touch only `ClassName` and `MethodName`. */
  lemma SourcePutsKeep(m: map<Key, Value>, logSource: bool, rec: LogRecord, k: Key)
    requires k != ClassName && k != MethodName
    ensures k in SourcePuts(m, logSource, rec) <==> k in m
    ensures k in m ==> SourcePuts(m, logSource, rec)[k] == m[k]
  {
  }

  /** The optional fields of the base object. */
  lemma BaseOptional(cfg: StaticConfig, timestamp: string, number: int, rec: LogRecord, threadName: string)
    ensures var b := BaseFields(cfg, timestamp, number, rec, threadName);
            && (MessageId in b <==> IsMessageKey(rec))
            && (MessageId in b ==> b[MessageId] == Str(rec.message.value))
            && (ClassName in b <==> IncludesSource(cfg.logSourceInKeyValue, rec.level) && NonEmpty(rec.sourceClassName))
            && (ClassName in b ==> b[ClassName] == Str(rec.sourceClassName.value))
            && (MethodName in b <==> IncludesSource(cfg.logSourceInKeyValue, rec.level) && NonEmpty(rec.sourceMethodName))
            && (MethodName in b ==> b[MethodName] == Str(rec.sourceMethodName.value))
            && (RecordNumber in b <==> cfg.recordNumberInKeyValue)
            && (RecordNumber in b ==> b[RecordNumber] == Str(Decimal(number)))
  {
  }

  // ---------------------------------------------------------------------
  // The message body
  // ---------------------------------------------------------------------

  /** `null == logMessage || logMessage.trim().equals("")`. */
  predicate IsBlankMessage(m: Option<string>) {
    m.None? || Trim(m.value) == ""
  }

  /** The shortcut that formats the raw message itself as a template. */
  predicate UsesTemplate(msg: string, params: Option<seq<string>>) {
    Contains(msg, "{0") && Contains(msg, "}") && params.Some?
  }

  /** The resolved message text (None when MessageFormat throws) and the cache afterwards. */
  datatype Resolution = Resolution(text: Option<string>, cache: BundleCache)

  function ResolveText(lib: Library, rec: LogRecord, msg: string, cache: BundleCache, registry: Registry): (r: Resolution)
    // the template shortcut formats the raw text and leaves the cache alone
    ensures UsesTemplate(msg, rec.parameters) ==>
              r == Resolution(lib.messageFormat(msg, rec.parameters), cache)
    // otherwise the logger's bundle is looked up (and possibly cached) ...
    ensures !UsesTemplate(msg, rec.parameters) ==>
              r.cache == ResolveBundle(cache, rec.loggerName, registry).cache
    // ... its template for the message key is formatted ...
    ensures !UsesTemplate(msg, rec.parameters) ==>
              var b := ResolveBundle(cache, rec.loggerName, registry).bundle;
              b.Some? && msg in b.value ==> r.text == lib.messageFormat(b.value[msg], rec.parameters)
    // ... and without a bundle or without the key the raw text stays
    ensures !UsesTemplate(msg, rec.parameters) ==>
              var b := ResolveBundle(cache, rec.loggerName, registry).bundle;
              (b.None? || msg !in b.value) ==> r.text == Some(msg)
  {
    if UsesTemplate(msg, rec.parameters) then
      Resolution(lib.messageFormat(msg, rec.parameters), cache)
    else
      var lookup := ResolveBundle(cache, rec.loggerName, registry);
      match lookup.bundle
      case Some(b) =>
        Resolution(if msg in b then lib.messageFormat(b[msg], rec.parameters) else Some(msg), lookup.cache)
      case None =>
        Resolution(Some(msg), lookup.cache)
  }

  /**
   * The nested `{_Exception, _StackTrace}` object. A null exception text is
   * not stored: JSONObject.put with a null value removes the key.
   */
  function ExceptionObject(exception: Option<string>, stackTrace: string): Value {
    Obj((if exception.Some? then map[Exception := exception.value] else map[]) + map[StackTrace := stackTrace])
  }

  datatype Body = Failed | Absent | Present(value: Value)
  datatype BodyResult = BodyResult(body: Body, cache: BundleCache)

  /** `getThrowable(record)`. */
  function GetThrowable(rec: LogRecord): (t: Option<Throwable>)
    ensures t == rec.thrown
  {
    rec.thrown
  }

  /** The `_LogMessage` value (or its absence, or a failure) and the cache afterwards. */
  function MessageBody(lib: Library, rec: LogRecord, cache: BundleCache, registry: Registry): (r: BodyResult)
    // only a MessageFormat failure on a non-blank message fails
    ensures r.body.Failed? <==>
              !IsBlankMessage(rec.message) && ResolveText(lib, rec, rec.message.value, cache, registry).text.None?
    // no body only for a blank message without throwable
    ensures r.body.Absent? <==> IsBlankMessage(rec.message) && rec.thrown.None?
    // a blank message never touches the cache; otherwise the cache is the resolution's
    ensures IsBlankMessage(rec.message) ==> r.cache == cache
    ensures !IsBlankMessage(rec.message) ==> r.cache == ResolveText(lib, rec, rec.message.value, cache, registry).cache
  {
    if IsBlankMessage(rec.message) then
      var body := match rec.thrown
        case Some(t) => Present(ExceptionObject(t.message, t.stackTrace))
        case None => Absent;
      BodyResult(body, cache)
    else
      var res := ResolveText(lib, rec, rec.message.value, cache, registry);
      match res.text
      case None => BodyResult(Failed, res.cache)
      case Some(text) =>
        var body := match GetThrowable(rec)
          case Some(t) => Present(ExceptionObject(Some(text), t.stackTrace))
          case None => Present(Str(text));
        BodyResult(body, res.cache)
  }

  // ---------------------------------------------------------------------
  // The whole record
  // ---------------------------------------------------------------------

  datatype FormatterState = FormatterState(recordNumber: int, cache: BundleCache)

  /** The assembled object (None when formatting failed) and the formatter's state afterwards. */
  datatype Assembly = Assembly(fields: Option<map<Key, Value>>, state: FormatterState)

  /**
   * `jsonLogFormat(record)` on values: `rdf` is `recordDateFormat`, `st` the
   * counter and the bundle cache before the call, `registry` the LogManager
   * and `threadName` the name of the formatting thread.
   */
  function Assemble(cfg: StaticConfig, lib: Library, rdf: Option<string>, st: FormatterState,
                    rec: LogRecord, registry: Registry, threadName: string): (a: Assembly)
    requires IsLong(st.recordNumber)
    ensures IsLong(a.state.recordNumber)
    // a pattern SimpleDateFormat rejects fails the call before anything changes
    ensures lib.renderTimestamp(TimestampPattern(rdf), rec.millis).None? ==> a == Assembly(None, st)
    // past the timestamp the counter moves by one exactly when the switch is on
    ensures lib.renderTimestamp(TimestampPattern(rdf), rec.millis).Some? ==>
              a.state.recordNumber == NextRecordNumber(cfg.recordNumberInKeyValue, st.recordNumber)
    // past the timestamp, only a MessageFormat failure on a non-blank message fails the call
    ensures lib.renderTimestamp(TimestampPattern(rdf), rec.millis).Some? ==>
              (a.fields.None? <==>
                 !IsBlankMessage(rec.message) && ResolveText(lib, rec, rec.message.value, st.cache, registry).text.None?)
    // the cache is only touched by the bundle lookup of a non-blank, non-template message
    ensures IsBlankMessage(rec.message) ==> a.state.cache == st.cache
    ensures forall n :: CacheGet(st.cache, n).Some? ==> CacheGet(a.state.cache, n) == CacheGet(st.cache, n)
  {
    match lib.renderTimestamp(TimestampPattern(rdf), rec.millis)
    case None => Assembly(None, st)
    case Some(timestamp) =>
      var number := NextRecordNumber(cfg.recordNumberInKeyValue, st.recordNumber);
      var body := MessageBody(lib, rec, st.cache, registry);
      Assembly(WithBody(BaseFields(cfg, timestamp, number, rec, threadName), body.body),
               FormatterState(number, body.cache))
  }

  /** Adds the message body to the other fields, or fails. */
  function WithBody(base: map<Key, Value>, body: Body): Option<map<Key, Value>> {
    match body
    case Failed => None
    case Absent => Some(base)
    case Present(v) => Some(base[LogMessage := v])
  }

  /** Past a successful timestamp, the assembly is the base fields with the message body. */
  lemma AssembleUnfold(cfg: StaticConfig, lib: Library, rdf: Option<string>, st: FormatterState,
                       rec: LogRecord, registry: Registry, threadName: string)
    requires IsLong(st.recordNumber)
    requires lib.renderTimestamp(TimestampPattern(rdf), rec.millis).Some?
    ensures var number := NextRecordNumber(cfg.recordNumberInKeyValue, st.recordNumber);
            var body := MessageBody(lib, rec, st.cache, registry);
            Assemble(cfg, lib, rdf, st, rec, registry, threadName) ==
            Assembly(WithBody(BaseFields(cfg, lib.renderTimestamp(TimestampPattern(rdf), rec.millis).value, number, rec, threadName), body.body),
                     FormatterState(number, body.cache))
  {
  }

  /** On success the eight header fields are there, and no key outside AllKeys is. */
  lemma AssembledHeader(cfg: StaticConfig, lib: Library, rdf: Option<string>, st: FormatterState,
                        rec: LogRecord, registry: Registry, threadName: string)
    requires IsLong(st.recordNumber)
    ensures var a := Assemble(cfg, lib, rdf, st, rec, registry, threadName);
            a.fields.Some? ==>
              var f := a.fields.value;
              && f.Keys <= AllKeys
              && Timestamp in f && f[Timestamp].Str?
              && lib.renderTimestamp(TimestampPattern(rdf), rec.millis) == Some(f[Timestamp].s)
              && TimeMillis in f && f[TimeMillis] == Str(Decimal(rec.millis))
              && LogLevel in f && f[LogLevel] == Str(rec.level.Name())
              && ProductId in f && f[ProductId] == Str("hazelcast")
              && LoggerName in f && f[LoggerName] == Str(if rec.loggerName.Some? then rec.loggerName.value else "")
              && ThreadId in f && f[ThreadId] == Str(Decimal(rec.threadId))
              && ThreadName in f && f[ThreadName] == Str(threadName)
              && LevelValue in f && f[LevelValue] == Str(Decimal(rec.level.IntValue()))
  {
    var rendered := lib.renderTimestamp(TimestampPattern(rdf), rec.millis);
    if rendered.Some? {
      AssembleUnfold(cfg, lib, rdf, st, rec, registry, threadName);
      HeaderPutsValues(rendered.value, rec, threadName);
      BaseHeader(cfg, rendered.value, NextRecordNumber(cfg.recordNumberInKeyValue, st.recordNumber), rec, threadName);
      BaseKeys(cfg, rendered.value, NextRecordNumber(cfg.recordNumberInKeyValue, st.recordNumber), rec, threadName);
    }
  }

  /** On success `_MessageID`, `ClassName`, `MethodName` and `RecordNumber` are there exactly when their conditions hold. */
  lemma AssembledOptional(cfg: StaticConfig, lib: Library, rdf: Option<string>, st: FormatterState,
                          rec: LogRecord, registry: Registry, threadName: string)
    requires IsLong(st.recordNumber)
    ensures var a := Assemble(cfg, lib, rdf, st, rec, registry, threadName);
            a.fields.Some? ==>
              var f := a.fields.value;
              && (MessageId in f <==> IsMessageKey(rec))
              && (MessageId in f ==> f[MessageId] == Str(rec.message.value))
              && (ClassName in f <==> IncludesSource(cfg.logSourceInKeyValue, rec.level) && NonEmpty(rec.sourceClassName))
              && (ClassName in f ==> f[ClassName] == Str(rec.sourceClassName.value))
              && (MethodName in f <==> IncludesSource(cfg.logSourceInKeyValue, rec.level) && NonEmpty(rec.sourceMethodName))
              && (MethodName in f ==> f[MethodName] == Str(rec.sourceMethodName.value))
              && (RecordNumber in f <==> cfg.recordNumberInKeyValue)
              && (RecordNumber in f ==> f[RecordNumber] == Str(Decimal(a.state.recordNumber)))
  {
    var rendered := lib.renderTimestamp(TimestampPattern(rdf), rec.millis);
    if rendered.Some? {
      AssembleUnfold(cfg, lib, rdf, st, rec, registry, threadName);
      BaseOptional(cfg, rendered.value, NextRecordNumber(cfg.recordNumberInKeyValue, st.recordNumber), rec, threadName);
    }
  }

  /** On success the message body: absent only for a blank message without throwable. */
  lemma AssembledLogMessage(cfg: StaticConfig, lib: Library, rdf: Option<string>, st: FormatterState,
                            rec: LogRecord, registry: Registry, threadName: string)
    requires IsLong(st.recordNumber)
    ensures var a := Assemble(cfg, lib, rdf, st, rec, registry, threadName);
            a.fields.Some? ==>
              var f := a.fields.value;
              && (LogMessage in f <==> !IsBlankMessage(rec.message) || rec.thrown.Some?)
              && (IsBlankMessage(rec.message) && rec.thrown.Some? ==>
                    f[LogMessage] == ExceptionObject(rec.thrown.value.message, rec.thrown.value.stackTrace))
              && (!IsBlankMessage(rec.message) ==>
                    var text := ResolveText(lib, rec, rec.message.value, st.cache, registry).text;
                    && text.Some?
                    && f[LogMessage] == if rec.thrown.Some? then ExceptionObject(text, rec.thrown.value.stackTrace)
                                        else Str(text.value))
  {
    var rendered := lib.renderTimestamp(TimestampPattern(rdf), rec.millis);
    if rendered.Some? {
      AssembleUnfold(cfg, lib, rdf, st, rec, registry, threadName);
      BaseKeys(cfg, rendered.value, NextRecordNumber(cfg.recordNumberInKeyValue, st.recordNumber), rec, threadName);
    }
  }

  /** What `format` returns: the serialised object and the line separator, or "" on failure. */
  function Output(cfg: StaticConfig, lib: Library, a: Assembly): (r: string)
    ensures a.fields.None? ==> r == ""
    ensures a.fields.Some? ==> r == lib.toJson(a.fields.value) + cfg.lineSeparator
  {
    match a.fields
    case Some(f) => lib.toJson(f) + cfg.lineSeparator
    case None => ""
  }

  /** `_LevelValue` reads back as the record's rank. */
  lemma LevelValueReadsBack(cfg: StaticConfig, lib: Library, rdf: Option<string>, st: FormatterState,
                            rec: LogRecord, registry: Registry, threadName: string)
    requires IsLong(st.recordNumber)
    ensures var a := Assemble(cfg, lib, rdf, st, rec, registry, threadName);
            a.fields.Some? ==>
              && LevelValue in a.fields.value && a.fields.value[LevelValue].Str?
              && ParseDecimal(a.fields.value[LevelValue].s) == Some(rec.level.IntValue())
  {
    AssembledHeader(cfg, lib, rdf, st, rec, registry, threadName);
    DecimalRoundTrip(rec.level.IntValue());
  }

  /**
   * The `_LevelValue` texts of the standard levels, read back, follow the
   * declared order of the levels, and each text names one level only.
   */
  lemma LevelValueOrder(i: int, j: int)
    requires 0 <= i < j < |Ascending|
    ensures var vi := ParseDecimal(Decimal(Ascending[i].IntValue()));
            var vj := ParseDecimal(Decimal(Ascending[j].IntValue()));
            vi.Some? && vj.Some? && vi.value < vj.value
  {
    RanksAscend(i, j);
    DecimalRoundTrip(Ascending[i].IntValue());
    DecimalRoundTrip(Ascending[j].IntValue());
  }

  /** Two levels with the same `_LevelValue` text, or the same `_Level` text, are the same level. */
  lemma LevelTextsIdentify(a: Level, b: Level)
    ensures Decimal(a.IntValue()) == Decimal(b.IntValue()) ==> a == b
    ensures a.Name() == b.Name() ==> a == b
  {
    if Decimal(a.IntValue()) == Decimal(b.IntValue()) {
      DecimalInjective(a.IntValue(), b.IntValue());
    }
    RankAndNameIdentify(a, b);
  }

  // ---------------------------------------------------------------------
  // Successive calls on one formatter
  // ---------------------------------------------------------------------

  /** One `format` call: the record, the LogManager at that moment and the calling thread's name. */
  datatype Call = Call(record: LogRecord, registry: Registry, threadName: string)

  /** The assemblies of successive calls; each call starts from the state the previous one left. */
  function Run(cfg: StaticConfig, lib: Library, rdf: Option<string>, st: FormatterState, calls: seq<Call>): (outs: seq<Assembly>)
    requires IsLong(st.recordNumber)
    ensures |outs| == |calls|
    ensures forall i | 0 <= i < |outs| :: IsLong(outs[i].state.recordNumber)
    decreases |calls|
  {
    if calls == [] then []
    else
      var a := Assemble(cfg, lib, rdf, st, calls[0].record, calls[0].registry, calls[0].threadName);
      [a] + Run(cfg, lib, rdf, a.state, calls[1..])
  }

  /** Every call renders its timestamp, so none stops before the counter. */
  predicate AllTimestamped(lib: Library, rdf: Option<string>, calls: seq<Call>) {
    forall i | 0 <= i < |calls| :: lib.renderTimestamp(TimestampPattern(rdf), calls[i].record.millis).Some?
  }

  /** The call left the counter at `k` and, if it succeeded, emitted the counter's value. */
  predicate Numbered(a: Assembly, k: int) {
    && a.state.recordNumber == k
    && (a.fields.Some? ==> RecordNumber in a.fields.value && a.fields.value[RecordNumber] == Str(Decimal(a.state.recordNumber)))
  }

  /** One call with the switch on and a rendered timestamp numbers its record `n + 1`. */
  lemma NumberedCall(cfg: StaticConfig, lib: Library, rdf: Option<string>, st: FormatterState, c: Call)
    requires IsLong(st.recordNumber) && cfg.recordNumberInKeyValue && st.recordNumber < LONG_MAX
    requires lib.renderTimestamp(TimestampPattern(rdf), c.record.millis).Some?
    ensures Numbered(Assemble(cfg, lib, rdf, st, c.record, c.registry, c.threadName), st.recordNumber + 1)
  {
    AssembledOptional(cfg, lib, rdf, st, c.record, c.registry, c.threadName);
  }

  /**
   * With the switch on, the i-th call (from 0) leaves the counter at
   * `n + i + 1` and a successful one emits that number: from a fresh
   * formatter the first record is numbered "1".
   */
  lemma {:induction false} RecordNumbersCountUp(cfg: StaticConfig, lib: Library, rdf: Option<string>,
                                                st: FormatterState, calls: seq<Call>)
    requires IsLong(st.recordNumber) && cfg.recordNumberInKeyValue
    requires st.recordNumber + |calls| <= LONG_MAX
    requires AllTimestamped(lib, rdf, calls)
    ensures var outs := Run(cfg, lib, rdf, st, calls);
            forall i | 0 <= i < |outs| :: Numbered(outs[i], st.recordNumber + i + 1)
    decreases |calls|
  {
    if calls != [] {
      var c := calls[0];
      NumberedCall(cfg, lib, rdf, st, c);
      var a := Assemble(cfg, lib, rdf, st, c.record, c.registry, c.threadName);
      var st' := a.state;
      assert AllTimestamped(lib, rdf, calls[1..]) by {
        forall i | 0 <= i < |calls[1..]|
          ensures lib.renderTimestamp(TimestampPattern(rdf), calls[1..][i].record.millis).Some?
        {
          assert calls[1..][i] == calls[i + 1];
        }
      }
      RecordNumbersCountUp(cfg, lib, rdf, st', calls[1..]);
      assert Run(cfg, lib, rdf, st, calls) == [a] + Run(cfg, lib, rdf, st', calls[1..]);
      forall i | 1 <= i < |calls|
        ensures Numbered(Run(cfg, lib, rdf, st, calls)[i], st.recordNumber + i + 1)
      {
        assert Numbered(Run(cfg, lib, rdf, st', calls[1..])[i - 1], st'.recordNumber + (i - 1) + 1);
      }
    }
  }

  /** With the switch off the counter never moves and no record carries `RecordNumber`. */
  lemma {:induction false} RecordNumberOff(cfg: StaticConfig, lib: Library, rdf: Option<string>,
                                           st: FormatterState, calls: seq<Call>)
    requires IsLong(st.recordNumber) && !cfg.recordNumberInKeyValue
    ensures var outs := Run(cfg, lib, rdf, st, calls);
            forall i | 0 <= i < |outs| ::
              && outs[i].state.recordNumber == st.recordNumber
              && (outs[i].fields.Some? ==> RecordNumber !in outs[i].fields.value)
    decreases |calls|
  {
    if calls != [] {
      var c := calls[0];
      var a := Assemble(cfg, lib, rdf, st, c.record, c.registry, c.threadName);
      AssembledOptional(cfg, lib, rdf, st, c.record, c.registry, c.threadName);
      RecordNumberOff(cfg, lib, rdf, a.state, calls[1..]);
      var outs := Run(cfg, lib, rdf, st, calls);
      assert outs == [a] + Run(cfg, lib, rdf, a.state, calls[1..]);
    }
  }

  /** A non-null bundle, once cached, keeps its entry through every later call. */
  lemma {:induction false} CachedBundlesPersist(cfg: StaticConfig, lib: Library, rdf: Option<string>,
                                                st: FormatterState, calls: seq<Call>, name: string)
    requires IsLong(st.recordNumber)
    requires CacheGet(st.cache, name).Some?
    ensures var outs := Run(cfg, lib, rdf, st, calls);
            forall i | 0 <= i < |outs| :: CacheGet(outs[i].state.cache, name) == CacheGet(st.cache, name)
    decreases |calls|
  {
    if calls != [] {
      var c := calls[0];
      var a := Assemble(cfg, lib, rdf, st, c.record, c.registry, c.threadName);
      assert CacheGet(a.state.cache, name) == CacheGet(st.cache, name);
      CachedBundlesPersist(cfg, lib, rdf, a.state, calls[1..], name);
      var outs := Run(cfg, lib, rdf, st, calls);
      assert outs == [a] + Run(cfg, lib, rdf, a.state, calls[1..]);
    }
  }

  /** Resolving the same message again, from the cache the first resolution left, gives the same text. */
  lemma ResolveTextRepeat(lib: Library, rec: LogRecord, msg: string, cache: BundleCache, registry: Registry)
    ensures var first := ResolveText(lib, rec, msg, cache, registry);
            ResolveText(lib, rec, msg, first.cache, registry).text == first.text
  {
    if !UsesTemplate(msg, rec.parameters) {
      ResolveBundleRepeat(cache, rec.loggerName, registry);
    }
  }

  /**
   * Formatting the same record twice against the same LogManager gives the
   * same outcome and the same `_LogMessage` content.
   */
  lemma RepeatedFormatSameMessage(cfg: StaticConfig, lib: Library, rdf: Option<string>, st: FormatterState,
                                  rec: LogRecord, registry: Registry, threadName: string)
    requires IsLong(st.recordNumber)
    ensures var first := Assemble(cfg, lib, rdf, st, rec, registry, threadName);
            var second := Assemble(cfg, lib, rdf, first.state, rec, registry, threadName);
            && (second.fields.Some? <==> first.fields.Some?)
            && (first.fields.Some? ==>
                  && (LogMessage in second.fields.value <==> LogMessage in first.fields.value)
                  && (LogMessage in first.fields.value ==>
                        second.fields.value[LogMessage] == first.fields.value[LogMessage]))
  {
    var first := Assemble(cfg, lib, rdf, st, rec, registry, threadName);
    if lib.renderTimestamp(TimestampPattern(rdf), rec.millis).Some? {
      if !IsBlankMessage(rec.message) {
        ResolveTextRepeat(lib, rec, rec.message.value, st.cache, registry);
      }
      AssembledLogMessage(cfg, lib, rdf, st, rec, registry, threadName);
      AssembledLogMessage(cfg, lib, rdf, first.state, rec, registry, threadName);
    }
  }

  // ---------------------------------------------------------------------
  // The formatter object
  // ---------------------------------------------------------------------

  class JSONLogFormatter {
    const config: StaticConfig
    const lib: Library
    var loggerResourceBundleTable: BundleCache
    var recordNumber: int
    var recordDateFormat: Option<string>

    /** `recordNumber` is a Java `long`. */
    ghost predicate Valid()
      reads this
    {
      IsLong(recordNumber)
    }

    function State(): FormatterState
      reads this
    {
      FormatterState(recordNumber, loggerResourceBundleTable)
    }

    constructor (config: StaticConfig, lib: Library)
      ensures Valid()
      ensures this.config == config && this.lib == lib
      ensures State() == FormatterState(0, map[]) && recordDateFormat == None
    {
      this.config := config;
      this.lib := lib;
      loggerResourceBundleTable := map[];
      recordNumber := 0;
      recordDateFormat := None;
    }

    /** `format(record)`: never fails; the catch of JSONException around it cannot fire. */
    method Format(record: LogRecord, registry: Registry, threadName: string) returns (r: string)
      requires Valid()
      modifies this
      ensures Valid()
      ensures var a := Assemble(config, lib, old(recordDateFormat), old(State()), record, registry, threadName);
              r == Output(config, lib, a) && State() == a.state
      ensures recordDateFormat == old(recordDateFormat)
    {
      r := JsonLogFormat(record, registry, threadName);
    }

    /** `jsonLogFormat(record)`: every failure of the assembly ends in "". */
    method JsonLogFormat(record: LogRecord, registry: Registry, threadName: string) returns (r: string)
      requires Valid()
      modifies this`recordNumber, this`loggerResourceBundleTable
      ensures Valid()
      ensures var a := Assemble(config, lib, recordDateFormat, old(State()), record, registry, threadName);
              r == Output(config, lib, a) && State() == a.state
    {
      var pattern := if GetRecordDateFormat() != None then GetRecordDateFormat().value else RFC3339_DATE_FORMAT;
      var timestampValue := lib.renderTimestamp(pattern, record.millis);
      if timestampValue == None {
        return "";
      }
      var eventObject := PutBaseFields(timestampValue.value, record, threadName);
      AssembleUnfold(config, lib, recordDateFormat, old(State()), record, registry, threadName);
      var assembled := PutLogMessage(eventObject, record, registry);
      if assembled == None {
        return "";
      }
      r := lib.toJson(assembled.value) + config.lineSeparator;
    }

    /**
     * The puts of `jsonLogFormat` before the message body, with the
     * record-number increment.
     */
    method PutBaseFields(timestamp: string, record: LogRecord, threadName: string)
      returns (eventObject: map<Key, Value>)
      requires Valid()
      modifies this`recordNumber
      ensures Valid()
      ensures recordNumber == NextRecordNumber(config.recordNumberInKeyValue, old(recordNumber))
      ensures eventObject == BaseFields(config, timestamp, recordNumber, record, threadName)
    {
      eventObject := map[];
      eventObject := eventObject[Timestamp := Str(timestamp)];
      eventObject := eventObject[TimeMillis := Str(Decimal(record.millis))];
      eventObject := eventObject[LogLevel := Str(record.level.Name())];
      eventObject := eventObject[ProductId := Str(PRODUCT_ID)];
      var loggerName := if record.loggerName == None then "" else record.loggerName.value;
      eventObject := eventObject[LoggerName := Str(loggerName)];
      eventObject := eventObject[ThreadId := Str(Decimal(record.threadId))];
      eventObject := eventObject[ThreadName := Str(threadName)];
      assert eventObject == HeaderPuts(timestamp, record, threadName);

      var messageId := GetMessageId(record);
      if messageId != None && messageId.value != "" {
        eventObject := eventObject[MessageId := Str(messageId.value)];
      }

      assert eventObject == PutNonEmpty(HeaderPuts(timestamp, record, threadName), MessageId, messageId);
      var level := record.level;
      eventObject := eventObject[LevelValue := Str(Decimal(level.IntValue()))];
      ghost var beforeSource := eventObject;
      if config.logSourceInKeyValue || level.IntValue() <= Fine.IntValue() {
        var sourceClassName := record.sourceClassName;
        if sourceClassName != None && sourceClassName.value != "" {
          eventObject := eventObject[ClassName := Str(sourceClassName.value)];
        }
        var sourceMethodName := record.sourceMethodName;
        if sourceMethodName != None && sourceMethodName.value != "" {
          eventObject := eventObject[MethodName := Str(sourceMethodName.value)];
        }
      }

      assert eventObject == SourcePuts(beforeSource, config.logSourceInKeyValue, record);
      if config.recordNumberInKeyValue {
        recordNumber := LongIncrement(recordNumber);
        eventObject := eventObject[RecordNumber := Str(Decimal(recordNumber))];
      }
      assert eventObject == BaseFields(config, timestamp, recordNumber, record, threadName);
    }

    /**
     * The non-blank message path of `jsonLogFormat`: a template with
     * parameters goes through MessageFormat, otherwise the logger's bundle
     * may map the text to a pattern. None when MessageFormat throws.
     */
    method ResolveMessage(message: string, record: LogRecord, registry: Registry)
      returns (resolved: Option<string>)
      modifies this`loggerResourceBundleTable
      ensures ResolveText(lib, record, message, old(loggerResourceBundleTable), registry)
              == Resolution(resolved, loggerResourceBundleTable)
    {
      var text := message;
      if Contains(text, "{0") && Contains(text, "}") && record.parameters != None {
        var formatted := lib.messageFormat(text, record.parameters);
        if formatted == None {
          return None;
        }
        text := formatted.value;
      } else {
        var bundle := GetResourceBundle(record.loggerName, registry);
        if bundle != None {
          if text in bundle.value {
            var formatted := lib.messageFormat(bundle.value[text], record.parameters);
            if formatted == None {
              return None;
            }
            text := formatted.value;
          }
          // a missing key (MissingResourceException) keeps the raw text
        }
      }
      resolved := Some(text);
    }

    /**
     * Lines 188-239 of `jsonLogFormat`: adds `_LogMessage` to the object
     * built so far; None when MessageFormat throws (the caller then returns "").
     */
    method PutLogMessage(fields: map<Key, Value>, record: LogRecord, registry: Registry)
      returns (result: Option<map<Key, Value>>)
      modifies this`loggerResourceBundleTable
      ensures var body := MessageBody(lib, record, old(loggerResourceBundleTable), registry);
              result == WithBody(fields, body.body) && loggerResourceBundleTable == body.cache
    {
      var eventObject := fields;

      var logMessage := record.message;
      if logMessage == None || Trim(logMessage.value) == "" {
        var throwable := record.thrown;
        if throwable != None {
          var traceObject: map<Key, string> := map[];
          if throwable.value.message != None {
            traceObject := traceObject[Exception := throwable.value.message.value];
          }
          traceObject := traceObject[StackTrace := throwable.value.stackTrace];
          assert Obj(traceObject) == ExceptionObject(throwable.value.message, throwable.value.stackTrace);
          eventObject := eventObject[LogMessage := Obj(traceObject)];
        }
      } else {
        var resolved := ResolveMessage(logMessage.value, record, registry);
        if resolved == None {
          return None;
        }
        var text := resolved.value;
        var throwable := GetThrowable(record);
        if throwable != None {
          var traceObject: map<Key, string> := map[];
          traceObject := traceObject[Exception := text];
          traceObject := traceObject[StackTrace := throwable.value.stackTrace];
          assert Obj(traceObject) == ExceptionObject(Some(text), throwable.value.stackTrace);
          eventObject := eventObject[LogMessage := Obj(traceObject)];
        } else {
          eventObject := eventObject[LogMessage := Str(text)];
        }
      }
      result := Some(eventObject);
    }

    /** `getMessageId(record)`: the raw message when it is a key of the record's own bundle with a non-empty template. */
    static function GetMessageId(record: LogRecord): (id: Option<string>)
      ensures id.Some? <==> IsMessageKey(record)
      ensures id.Some? ==> id == record.message
    {
      var message := record.message;
      if message != None && message.value != "" then
        var bundle := record.resourceBundle;
        if bundle != None && message.value in bundle.value then
          if bundle.value[message.value] != "" then message else None
        else None
      else None
    }

    /** `getResourceBundle(loggerName)`. */
    method GetResourceBundle(loggerName: Option<string>, registry: Registry) returns (bundle: Option<Bundle>)
      modifies this`loggerResourceBundleTable
      ensures BundleLookup(bundle, loggerResourceBundleTable) ==
              ResolveBundle(old(loggerResourceBundleTable), loggerName, registry)
    {
      if loggerName == None {
        return None;
      }
      var name := loggerName.value;
      bundle := CacheGet(loggerResourceBundleTable, name);
      var logger: Option<Option<Bundle>> := if name in registry then Some(registry[name]) else None;
      if bundle == None && logger != None {
        bundle := logger.value;
        loggerResourceBundleTable := loggerResourceBundleTable[name := bundle];
      }
    }

    /** `getRecordDateFormat()`: the pattern last set, null until then. */
    function GetRecordDateFormat(): (p: Option<string>)
      reads this
      ensures p == recordDateFormat
    {
      recordDateFormat
    }

    method SetRecordDateFormat(recordDateFormat: Option<string>)
      modifies this`recordDateFormat
      ensures GetRecordDateFormat() == recordDateFormat
    {
      this.recordDateFormat := recordDateFormat;
    }
  }
}
