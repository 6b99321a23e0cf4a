# JSON logging for Hazelcast, modelled in Dafny

This project models the two classes that give Hazelcast JSON log lines:

- `JSONLogFormatter` turns a `java.util.logging.LogRecord` into one line of JSON. The line holds:
  - the timestamp in a configurable pattern;
  - the level name and its rank;
  - the fixed product id `"hazelcast"`;
  - the logger name, the thread id and the thread name;
  - an optional message id;
  - optional source class and method;
  - an optional record number;
  - the message body, which is a string or an `{_Exception, _StackTrace}` object.

  The message text may be a `MessageFormat` template, or a key into the logger's resource bundle. Bundles are cached per logger name.
- `JsonLoggingHazelcastLogger` is the Hazelcast `ILogger` adapter. It builds a record for each call, formats it with its own formatter and prints the line. It never filters by level.

Modules:

| file | module | content |
|---|---|---|
| `wrappers.dfy` | `Wrappers` | `Option`, standing for a Java reference that may be null |
| `java_text.dfy` | `JavaText` | Java `long` wrap-around, `Long.toString` as decimal text and its parse-back, `String.trim`, `String.contains` |
| `levels.dfy` | `Levels` | the standard `java.util.logging.Level` constants, their ranks and names |
| `log_records.dfy` | `LogRecords` | the getters of a `LogRecord`, a `Throwable`, bundles |
| `formatter.dfy` | `Formatter` | the specification functions of the assembly, and the class `JSONLogFormatter` proved against them |
| `hazelcast_logger.dfy` | `HazelcastLogger` | the class `JsonLoggingHazelcastLogger` |

How the model is set up:

- The output object is a `map<Key, Value>`. `Key` enumerates the JSON keys, and `Key.Name()` gives each one's text.
- The library calls are function-valued fields of `Library`:
  - `renderTimestamp` is `SimpleDateFormat`; it gives None when the pattern is rejected;
  - `messageFormat` is `MessageFormat.format`; it gives None when it throws;
  - `toJson` is `JSONObject.toString`.
- "Returns `""`" is the result whenever one of these calls fails. That is the `catch (Exception)` of `jsonLogFormat`.
- The methods build the map put by put, as the Java code does. Their postconditions tie the result and the new fields to `Assemble`, the whole-call function. The lemmas state the key-by-key properties of `Assemble`.

Points where the code does something its comments or names do not suggest:

- Source location (`ClassName`, `MethodName`) is emitted at FINE as well as FINER and FINEST, because the test is `level.intValue() <= Level.FINE.intValue()`. The comment next to it says FINER and FINEST only.
- The record counter is a per-instance `long` that is incremented without synchronisation. It is not a process-wide atomic counter. With the switch on, the first record of a fresh formatter is numbered 1.
- A "no bundle" answer stored in the cache reads back as a miss under `HashMap.get`. Such a logger is therefore asked again on the next call. It is not remembered as a negative result.
- The adapter's `log` does not consult `isLoggable`. Every call prints a line.
- `_MessageID` checks the record's own bundle. It does not check the logger's cached bundle.
- The template shortcut needs both `"{0"` and `"}"` in the raw text, and non-null parameters.

## Model

| member | source | states |
|---|---|---|
| Formatter.StaticInit | src/main/java/com/cargopartner/JSONLogFormatter.java:42-61 | each switch is on exactly when its system property is the string "true"; the line separator is passed through |
| Formatter.TimestampPattern | src/main/java/com/cargopartner/JSONLogFormatter.java:115-121 | the pattern is `recordDateFormat` when it is set, else `yyyy-MM-dd'T'HH:mm:ss.SSSZ` |
| Formatter.ResolveBundle | src/main/java/com/cargopartner/JSONLogFormatter.java:281-301 | null name: null, cache unchanged; cached non-null bundle: returned, cache unchanged; miss with a registered logger: that logger's bundle (null included) stored and returned; miss with no logger: null, cache unchanged; no entry is ever dropped, and no non-null entry is replaced |
| Formatter.ResolveBundleRepeat | src/main/java/com/cargopartner/JSONLogFormatter.java:286-298 | asking again for the same name, from the cache the first lookup left, returns the same bundle |
| Formatter.CacheGet | src/main/java/com/cargopartner/JSONLogFormatter.java:286-287 | `HashMap.get`: a non-null result is the stored entry, and a stored non-null entry is returned; a stored null and a missing name both read as null |
| Formatter.JSONLogFormatter.GetResourceBundle | src/main/java/com/cargopartner/JSONLogFormatter.java:281-301 | the method's bundle and new cache are exactly those of `ResolveBundle` on the old cache |
| Formatter.JSONLogFormatter.GetMessageId | src/main/java/com/cargopartner/JSONLogFormatter.java:256-267 | the id is non-null iff the message is non-empty and is a key of the record's own bundle whose template is non-empty; the id is then the raw message |
| Formatter.ResolveText | src/main/java/com/cargopartner/JSONLogFormatter.java:204-220 | template shortcut: MessageFormat on the raw text, cache untouched; otherwise the logger's bundle is looked up as `ResolveBundle` does, its template for the key is formatted, and with no bundle or no key the raw text is kept |
| Formatter.JSONLogFormatter.ResolveMessage | src/main/java/com/cargopartner/JSONLogFormatter.java:204-220 | the method's text (None when MessageFormat throws) and its new cache equal `ResolveText` on the old cache |
| Formatter.ResolveTextRepeat | src/main/java/com/cargopartner/JSONLogFormatter.java:209-219 | resolving the same message again, with the cache the first resolution left, gives the same text |
| Formatter.Assemble | src/main/java/com/cargopartner/JSONLogFormatter.java:108-250 | a rejected timestamp pattern fails the call with nothing changed; otherwise the counter advances by one iff the switch is on; the call fails iff the message is non-blank and MessageFormat throws; a blank message leaves the cache alone; cached non-null bundles survive |
| Formatter.AssembleUnfold | src/main/java/com/cargopartner/JSONLogFormatter.java:110-240 | after a successful timestamp, the object is the fields put before the message body plus the body |
| Formatter.HeaderPutsValues | src/main/java/com/cargopartner/JSONLogFormatter.java:125-153 | the first seven puts give the timestamp, the millis as decimal text, the level name, "hazelcast", the logger name or "", the thread id and the thread name |
| Formatter.BaseHeader | src/main/java/com/cargopartner/JSONLogFormatter.java:155-186 | the later puts keep those seven values, and `_LevelValue` is the decimal rank |
| Formatter.SourcePutsKeep | src/main/java/com/cargopartner/JSONLogFormatter.java:165-178 | the source-location puts change no key other than ClassName and MethodName |
| Formatter.BaseOptional | src/main/java/com/cargopartner/JSONLogFormatter.java:155-186 | `_MessageID`, ClassName, MethodName and RecordNumber are present iff their conditions hold, with their values |
| Formatter.BaseKeys | src/main/java/com/cargopartner/JSONLogFormatter.java:110-186 | before the message body no `_LogMessage` is there, and no key outside the thirteen top-level keys |
| Formatter.AssembledHeader | src/main/java/com/cargopartner/JSONLogFormatter.java:125-164 | on success: the eight always-present fields with their values, and no key outside the thirteen top-level keys |
| Formatter.AssembledOptional | src/main/java/com/cargopartner/JSONLogFormatter.java:155-186 | on success: `_MessageID` iff the message is a key of the record's bundle (value: the raw message); ClassName and MethodName each iff (switch on or rank <= 500) and that name is non-empty; RecordNumber iff the switch is on, valued with the new counter |
| Formatter.AssembledLogMessage | src/main/java/com/cargopartner/JSONLogFormatter.java:188-239 | on success `_LogMessage` is absent only for a blank message with no throwable; blank with a throwable gives {_Exception: throwable message (left out when null), _StackTrace}; non-blank gives the resolved text, or {_Exception: resolved text, _StackTrace} when there is a throwable |
| Formatter.GetThrowable | src/main/java/com/cargopartner/JSONLogFormatter.java:273-275 | `getThrowable(record)` is the record's own throwable |
| Formatter.MessageBody | src/main/java/com/cargopartner/JSONLogFormatter.java:188-239 | the body fails only when MessageFormat throws on a non-blank message; it is absent only for a blank message without throwable; a blank message leaves the cache alone, otherwise the cache is the one the text resolution leaves |
| Formatter.LevelValueReadsBack | src/main/java/com/cargopartner/JSONLogFormatter.java:164 | on success `_LevelValue` is a string that parses back as the record's rank |
| Formatter.LevelValueOrder | src/main/java/com/cargopartner/JSONLogFormatter.java:164 | the `_LevelValue` texts of the standard levels, read back, increase in the declared level order |
| Formatter.LevelTextsIdentify | src/main/java/com/cargopartner/JSONLogFormatter.java:132-164 | two levels with equal `_LevelValue` texts, or equal `_Level` texts, are the same level |
| Formatter.RepeatedFormatSameMessage | src/main/java/com/cargopartner/JSONLogFormatter.java:188-239 | formatting the same record twice against the same LogManager succeeds both times or neither, and gives the same `_LogMessage` |
| Formatter.NumberedCall | src/main/java/com/cargopartner/JSONLogFormatter.java:183-186 | with the switch on, one call moves the counter from n to n + 1 and emits n + 1 |
| Formatter.RecordNumbersCountUp | src/main/java/com/cargopartner/JSONLogFormatter.java:183-186 | with the switch on and no overflow, the i-th of successive calls leaves the counter at n + i + 1 and emits that number, so a fresh formatter's first record is numbered 1 |
| Formatter.RecordNumberOff | src/main/java/com/cargopartner/JSONLogFormatter.java:183-186 | with the switch off the counter never moves, and no record carries RecordNumber |
| Formatter.CachedBundlesPersist | src/main/java/com/cargopartner/JSONLogFormatter.java:286-298 | a non-null bundle in the cache keeps its entry through every later call |
| Formatter.Output | src/main/java/com/cargopartner/JSONLogFormatter.java:242-248 | a failed assembly gives ""; a successful one gives the serialised object followed by the line separator |
| Formatter.JSONLogFormatter.constructor | src/main/java/com/cargopartner/JSONLogFormatter.java:90-94 | a new formatter starts with counter 0, an empty cache and no date pattern |
| Formatter.JSONLogFormatter.Format | src/main/java/com/cargopartner/JSONLogFormatter.java:96-102 | `format` returns the serialised object followed by the line separator, or "" on failure; it never reports an error otherwise; counter and cache become those of `Assemble` |
| Formatter.JSONLogFormatter.JsonLogFormat | src/main/java/com/cargopartner/JSONLogFormatter.java:108-250 | the put-by-put construction gives `Output` of `Assemble` and leaves counter and cache as `Assemble` says |
| Formatter.JSONLogFormatter.PutBaseFields | src/main/java/com/cargopartner/JSONLogFormatter.java:125-186 | the puts before the message body build `BaseFields`, and the counter advances as `NextRecordNumber` says |
| Formatter.JSONLogFormatter.PutLogMessage | src/main/java/com/cargopartner/JSONLogFormatter.java:188-239 | the message-body puts give the object `MessageBody` describes (or failure), and the cache it leaves |
| Formatter.JSONLogFormatter.SetRecordDateFormat | src/main/java/com/cargopartner/JSONLogFormatter.java:306-315 | after `setRecordDateFormat(p)`, `getRecordDateFormat()` returns p, and nothing else changes |
| Formatter.JSONLogFormatter.GetRecordDateFormat | src/main/java/com/cargopartner/JSONLogFormatter.java:306-308 | returns the `recordDateFormat` field, null until a pattern is set |
| JavaText.LongIncrement | src/main/java/com/cargopartner/JSONLogFormatter.java:184 | `recordNumber++` on a `long` stays a `long` and adds one below the maximum; it wraps to the minimum at the maximum |
| JavaText.DecimalRoundTrip | src/main/java/com/cargopartner/JSONLogFormatter.java:126 | the decimal text written for millis, thread id, rank and record number reads back as the same number |
| JavaText.TrimEmptyIffBlank | src/main/java/com/cargopartner/JSONLogFormatter.java:190 | `trim()` gives "" exactly when every character is at most U+0020 |
| HazelcastLogger.AdapterFields | src/main/java/com/cargopartner/JsonLoggingHazelcastLogger.java:102-108 | a formatted adapter record carries its level and logger name; it never has `_MessageID` or MethodName; it has ClassName, equal to the logger name, iff (switch on or rank <= 500) and the name is non-empty |
| HazelcastLogger.AdapterRecord | src/main/java/com/cargopartner/JsonLoggingHazelcastLogger.java:103-106 | the record carries the given level, message and throwable, the clock and thread id of the call, the logger name as logger and as source class, and null parameters, source method and bundle |
| HazelcastLogger.AdapterNoTemplate | src/main/java/com/cargopartner/JsonLoggingHazelcastLogger.java:103-106 | an adapter record has no parameters, so its text never takes the template shortcut |
| HazelcastLogger.JsonLoggingHazelcastLogger.constructor | src/main/java/com/cargopartner/JsonLoggingHazelcastLogger.java:25-29 | name and level as given, a fresh formatter in its initial state, nothing printed |
| HazelcastLogger.JsonLoggingHazelcastLogger.GetLevel | src/main/java/com/cargopartner/JsonLoggingHazelcastLogger.java:116-118 | `getLevel()` is the level given at construction |
| HazelcastLogger.JsonLoggingHazelcastLogger.IsLoggable | src/main/java/com/cargopartner/JsonLoggingHazelcastLogger.java:121-123 | loggable iff the configured rank is at most the level's rank; the configured level itself is loggable; ALL takes everything; OFF takes only OFF |
| HazelcastLogger.JsonLoggingHazelcastLogger.IsLoggableMonotone | src/main/java/com/cargopartner/JsonLoggingHazelcastLogger.java:121-123 | loggable at one rank implies loggable at every higher rank |
| HazelcastLogger.JsonLoggingHazelcastLogger.IsFinestEnabled | src/main/java/com/cargopartner/JsonLoggingHazelcastLogger.java:46-49 | equals `isLoggable(FINEST)`, which holds iff the configured level is ALL or FINEST |
| HazelcastLogger.JsonLoggingHazelcastLogger.IsFineEnabled | src/main/java/com/cargopartner/JsonLoggingHazelcastLogger.java:56-59 | equals `isLoggable(FINE)`, which holds iff the configured level is ALL, FINEST, FINER or FINE |
| HazelcastLogger.JsonLoggingHazelcastLogger.Log | src/main/java/com/cargopartner/JsonLoggingHazelcastLogger.java:102-108 | whatever the configured level, exactly one line is printed: the formatter's output for the record with that level, message, throwable, the logger name as logger and source class, and no parameters, method or bundle; the formatter's counter and cache advance accordingly |
| HazelcastLogger.JsonLoggingHazelcastLogger.LogEvent | src/main/java/com/cargopartner/JsonLoggingHazelcastLogger.java:111-113 | prints the formatted form of the event's own record |
| HazelcastLogger.JsonLoggingHazelcastLogger.LogRecordLine | src/main/java/com/cargopartner/JsonLoggingHazelcastLogger.java:125-127 | appends `format(record)` to the printed lines |
| HazelcastLogger.JsonLoggingHazelcastLogger.LogMessage | src/main/java/com/cargopartner/JsonLoggingHazelcastLogger.java:96-99 | `log(level, message)` is `log(level, message, null)` |
| HazelcastLogger.JsonLoggingHazelcastLogger.Finest | src/main/java/com/cargopartner/JsonLoggingHazelcastLogger.java:31-34 | `log(FINEST, message, null)` |
| HazelcastLogger.JsonLoggingHazelcastLogger.FinestThrown | src/main/java/com/cargopartner/JsonLoggingHazelcastLogger.java:36-39 | `log(FINEST, null, thrown)` |
| HazelcastLogger.JsonLoggingHazelcastLogger.FinestMessageThrown | src/main/java/com/cargopartner/JsonLoggingHazelcastLogger.java:41-44 | `log(FINEST, message, thrown)` |
| HazelcastLogger.JsonLoggingHazelcastLogger.Fine | src/main/java/com/cargopartner/JsonLoggingHazelcastLogger.java:51-54 | `log(FINE, message, null)` |
| HazelcastLogger.JsonLoggingHazelcastLogger.Info | src/main/java/com/cargopartner/JsonLoggingHazelcastLogger.java:61-64 | `log(INFO, message, null)` |
| HazelcastLogger.JsonLoggingHazelcastLogger.Warning | src/main/java/com/cargopartner/JsonLoggingHazelcastLogger.java:66-69 | `log(WARNING, message, null)` |
| HazelcastLogger.JsonLoggingHazelcastLogger.WarningThrown | src/main/java/com/cargopartner/JsonLoggingHazelcastLogger.java:71-74 | `log(WARNING, null, thrown)` |
| HazelcastLogger.JsonLoggingHazelcastLogger.WarningMessageThrown | src/main/java/com/cargopartner/JsonLoggingHazelcastLogger.java:76-79 | `log(WARNING, message, thrown)` |
| HazelcastLogger.JsonLoggingHazelcastLogger.Severe | src/main/java/com/cargopartner/JsonLoggingHazelcastLogger.java:81-84 | `log(SEVERE, message, null)` |
| HazelcastLogger.JsonLoggingHazelcastLogger.SevereThrown | src/main/java/com/cargopartner/JsonLoggingHazelcastLogger.java:86-89 | `log(SEVERE, null, thrown)` |
| HazelcastLogger.JsonLoggingHazelcastLogger.SevereMessageThrown | src/main/java/com/cargopartner/JsonLoggingHazelcastLogger.java:91-94 | `log(SEVERE, message, thrown)` |

## Left out

- JSON serialisation and escaping by Jettison: `toJson` is an uninterpreted function of the key/value map. One Jettison rule is kept: a `put` with a null value stores nothing, so `_Exception` is absent when a throwable has no message.
- `SimpleDateFormat` rendering: `renderTimestamp(pattern, millis)` is uninterpreted and may reject the pattern. The shared mutable `date` field is a thread-safety concern and is not modelled.
- The semantics of `MessageFormat.format` (quoting, format types, choice): `messageFormat` is uninterpreted and may fail. Parameters are given by their string forms.
- The text `Throwable.printStackTrace` writes: it is the throwable's `stackTrace` string, taken as already rendered.
- Resource bundle parent chains and locales: a bundle is a plain map, and `getString` on a missing key is the "keep the raw text" branch.
- The ambient inputs are parameters:
  - the two system properties read by the static initialiser are arguments of `StaticInit`;
  - `line.separator` is part of `StaticConfig`;
  - the current thread's name is an argument of each call;
  - the LogManager is a map from logger name to that logger's bundle, passed with each call;
  - the clock and thread id that `new LogRecord` records come in `Ambient`.
- `synchronized` on `getResourceBundle` and the unsynchronised `recordNumber++`: concurrency is not modelled, and every call runs alone.
- The `ErrorManager` report on a formatting failure is I/O. The model keeps only the `""` result.
- `System.out.println` is modelled as `printed`, the sequence of strings passed to it. The terminator `println` adds is not part of the strings, so on the console a successful line is followed by an empty line.
- The `catch (JSONException)` in `format`: it can never be reached, because `jsonLogFormat` catches every `Exception` itself. `Format` just returns what `JsonLogFormat` returns.
- A failure after the counter increment (MessageFormat throwing) keeps the incremented counter and any bundle already cached, as in Java.
- `jsonLogFormat` is one Java method. The model splits it into `JsonLogFormat`, `PutBaseFields`, `ResolveMessage` and `PutLogMessage`, with the same puts in the same order.
- `LogRecord` is a value: `Log` builds it with the same setter calls in order, and no one else holds a reference to it. Caller inference, which `LogRecord.getSourceClassName` performs on records whose source was never set, is not modelled for records passed to `LogEvent`.
- Custom `Level` subclasses, and a null level (which the `LogRecord` constructor refuses): only the nine standard levels are modelled.
- `JsonLoggingHazelcastFactory.java` is not part of this model. It reads an environment variable and calls `Level.parse`.
