/**
 * The java.util.logging values the formatter reads: a LogRecord, the
 * Throwable it may carry, and resource bundles.
 */
module LogRecords {
  import opened Wrappers
  import opened Levels

  /** A ResourceBundle: message key to localized template. */
  type Bundle = map<string, string>

  /**
   * A Throwable as the formatter sees it: `getMessage()` (null allowed) and
   * the text `printStackTrace` writes, taken as already rendered.
   */
  datatype Throwable = Throwable(message: Option<string>, stackTrace: string)

  /**
   * The getters of a LogRecord. `None` stands for a null reference; the level
   * is never null (the LogRecord constructor refuses a null level).
   * Parameters are given by their string forms.
   */
  datatype LogRecord = LogRecord(
    level: Level,
    message: Option<string>,
    millis: int,
    loggerName: Option<string>,
    threadId: int,
    parameters: Option<seq<string>>,
    thrown: Option<Throwable>,
    sourceClassName: Option<string>,
    sourceMethodName: Option<string>,
    resourceBundle: Option<Bundle>)
}
