/**
 * The immutable log record of src/log-record.ts.  The record carries the
 * fields read by the handlers (`level`, `context`, `msg`, `date`) and the
 * logger's metadata that logger.ts hands to the constructor.
 */
module LogRecords {

  /** A clock reading: milliseconds since the epoch, as a JavaScript `Date` holds it. */
  type Date = int

  /** A metadata value; `unknown` in the source, a small closed set here. */
  datatype Value = Null | Bool(b: bool) | Num(n: int) | Text(s: string)

  type Metadata = map<string, Value>

  /** A record; datatype values cannot change, as the `readonly` fields promise. */
  datatype LogRecord = LogRecord(level: int, context: string, msg: string, metadata: Metadata, date: Date)

  /** The second constructor argument used by logger.ts: `{level, context, metadata}`. */
  datatype RecordOptions = RecordOptions(level: int, context: string, metadata: Metadata)

  /**
   * `new LogRecord(message, options)`: the fields are the arguments, and
   * `date` is the clock reading `now` taken at construction.
   */
  function NewRecord(message: string, options: RecordOptions, now: Date): (r: LogRecord)
    ensures r.level == options.level && r.context == options.context
    ensures r.msg == message && r.metadata == options.metadata
    ensures r.date == now
  {
    LogRecord(options.level, options.context, message, options.metadata, now)
  }
}
