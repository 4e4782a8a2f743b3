/** The host logger's types that the hook consumes (github.com/savsgio/go-logger). */
module Logger {
  import opened Apm

  /** Severities, least severe first. */
  datatype Level = DEBUG | INFO | WARNING | ERROR | FATAL | PANIC

  /** The rank of a level in the severity order. */
  function Severity(l: Level): nat
  {
    match l
    case DEBUG => 0
    case INFO => 1
    case WARNING => 2
    case ERROR => 3
    case FATAL => 4
    case PANIC => 5
  }

  /** Level.String(). */
  function LevelName(l: Level): string
  {
    match l
    case DEBUG => "DEBUG"
    case INFO => "INFO"
    case WARNING => "WARNING"
    case ERROR => "ERROR"
    case FATAL => "FATAL"
    case PANIC => "PANIC"
  }

  /**
   * A value stored in an interface{}: the dynamic types the hook tells apart
   * (trace ID, span ID, error), a few others, and nil.
   */
  datatype Value =
    | Nil
    | Str(str: string)
    | Int(number: int)
    | Err(err: Error)
    | TraceIdValue(traceId: TraceId)
    | SpanIdValue(spanId: SpanId)

  /** logger.Field: a key and a value attached to a log record. */
  datatype Field = Field(key: string, value: Value)

  /**
   * logger.Entry: the timestamp, level and rendered message of a log call,
   * its raw arguments and the fields attached to the logger (entry.Config.Fields).
   */
  datatype Entry = Entry(time: Time, level: Level, message: string, args: seq<Value>, fields: seq<Field>)
}
