/**
 * The parts of the Elastic APM tracer that the hook relies on, modelled
 * abstractly: identifiers, the trace context held by an in-process context,
 * the error record the hook fills in, and a tracer that records what it is sent.
 */
module Apm {
  import opened Wrappers

  type Byte = bv8

  /** apm.TraceID is a 16-byte array; its zero value is all zeros. */
  type TraceId = s: seq<Byte> | |s| == 16 witness ZeroTraceId

  /** apm.SpanID is an 8-byte array; its zero value is all zeros. */
  type SpanId = s: seq<Byte> | |s| == 8 witness ZeroSpanId

  const ZeroTraceId: seq<Byte> := [0, 0, 0, 0, 0, 0, 0, 0, 0, 0, 0, 0, 0, 0, 0, 0]
  const ZeroSpanId: seq<Byte> := [0, 0, 0, 0, 0, 0, 0, 0]

  /** apm.TraceContext: the trace a unit of work belongs to and its own span ID. */
  datatype TraceContext = TraceContext(trace: TraceId, span: SpanId)

  datatype Transaction = Transaction(traceContext: TraceContext)
  datatype Span = Span(traceContext: TraceContext)

  /**
   * A context.Context as seen through apm.TransactionFromContext and
   * apm.SpanFromContext: an optional active transaction and an optional span.
   */
  datatype Context = Context(transaction: Option<Transaction>, span: Option<Span>)

  /** A Go value that implements the error interface. */
  datatype Error = Error(message: string)

  /** An instant (time.Time), kept abstract. */
  type Time = int

  const MinInt64: int := -0x8000_0000_0000_0000
  const MaxInt64: int := 0x7fff_ffff_ffff_ffff

  /** time.Duration: a signed 64-bit count of nanoseconds. */
  type Duration = d: int | MinInt64 <= d <= MaxInt64

  const Second: Duration := 1_000_000_000

  /**
   * The reported error (apm.Error) reduced to the fields the hook sets:
   * the log message and level label, the underlying error, the handled flag,
   * the timestamp, the number of frames skipped when the log stack trace is
   * captured, and the correlation identifiers.
   */
  datatype ErrorLog = ErrorLog(
    message: string,
    level: string,
    error: Option<Error>,
    handled: bool,
    timestamp: Time,
    stackSkip: nat,
    traceId: TraceId,
    transactionId: SpanId,
    parentId: SpanId)

  /** tracer.NewErrorLog: a record holding message, level and error, every other field zero. */
  function NewErrorLog(message: string, level: string, error: Option<Error>): ErrorLog
  {
    ErrorLog(message, level, error, false, 0, 0, ZeroTraceId, ZeroSpanId, ZeroSpanId)
  }

  /**
   * A flush request: its timeout and the number of reports queued when it
   * was made, which are the reports it is asked to deliver.
   */
  datatype FlushRequest = FlushRequest(timeout: Duration, queued: nat)

  /**
   * The tracer as the hook sees it: whether it is recording, the error
   * records sent to it in order, and the flushes requested in order.
   */
  class Tracer {
    var recording: bool
    var sent: seq<ErrorLog>
    var flushes: seq<FlushRequest>

    constructor (recording: bool)
      ensures this.recording == recording && sent == [] && flushes == []
    {
      this.recording := recording;
      sent := [];
      flushes := [];
    }

    /** errlog.Send(): queue the record for delivery. */
    method Send(e: ErrorLog)
      modifies this
      ensures sent == old(sent) + [e]
      ensures recording == old(recording) && flushes == old(flushes)
    {
      sent := sent + [e];
    }

    /**
     * tracer.Flush, bounded by a deadline of the given length: it covers
     * every report queued so far.
     */
    method Flush(timeout: Duration)
      modifies this
      ensures flushes == old(flushes) + [FlushRequest(timeout, |sent|)]
      ensures recording == old(recording) && sent == old(sent)
    {
      flushes := flushes + [FlushRequest(timeout, |sent|)];
    }
  }
}
