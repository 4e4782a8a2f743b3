/**
 * The hook's behaviour in the situations its tests set up, derived from the
 * contracts of Fire and TraceContext alone. Each method builds a tracer, a
 * hook and a log entry, fires the hook once and returns what the tracer saw.
 */
module HookScenarios {
  import opened Wrappers
  import opened Apm
  import opened Logger
  import TraceFields
  import opened ErrorHook
  import Correlation

  /**
   * An ERROR record without trace context: one report with the message and
   * level, handled, two frames skipped, all identifiers zero, no flush.
   */
  method ErrorWithoutTraceContext(message: string, time: Time) returns (sent: seq<ErrorLog>, flushes: seq<FlushRequest>)
    ensures |sent| == 1
    ensures sent[0].message == message && sent[0].level == "ERROR" && sent[0].timestamp == time
    ensures sent[0].handled && sent[0].error == None && sent[0].stackSkip == 2
    ensures sent[0].traceId == ZeroTraceId && sent[0].transactionId == ZeroSpanId && sent[0].parentId == ZeroSpanId
    ensures flushes == []
  {
    var tracer := new Tracer(true);
    var hook := Hook(tracer, None, 0);
    var entry := Entry(time, ERROR, message, [Str(message)], [Field("foo", Str("bar"))]);
    var _ := Fire(hook, entry, tracer);
    sent, flushes := tracer.sent, tracer.flushes;
    Correlation.NoCorrelationFieldsZeroIds(entry, sent[0]);
  }

  /** A record logged with an error argument: that error is the cause and one frame is skipped. */
  method ErrorWithCause(message: string, cause: Error, time: Time) returns (sent: seq<ErrorLog>)
    ensures |sent| == 1
    ensures sent[0].error == Some(cause) && sent[0].stackSkip == 1 && sent[0].message == message
  {
    var tracer := new Tracer(true);
    var hook := Hook(tracer, None, 0);
    var entry := Entry(time, ERROR, message, [Str("nope"), Err(cause), Err(Error("later"))], []);
    assert IsFirstError(entry.args, 1);
    var _ := Fire(hook, entry, tracer);
    sent := tracer.sent;
  }

  /**
   * A record logged inside a transaction and a span, with the fields of
   * TraceContext attached: the report carries the trace ID, the
   * transaction's ID, and the span's ID as parent.
   */
  method ErrorInTransactionAndSpan(tx: Transaction, span: Span, message: string, time: Time)
    returns (sent: seq<ErrorLog>)
    ensures |sent| == 1
    ensures sent[0].traceId == tx.traceContext.trace
    ensures sent[0].transactionId == tx.traceContext.span
    ensures sent[0].parentId == span.traceContext.span
  {
    var tracer := new Tracer(true);
    var hook := Hook(tracer, None, 0);
    var ctx := Context(Some(tx), Some(span));
    var entry := Entry(time, ERROR, message, [], TraceFields.TraceContext(ctx));
    var _ := Fire(hook, entry, tracer);
    sent := tracer.sent;
    assert entry.fields == [] + TraceFields.TraceContext(ctx) + [];
    Correlation.TraceContextRoundTrip(ctx, [], [], entry, sent[0]);
  }

  /**
   * A hook whose own tracer is not recording (it was closed): Fire succeeds
   * and that tracer sees nothing.
   */
  method TracerClosed(message: string, time: Time) returns (err: Option<Error>, sent: seq<ErrorLog>, flushes: seq<FlushRequest>)
    ensures err == None && sent == [] && flushes == []
  {
    var tracer := new Tracer(false);
    var fallback := new Tracer(true);
    var hook := Hook(tracer, None, 0);
    err := Fire(hook, Entry(time, ERROR, message, [], []), fallback);
    sent, flushes := tracer.sent, tracer.flushes;
  }

  /**
   * A FATAL record reported to the hook's own tracer with the given flush
   * timeout: one report, then one flush with the effective timeout covering
   * that report, or no flush if the timeout is negative.
   */
  method Fatal(message: string, time: Time, timeout: Duration) returns (sent: seq<ErrorLog>, flushes: seq<FlushRequest>)
    ensures |sent| == 1 && sent[0].message == message && sent[0].level == "FATAL"
    ensures timeout < 0 ==> flushes == []
    ensures timeout == 0 ==> flushes == [FlushRequest(5 * Second, 1)]
    ensures timeout > 0 ==> flushes == [FlushRequest(timeout, 1)]
  {
    var tracer := new Tracer(true);
    var fallback := new Tracer(true);
    var hook := Hook(tracer, None, timeout);
    var _ := Fire(hook, Entry(time, FATAL, message, [], []), fallback);
    sent, flushes := tracer.sent, tracer.flushes;
  }
}
