/**
 * The log hook: the severities it asks the logger for, the first-match
 * lookups over a record's fields and arguments, and Fire, which turns a log
 * entry into an error report sent to the tracer.
 */
module ErrorHook {
  import opened Wrappers
  import opened Apm
  import opened Logger
  import TraceFields

  /** The severities reported when the hook is not configured with its own. */
  const DefaultLogLevels: seq<Level> := [PANIC, FATAL, ERROR]

  /** How long a fatal record's report is flushed when no timeout is configured. */
  const DefaultFatalFlushTimeout: Duration := 5 * Second

  /**
   * The hook's configuration: a tracer (null: the process-wide default), the
   * severities to report (None: a nil slice, as opposed to an empty one) and
   * the flush timeout for fatal records.
   */
  datatype Hook = Hook(tracer: Tracer?, logLevels: Option<seq<Level>>, fatalFlushTimeout: Duration)

  /** The tracer the hook reports to: its own, or the default one when it has none. */
  function SelectTracer(h: Hook, defaultTracer: Tracer): (t: Tracer)
    ensures h.tracer != null ==> t == h.tracer
    ensures h.tracer == null ==> t == defaultTracer
  {
    if h.tracer != null then h.tracer else defaultTracer
  }

  /** The severities the logger invokes the hook for. */
  function Levels(h: Hook): (levels: seq<Level>)
    ensures h.logLevels.Some? ==> levels == h.logLevels.value
    ensures h.logLevels.None? ==> levels == [PANIC, FATAL, ERROR]
  {
    match h.logLevels
    case Some(configured) => configured
    case None => DefaultLogLevels
  }

  /** Unconfigured, the hook reports exactly the levels at least as severe as ERROR. */
  lemma DefaultLevelsAreErrorAndAbove(h: Hook, l: Level)
    requires h.logLevels.None?
    ensures l in Levels(h) <==> Severity(l) >= Severity(ERROR)
  {
  }

  /** Index `i` holds the first field whose key is `key`. */
  predicate IsFirstMatch(fields: seq<Field>, key: string, i: int)
  {
    0 <= i < |fields| && fields[i].key == key &&
    forall j :: 0 <= j < i ==> fields[j].key != key
  }

  /** Some field has key `key`. */
  predicate HasKey(fields: seq<Field>, key: string)
  {
    exists i :: 0 <= i < |fields| && fields[i].key == key
  }

  /**
   * The value of the first field with key `key`, or nil if there is none;
   * later fields with the same key are never looked at.
   */
  function FieldValue(fields: seq<Field>, key: string): (v: Value)
    ensures !HasKey(fields, key) ==> v == Nil
    ensures forall i :: IsFirstMatch(fields, key, i) ==> v == fields[i].value
  {
    if fields == [] then Nil
    else if fields[0].key == key then fields[0].value
    else
      assert forall i :: IsFirstMatch(fields, key, i) ==> IsFirstMatch(fields[1..], key, i - 1);
      FieldValue(fields[1..], key)
  }

  /** getFieldValue: a scan of the fields that returns at the first matching key. */
  method GetFieldValue(fields: seq<Field>, key: string) returns (v: Value)
    ensures v == FieldValue(fields, key)
  {
    for i := 0 to |fields|
      invariant forall j :: 0 <= j < i ==> fields[j].key != key
    {
      if fields[i].key == key {
        assert IsFirstMatch(fields, key, i);
        return fields[i].value;
      }
    }
    return Nil;
  }

  /** Index `i` holds the first argument that is an error. */
  predicate IsFirstError(args: seq<Value>, i: int)
  {
    0 <= i < |args| && args[i].Err? &&
    forall j :: 0 <= j < i ==> !args[j].Err?
  }

  /** The first argument that is an error, or none; errors after it are never chosen. */
  function FirstError(args: seq<Value>): (err: Option<Error>)
    ensures (forall i :: 0 <= i < |args| ==> !args[i].Err?) ==> err == None
    ensures forall i :: IsFirstError(args, i) ==> err == Some(args[i].err)
  {
    if args == [] then None
    else if args[0].Err? then Some(args[0].err)
    else
      assert forall i :: IsFirstError(args, i) ==> IsFirstError(args[1..], i - 1);
      FirstError(args[1..])
  }

  /** getError: a scan of the arguments that returns at the first error. */
  method GetError(args: seq<Value>) returns (err: Option<Error>)
    ensures err == FirstError(args)
  {
    for i := 0 to |args|
      invariant forall j :: 0 <= j < i ==> !args[j].Err?
    {
      if args[i].Err? {
        assert IsFirstError(args, i);
        return Some(args[i].err);
      }
    }
    return None;
  }

  /**
   * `e` is the report of `entry`: message, level label and timestamp copied,
   * the first error argument as its cause, marked handled, one frame skipped
   * when a cause was found and two otherwise; the trace ID taken from a
   * trace-ID-typed "trace.id" field, the transaction ID from a span-ID-typed
   * "transaction.id" field, and the parent ID from a span-ID-typed "span.id"
   * field, or else the transaction ID. Identifiers not found stay zero.
   */
  predicate IsReportOf(e: ErrorLog, entry: Entry)
    ensures IsReportOf(e, entry) ==> e.handled && (e.stackSkip == 1 <==> e.error.Some?)
    ensures IsReportOf(e, entry) && !HasKey(entry.fields, TraceFields.SpanIdKey) ==>
      e.parentId == e.transactionId
  {
    var cause := FirstError(entry.args);
    && e.message == entry.message
    && e.level == LevelName(entry.level)
    && e.error == cause
    && e.handled
    && e.timestamp == entry.time
    && e.stackSkip == (if cause.Some? then 1 else 2)
    && e.traceId == (match FieldValue(entry.fields, TraceFields.TraceIdKey)
                     case TraceIdValue(id) => id
                     case _ => ZeroTraceId)
    && e.transactionId == (match FieldValue(entry.fields, TraceFields.TransactionIdKey)
                           case SpanIdValue(id) => id
                           case _ => ZeroSpanId)
    && e.parentId == (match FieldValue(entry.fields, TraceFields.SpanIdKey)
                      case SpanIdValue(id) => id
                      case _ => e.transactionId)
  }

  /** Every entry has a report, and only one: the rules above fix every field of it. */
  lemma ReportExistsAndIsUnique(entry: Entry)
    ensures exists e :: IsReportOf(e, entry)
    ensures forall e1, e2 :: IsReportOf(e1, entry) && IsReportOf(e2, entry) ==> e1 == e2
  {
    var cause := FirstError(entry.args);
    var traceId := match FieldValue(entry.fields, TraceFields.TraceIdKey)
                   case TraceIdValue(id) => id
                   case _ => ZeroTraceId;
    var transactionId := match FieldValue(entry.fields, TraceFields.TransactionIdKey)
                         case SpanIdValue(id) => id
                         case _ => ZeroSpanId;
    var parentId := match FieldValue(entry.fields, TraceFields.SpanIdKey)
                    case SpanIdValue(id) => id
                    case _ => transactionId;
    var e := ErrorLog(entry.message, LevelName(entry.level), cause, true, entry.time,
                      if cause.Some? then 1 else 2, traceId, transactionId, parentId);
    assert IsReportOf(e, entry);
  }

  /**
   * The deadline of the flush after a fatal record: none when the configured
   * timeout is negative, the default when it is zero, the configured value
   * otherwise; a flush is never given a deadline that has already passed.
   */
  function EffectiveFlushTimeout(configured: Duration): (timeout: Option<Duration>)
    ensures timeout.None? <==> configured < 0
    ensures timeout.Some? ==> timeout.value > 0
    ensures configured == 0 ==> timeout == Some(DefaultFatalFlushTimeout)
    ensures configured > 0 ==> timeout == Some(configured)
  {
    if configured < 0 then None
    else if configured == 0 then Some(DefaultFatalFlushTimeout)
    else Some(configured)
  }

  /**
   * Fire: with a tracer that is not recording, nothing happens; otherwise the
   * report of `entry` is sent, and for a fatal record a flush with the
   * effective timeout follows, covering that report. Fire never reports a
   * failure.
   */
  method Fire(h: Hook, entry: Entry, defaultTracer: Tracer) returns (err: Option<Error>)
    modifies SelectTracer(h, defaultTracer)
    ensures err == None
    ensures var t := SelectTracer(h, defaultTracer);
      t.recording == old(t.recording)
    ensures var t := SelectTracer(h, defaultTracer);
      !old(t.recording) ==> t.sent == old(t.sent) && t.flushes == old(t.flushes)
    ensures var t := SelectTracer(h, defaultTracer);
      old(t.recording) ==>
        && |t.sent| == |old(t.sent)| + 1
        && t.sent[..|old(t.sent)|] == old(t.sent)
        && IsReportOf(t.sent[|old(t.sent)|], entry)
    ensures var t := SelectTracer(h, defaultTracer);
      old(t.recording) ==>
        t.flushes == old(t.flushes) +
          (if entry.level == FATAL && EffectiveFlushTimeout(h.fatalFlushTimeout).Some?
           then [FlushRequest(EffectiveFlushTimeout(h.fatalFlushTimeout).value, |old(t.sent)| + 1)]
           else [])
  {
    var tracer := SelectTracer(h, defaultTracer);
    if !tracer.recording {
      return None;
    }

    var cause := GetError(entry.args);
    var errlog := NewErrorLog(entry.message, LevelName(entry.level), cause);
    errlog := errlog.(handled := true);
    errlog := errlog.(timestamp := entry.time);

    var stacktrace := 1;
    if cause == None {
      stacktrace := stacktrace + 1;
    }
    errlog := errlog.(stackSkip := stacktrace);

    // Correlation identifiers attached with TraceFields.TraceContext.
    var traceValue := GetFieldValue(entry.fields, TraceFields.TraceIdKey);
    if traceValue.TraceIdValue? {
      errlog := errlog.(traceId := traceValue.traceId);
    }
    var transactionValue := GetFieldValue(entry.fields, TraceFields.TransactionIdKey);
    if transactionValue.SpanIdValue? {
      errlog := errlog.(transactionId := transactionValue.spanId);
      errlog := errlog.(parentId := transactionValue.spanId);
    }
    var spanValue := GetFieldValue(entry.fields, TraceFields.SpanIdKey);
    if spanValue.SpanIdValue? {
      errlog := errlog.(parentId := spanValue.spanId);
    }

    assert IsReportOf(errlog, entry);
    ghost var queued := |tracer.sent| + 1;
    tracer.Send(errlog);
    assert |tracer.sent| == queued;

    if entry.level == FATAL {
      // The logger exits the process after a fatal record, so flush first.
      var flushTimeout := h.fatalFlushTimeout;
      if flushTimeout == 0 {
        flushTimeout := DefaultFatalFlushTimeout;
      }
      if flushTimeout >= 0 {
        tracer.Flush(flushTimeout);
        assert tracer.flushes == old(tracer.flushes) + [FlushRequest(flushTimeout, queued)];
      }
    }
    return None;
  }
}
