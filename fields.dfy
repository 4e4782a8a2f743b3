/**
 * Trace-context propagation: turning the transaction and span held by a
 * context into the correlation fields a log record carries.
 */
module TraceFields {
  import opened Wrappers
  import Apm
  import opened Logger

  /** The reserved field keys. */
  const TraceIdKey: string := "trace.id"
  const TransactionIdKey: string := "transaction.id"
  const SpanIdKey: string := "span.id"

  predicate IsReservedKey(key: string)
  {
    key == TraceIdKey || key == TransactionIdKey || key == SpanIdKey
  }

  /** The number of fields whose key is `key`. */
  function KeyCount(fields: seq<Field>, key: string): nat
  {
    if fields == [] then 0
    else (if fields[0].key == key then 1 else 0) + KeyCount(fields[1..], key)
  }

  /**
   * The invariant of correlation fields: each reserved key at most once, and
   * a span ID only alongside a trace ID and a transaction ID.
   */
  predicate WellFormedCorrelation(fields: seq<Field>)
  {
    && KeyCount(fields, TraceIdKey) <= 1
    && KeyCount(fields, TransactionIdKey) <= 1
    && KeyCount(fields, SpanIdKey) <= 1
    && (KeyCount(fields, SpanIdKey) == 1 ==>
          KeyCount(fields, TraceIdKey) == 1 && KeyCount(fields, TransactionIdKey) == 1)
  }

  /**
   * The correlation fields of `ctx`: none without a transaction; otherwise the
   * transaction's trace ID and its own span ID, then the span's ID if a span
   * is active.
   */
  function TraceContext(ctx: Apm.Context): (fields: seq<Field>)
    ensures fields == [] <==> ctx.transaction.None?
    ensures |fields| == if ctx.transaction.None? then 0 else if ctx.span.None? then 2 else 3
    ensures forall i :: 0 <= i < |fields| ==> IsReservedKey(fields[i].key)
  {
    match ctx.transaction
    case None => []
    case Some(tx) =>
      var traceContext := tx.traceContext;
      var fields := [
        Field(TraceIdKey, TraceIdValue(traceContext.trace)),
        Field(TransactionIdKey, SpanIdValue(traceContext.span))
      ];
      match ctx.span
      case None => fields
      case Some(span) => fields + [Field(SpanIdKey, SpanIdValue(span.traceContext.span))]
  }

  lemma {:induction false} KeyCountConcat(a: seq<Field>, b: seq<Field>, key: string)
    ensures KeyCount(a + b, key) == KeyCount(a, key) + KeyCount(b, key)
  {
    if a == [] {
      assert a + b == b;
    } else {
      assert (a + b)[1..] == a[1..] + b;
      KeyCountConcat(a[1..], b, key);
    }
  }

  lemma KeyCountSingle(f: Field, key: string)
    ensures KeyCount([f], key) == if f.key == key then 1 else 0
  {
  }

  /** The fields of a trace context always satisfy the correlation invariant. */
  lemma TraceContextWellFormed(ctx: Apm.Context)
    ensures WellFormedCorrelation(TraceContext(ctx))
  {
    var fields := TraceContext(ctx);
    if fields != [] {
      var f0, f1 := fields[0], fields[1];
      assert TraceIdKey != TransactionIdKey && TraceIdKey != SpanIdKey && TransactionIdKey != SpanIdKey;
      forall key: string, i | 0 <= i < |fields| ensures KeyCount([fields[i]], key) == if fields[i].key == key then 1 else 0 {
        KeyCountSingle(fields[i], key);
      }
      assert [f0, f1] == [f0] + [f1];
      forall key: string ensures KeyCount([f0, f1], key) == KeyCount([f0], key) + KeyCount([f1], key) {
        KeyCountConcat([f0], [f1], key);
      }
      if |fields| == 3 {
        assert fields == [f0, f1] + [fields[2]];
        forall key: string ensures KeyCount(fields, key) == KeyCount([f0, f1], key) + KeyCount([fields[2]], key) {
          KeyCountConcat([f0, f1], [fields[2]], key);
        }
      } else {
        assert fields == [f0, f1];
      }
    }
  }

  /**
   * With a transaction, the list starts with the trace ID and the transaction
   * ID, in that order; an active span only appends its own ID, leaving the
   * first two fields as they are without it.
   */
  lemma TraceContextShape(ctx: Apm.Context, tx: Apm.Transaction)
    requires ctx.transaction == Some(tx)
    ensures TraceContext(ctx.(span := None)) ==
      [Field(TraceIdKey, TraceIdValue(tx.traceContext.trace)),
       Field(TransactionIdKey, SpanIdValue(tx.traceContext.span))]
    ensures TraceContext(ctx) ==
      TraceContext(ctx.(span := None)) +
      (match ctx.span
       case None => []
       case Some(span) => [Field(SpanIdKey, SpanIdValue(span.traceContext.span))])
  {
  }
}
