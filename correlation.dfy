/**
 * How the two components fit together: the fields TraceFields.TraceContext
 * produces, once attached to a log record, give the hook's report the
 * identifiers of the transaction and span they came from.
 */
module Correlation {
  import opened Wrappers
  import opened Apm
  import opened Logger
  import TraceFields
  import opened ErrorHook

  /** No field uses one of the reserved correlation keys. */
  predicate NoReservedKeys(fields: seq<Field>)
  {
    forall i :: 0 <= i < |fields| ==> !TraceFields.IsReservedKey(fields[i].key)
  }

  /** A lookup in `a + b` finds the match in `a` if there is one, and otherwise searches `b`. */
  lemma {:induction false} FieldValueConcat(a: seq<Field>, b: seq<Field>, key: string)
    ensures FieldValue(a + b, key) == if HasKey(a, key) then FieldValue(a, key) else FieldValue(b, key)
  {
    if a == [] {
      assert a + b == b;
    } else if a[0].key == key {
      assert (a + b)[0] == a[0];
    } else {
      assert (a + b)[1..] == a[1..] + b;
      FieldValueConcat(a[1..], b, key);
      if HasKey(a, key) {
        var i :| 0 <= i < |a| && a[i].key == key;
        assert a[1..][i - 1].key == key;
      }
      if HasKey(a[1..], key) {
        var i :| 0 <= i < |a[1..]| && a[1..][i].key == key;
        assert a[i + 1].key == key;
      }
    }
  }

  /**
   * The lookups the hook makes in the fields of a trace context: the trace ID
   * and the transaction's span ID, and the span's ID when a span is active.
   */
  lemma TraceContextLookup(ctx: Context, tx: Transaction)
    requires ctx.transaction == Some(tx)
    ensures FieldValue(TraceFields.TraceContext(ctx), TraceFields.TraceIdKey) == TraceIdValue(tx.traceContext.trace)
    ensures FieldValue(TraceFields.TraceContext(ctx), TraceFields.TransactionIdKey) == SpanIdValue(tx.traceContext.span)
    ensures FieldValue(TraceFields.TraceContext(ctx), TraceFields.SpanIdKey) ==
      match ctx.span
      case Some(span) => SpanIdValue(span.traceContext.span)
      case None => Nil
  {
    var fields := TraceFields.TraceContext(ctx);
    assert IsFirstMatch(fields, TraceFields.TraceIdKey, 0);
    assert IsFirstMatch(fields, TraceFields.TransactionIdKey, 1);
    if ctx.span.Some? {
      assert IsFirstMatch(fields, TraceFields.SpanIdKey, 2);
    }
  }

  /**
   * A reserved key looked up in `pre + fields + post`, where `pre` and `post`
   * carry no reserved keys, finds what it finds in `fields` alone.
   */
  lemma LookupBetweenOthers(pre: seq<Field>, fields: seq<Field>, post: seq<Field>, key: string)
    requires NoReservedKeys(pre) && NoReservedKeys(post)
    requires TraceFields.IsReservedKey(key)
    ensures FieldValue(pre + fields + post, key) == FieldValue(fields, key)
  {
    assert pre + fields + post == pre + (fields + post);
    FieldValueConcat(pre, fields + post, key);
    FieldValueConcat(fields, post, key);
  }

  /**
   * The round trip: fields made by TraceContext and attached to a record give
   * its report the transaction's trace ID and ID, and as parent the span's ID
   * if a span is active and the transaction's otherwise; without a
   * transaction every identifier stays zero.
   */
  lemma TraceContextRoundTrip(ctx: Context, pre: seq<Field>, post: seq<Field>, entry: Entry, e: ErrorLog)
    requires NoReservedKeys(pre) && NoReservedKeys(post)
    requires entry.fields == pre + TraceFields.TraceContext(ctx) + post
    requires IsReportOf(e, entry)
    ensures ctx.transaction.Some? ==>
      && e.traceId == ctx.transaction.value.traceContext.trace
      && e.transactionId == ctx.transaction.value.traceContext.span
      && e.parentId == match ctx.span
                       case Some(span) => span.traceContext.span
                       case None => ctx.transaction.value.traceContext.span
    ensures ctx.transaction.None? ==>
      e.traceId == ZeroTraceId && e.transactionId == ZeroSpanId && e.parentId == ZeroSpanId
  {
    var fields := TraceFields.TraceContext(ctx);
    LookupBetweenOthers(pre, fields, post, TraceFields.TraceIdKey);
    LookupBetweenOthers(pre, fields, post, TraceFields.TransactionIdKey);
    LookupBetweenOthers(pre, fields, post, TraceFields.SpanIdKey);
    if ctx.transaction.Some? {
      TraceContextLookup(ctx, ctx.transaction.value);
    }
  }

  /** A record without correlation fields is reported with all three identifiers zero. */
  lemma NoCorrelationFieldsZeroIds(entry: Entry, e: ErrorLog)
    requires NoReservedKeys(entry.fields)
    requires IsReportOf(e, entry)
    ensures e.traceId == ZeroTraceId && e.transactionId == ZeroSpanId && e.parentId == ZeroSpanId
  {
    assert !HasKey(entry.fields, TraceFields.TraceIdKey);
    assert !HasKey(entry.fields, TraceFields.TransactionIdKey);
    assert !HasKey(entry.fields, TraceFields.SpanIdKey);
  }

  /**
   * Only the first "trace.id" field is consulted: if it does not hold a trace
   * ID, the report's trace ID stays zero whatever later fields hold.
   */
  lemma WrongTypedFirstMatchHides(entry: Entry, e: ErrorLog, i: nat)
    requires IsFirstMatch(entry.fields, TraceFields.TraceIdKey, i)
    requires !entry.fields[i].value.TraceIdValue?
    requires IsReportOf(e, entry)
    ensures e.traceId == ZeroTraceId
  {
  }
}
