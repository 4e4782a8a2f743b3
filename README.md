# apm-go-logger, modelled in Dafny

This project models the core of `apmgologger`, a hook that connects the
`go-logger` structured logger to the Elastic APM tracer. It has two parts:

- **Trace-context propagation** (`fields.go`, module `TraceFields`).
  `TraceContext` turns the transaction and span held by a context into at most
  three correlation fields, under the reserved keys `trace.id`,
  `transaction.id` and `span.id`.
- **The log hook** (`hook.go`, module `ErrorHook`).
  - `Levels` gives the severities the logger calls the hook for.
  - `GetFieldValue` and `GetError` are the first-match scans over a record's
    fields and arguments.
  - `Fire` turns a log entry into an error report and sends it to the tracer.
    On a FATAL record it also flushes the tracer before the logger exits the
    process.

Supporting modules:
- `Logger` holds the logger's types. `Level` is a severity. `Value` is a
  tagged union standing for `interface{}`: a trace ID, a span ID, an error, a
  string, an integer, or nil. `Field` and `Entry` are the field and the log
  record.
- `Apm` holds the tracer's side: 16-byte trace IDs and 8-byte span IDs,
  contexts, the `ErrorLog` record the hook fills in, and a `Tracer` class. The
  class keeps a `recording` flag, the sequence of reports sent to it, and the
  sequence of flushes requested. Each flush records its timeout and how many
  reports were queued when it was asked for, so the order of send and flush
  is part of the tracer's state.
- `Correlation` proves the round trip. Fields made by `TraceContext` and read
  back by the hook's lookups give the report the transaction's and the span's
  identifiers.
- `HookScenarios` replays the situations of the repository's tests through
  the contracts of `Fire`.

`Fire` is imperative, like the source. It updates the report record field by
field and appends to the tracer's state. Its postcondition ties the record it
sends to the relational specification `IsReportOf`, and the flush it requests
to `EffectiveFlushTimeout`. The two scans are loops proved equal to the
recursive first-match functions `FieldValue` and `FirstError`. The contracts
of those functions characterise the first match by quantifiers.

Three modelling choices follow the code exactly:
- The record's fields are an ordered list searched by first match, not a map
  with unique keys. A later duplicate key is never seen.
- `Levels` returns an ordered slice, not a set.
- A nil `LogLevels` (`None`) selects the default levels. A non-nil empty
  slice (`Some([])`) selects no level.

## Model

| member | source | states |
|---|---|---|
| `ErrorHook.Levels` | hook.go:59-66 | the configured levels when `LogLevels` is non-nil, otherwise exactly `[PANIC, FATAL, ERROR]` (hook.go:13-17) |
| `ErrorHook.DefaultLevelsAreErrorAndAbove` | hook.go:12-17 | unconfigured, a level is reported if and only if it is at least as severe as ERROR |
| `ErrorHook.SelectTracer` | hook.go:50-57 | the hook's own tracer when it has one, the default tracer otherwise |
| `ErrorHook.FieldValue` | hook.go:68-76 | the value of the first field whose key equals the query, nil when no field has that key; later duplicates are ignored |
| `ErrorHook.GetFieldValue` | hook.go:68-76 | the early-returning scan computes exactly `FieldValue` |
| `ErrorHook.FirstError` | hook.go:78-86 | the first argument that is an error, none when no argument is; later errors are never chosen |
| `ErrorHook.GetError` | hook.go:78-86 | the early-returning scan computes exactly `FirstError` |
| `ErrorHook.IsReportOf` | hook.go:95-124 | the report rules: message, level label and timestamp copied from the entry, the first error argument as cause, handled, one frame skipped with a cause and two without, the trace ID from a trace-ID-typed `trace.id`, the transaction ID from a span-ID-typed `transaction.id`, the parent from a span-ID-typed `span.id` or else the transaction ID; its contract states that a report is handled, skips one frame exactly when it has a cause, and without a `span.id` field has the transaction ID as parent |
| `ErrorHook.ReportExistsAndIsUnique` | hook.go:95-124 | every entry has a report satisfying the rules, and the rules fix every field of it, so there is exactly one |
| `ErrorHook.EffectiveFlushTimeout` | hook.go:131-136 | no flush if and only if the configured timeout is negative; 0 becomes the 5 s default (hook.go:21); a positive timeout is used as is; a flush deadline is always positive |
| `ErrorHook.Fire` | hook.go:89-145 | a non-recording tracer is left as it was; otherwise exactly one report satisfying `IsReportOf` is appended (message, level label, first error, handled, timestamp, skip 1 with a cause and 2 without, IDs from the reserved fields with the span overriding the parent); a flush happens only on FATAL, with the effective timeout, after the send, covering the report just queued; the result is always nil |
| `Apm.Tracer.Send` | hook.go:126 | the report is appended to the tracer's sent events and nothing else changes |
| `Apm.Tracer.Flush` | hook.go:136-141 | a flush with the given timeout is recorded together with the number of reports queued so far, which it covers; nothing else changes |
| `TraceFields.TraceContext` | fields.go:21-42 | the list is empty if and only if there is no transaction; it has 2 fields without a span and 3 with one; every key is a reserved key |
| `TraceFields.TraceContextShape` | fields.go:29-39 | with a transaction, the list is exactly `[("trace.id", trace), ("transaction.id", tx span)]`, and a span only appends `("span.id", span ID)` |
| `TraceFields.TraceContextWellFormed` | fields.go:23-41 | each reserved key appears at most once, and `span.id` appears only together with `trace.id` and `transaction.id` |
| `Correlation.FieldValueConcat` | hook.go:68-76 | a lookup in `a + b` finds the match in `a` if there is one, and otherwise searches `b` |
| `Correlation.TraceContextLookup` | fields.go:29-39 | looking up the reserved keys in `TraceContext` gives the trace ID, the transaction ID and the span ID if a span is active (nil without one) |
| `Correlation.TraceContextRoundTrip` | hook.go:113-124 | for fields from `TraceContext` placed among fields without reserved keys, the report has the transaction's trace ID and ID, and as parent the span's ID if a span is active and the transaction's ID otherwise; with no transaction, all three IDs are zero |
| `Correlation.NoCorrelationFieldsZeroIds` | hook.go:113-124 | without reserved fields, the trace, transaction and parent IDs all stay zero |
| `Correlation.WrongTypedFirstMatchHides` | hook.go:113-115 | a first `trace.id` field that does not hold a trace ID leaves the trace ID zero, whatever later fields hold |
| `HookScenarios.ErrorWithoutTraceContext` | hook_test.go:36-70 | an ERROR record without trace context is reported once, with its message, level "ERROR", handled, two frames skipped and zero IDs, and no flush |
| `HookScenarios.ErrorWithCause` | hook_test.go:116-142 | a record with an error argument is reported with that error as cause and one frame skipped |
| `HookScenarios.ErrorInTransactionAndSpan` | hook_test.go:86-114 | a record carrying `TraceContext` fields of a transaction and span is reported with the trace ID, the transaction ID, and the span's ID as parent |
| `HookScenarios.TracerClosed` | hook_test.go:192-202 | with the hook's own tracer not recording, `Fire` returns nil and that tracer gets nothing sent or flushed |
| `HookScenarios.Fatal` | hook.go:128-142 | a FATAL record sent to the hook's own tracer is reported once, then flushed, with the one queued report covered, using 5 s for timeout 0, the configured value if it is positive, and not at all if it is negative |

## Left out

- The tracer's internals are not modelled: `NewErrorLog`, `Send`, `Recording`, `Flush` and `apm.DefaultTracer` are library calls. The tracer is an object with a `recording` flag and two logs, and the default tracer is a parameter of `Fire`. `Apm.NewErrorLog` fills in message, level and error and leaves every other field zero.
- Stack capture is reduced to the number of frames skipped. Frame resolution, culprit computation, the exception's own stack trace and `stacktrace.RegisterLibraryPackage` in `init` (hook.go:24-26) are runtime introspection owned by the library.
- The blocking wait of the flush is left out: `context.WithTimeout`, `cancel` and `tracer.Flush(ctx.Done())` at hook.go:137-140 are timing and concurrency. The model records only the timeout the flush is given.
- The logger's own behaviour is not modelled: encoders, output formatting, level filtering, and exiting the process after FATAL. Its level set is taken as DEBUG, INFO, WARNING, ERROR, FATAL and PANIC, with upper-case labels.
- The `log_fields_*` custom context that the tracer builds from the record's fields (hook_test.go:74-83) is not produced by the code modelled here.
- The subprocess and HTTP server of `TestHookFatal` (hook_test.go:145-190) are left out; `HookScenarios.Fatal` covers only the flush decision of that path.
- Concurrent calls to `Fire` are not modelled. Each call is one sequential update of the tracer object.
