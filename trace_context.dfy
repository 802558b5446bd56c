/** The trace-ID store and lookup over a request context (internal/database/context.go). */
module TraceContext {
  import opened GoContext

  /** constant.TraceIdKey, a key of type constant.CtxKey. */
  const TraceIdKey: Key := Key("constant.CtxKey", "traceID")

  /** WithTraceID: a child context that binds the trace ID under TraceIdKey. */
  function WithTraceID(ctx: Context, traceID: string): (r: Context)
    ensures Value(r, TraceIdKey) == Str(traceID)
    ensures forall k :: k != TraceIdKey ==> Value(r, k) == Value(ctx, k)
  {
    WithValue(ctx, TraceIdKey, Str(traceID))
  }

  /** ExtractTraceID: the string stored under TraceIdKey, or "". */
  function ExtractTraceID(ctx: Context): (id: string)
    ensures Value(ctx, TraceIdKey).Str? ==> id == Value(ctx, TraceIdKey).s
    ensures !Value(ctx, TraceIdKey).Str? ==> id == ""
  {
    var v := Value(ctx, TraceIdKey);
    if v != Nil then
      if v.Str? then v.s else ""
    else ""
  }

  /** What is stored is what is extracted. */
  lemma ExtractAfterWith(ctx: Context, traceID: string)
    ensures ExtractTraceID(WithTraceID(ctx, traceID)) == traceID
  {
  }

  /** The most recent WithTraceID wins over any earlier one. */
  lemma LatestWins(ctx: Context, first: string, second: string)
    ensures ExtractTraceID(WithTraceID(WithTraceID(ctx, first), second)) == second
  {
  }

  /** Binding a value under any other key leaves the trace ID as it was. */
  lemma OtherKeysInvisible(ctx: Context, k: Key, v: Any)
    requires k != TraceIdKey
    ensures ExtractTraceID(WithValue(ctx, k, v)) == ExtractTraceID(ctx)
  {
  }

  /** A context that never saw TraceIdKey yields the empty trace ID. */
  lemma {:induction false} AbsentKeyGivesEmpty(ctx: Context)
    requires NeverBound(ctx, TraceIdKey)
    ensures ExtractTraceID(ctx) == ""
  {
    NeverBoundIsNil(ctx, TraceIdKey);
  }

  predicate NeverBound(ctx: Context, key: Key)
  {
    match ctx
    case Background => true
    case WithValue(parent, k, _) => k != key && NeverBound(parent, key)
  }

  lemma {:induction false} NeverBoundIsNil(ctx: Context, key: Key)
    requires NeverBound(ctx, key)
    ensures Value(ctx, key) == Nil
  {
    match ctx
    case Background =>
    case WithValue(parent, _, _) => NeverBoundIsNil(parent, key);
  }

  /** A non-string value under TraceIdKey yields the empty trace ID. */
  lemma NonStringGivesEmpty(ctx: Context, typeName: string)
    ensures ExtractTraceID(WithValue(ctx, TraceIdKey, NonString(typeName))) == ""
  {
  }
}
