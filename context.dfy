/**
  The per-request `context.Context` as the hooks use it: a value that maps
  keys to values of some dynamic type. `context.WithValue` extends it into a
  new value and leaves the old one as it was; `ctx.Value(key).(T)` either
  finds the key bound to a `T`, finds nothing, or finds some other type.
*/
module RequestContext {
  import opened Http
  import opened Agent

  const ResponseWriterKey: string := "__newRelicResponseWriter__"
  const TransactionKey: string := "__newRelicTransaction__"
  const ExternalSegmentKey: string := "__newRelicExternalSegment__"
  const ExternalRequestKey: string := "__newRelicExternalRequest__"

  /** A context value, tagged with its dynamic type. */
  datatype Slot =
    | TransactionSlot(txn: Txn)
    | WriterSlot(writer: Writer)
    | ExternalSegmentSlot(segment: ExternalSegment)
    | RequestSlot(request: Request)
    | ForeignSlot(kind: string)   // a value of any other type, put there by someone else

  type Context = map<string, Slot>

  /** The outcome of `ctx.Value(key).(T)`. */
  datatype Lookup<T> = Missing | WrongType | Found(value: T)

  /** `context.WithValue(ctx, key, value)`. */
  function WithValue(ctx: Context, key: string, value: Slot): (r: Context)
    ensures r.Keys == ctx.Keys + {key} && r[key] == value
    ensures forall k :: k in ctx && k != key ==> r[k] == ctx[k]
  {
    ctx[key := value]
  }

  /** `ctx.Value(newRelicTransaction).(*newrelic.Transaction)`. */
  function TransactionOf(ctx: Context): (r: Lookup<Txn>)
    ensures r.Missing? <==> TransactionKey !in ctx
    ensures r.Found? <==> TransactionKey in ctx && ctx[TransactionKey].TransactionSlot?
    ensures r.Found? ==> ctx[TransactionKey] == TransactionSlot(r.value)
  {
    if TransactionKey !in ctx then Missing
    else match ctx[TransactionKey]
      case TransactionSlot(t) => Found(t)
      case _ => WrongType
  }

  /** `ctx.Value(newRelicResponseWriter).(http.ResponseWriter)`. */
  function WriterOf(ctx: Context): (r: Lookup<Writer>)
    ensures r.Missing? <==> ResponseWriterKey !in ctx
    ensures r.Found? <==> ResponseWriterKey in ctx && ctx[ResponseWriterKey].WriterSlot?
    ensures r.Found? ==> ctx[ResponseWriterKey] == WriterSlot(r.value)
  {
    if ResponseWriterKey !in ctx then Missing
    else match ctx[ResponseWriterKey]
      case WriterSlot(w) => Found(w)
      case _ => WrongType
  }

  /** `ctx.Value(newRelicExternalSegment).(*newrelic.ExternalSegment)`. */
  function ExternalSegmentOf(ctx: Context): (r: Lookup<ExternalSegment>)
    ensures r.Missing? <==> ExternalSegmentKey !in ctx
    ensures r.Found? <==> ExternalSegmentKey in ctx && ctx[ExternalSegmentKey].ExternalSegmentSlot?
    ensures r.Found? ==> ctx[ExternalSegmentKey] == ExternalSegmentSlot(r.value)
  {
    if ExternalSegmentKey !in ctx then Missing
    else match ctx[ExternalSegmentKey]
      case ExternalSegmentSlot(s) => Found(s)
      case _ => WrongType
  }

  /** `ctx.Value(newRelicExternalRequest).(*http.Request)`. */
  function StoredRequestOf(ctx: Context): (r: Lookup<Request>)
    ensures r.Missing? <==> ExternalRequestKey !in ctx
    ensures r.Found? <==> ExternalRequestKey in ctx && ctx[ExternalRequestKey].RequestSlot?
    ensures r.Found? ==> ctx[ExternalRequestKey] == RequestSlot(r.value)
  {
    if ExternalRequestKey !in ctx then Missing
    else match ctx[ExternalRequestKey]
      case RequestSlot(r) => Found(r)
      case _ => WrongType
  }

  /** The external segment object a context holds, if any: all that `AfterRequest` may change in place. */
  function SegmentFrame(ctx: Context): set<ExternalSegment> {
    match ExternalSegmentOf(ctx)
    case Found(s) => {s}
    case _ => {}
  }
}
