/**
  The lifecycle plugin (main.go): four hooks that restQL calls around each
  inbound request and each outbound call, threading New Relic handles through
  the request context. Each hook is a method whose effect on the agent is a
  stretch of calls given by a function of its inputs; the lemmas below state
  what those stretches promise: every transaction or segment a path obtains is
  ended exactly once, even when a later lookup fails; a failed lookup of the
  transaction, or of a segment of the wrong type, makes no call but one error
  log, and a missing segment makes no call at all; deferred ends run last-in
  first-out.
*/
module Plugin {
  import opened Wrappers
  import opened Http
  import opened Restql
  import opened Agent
  import opened RequestContext
  import External

  /** Library calls the hooks make whose internals are not modelled. */
  datatype Library = Library(
    marshal: External.Marshal,                    // json.Marshal
    accepts: External.NewRequestCheck,            // the checks of http.NewRequest
    encodeQuery: string -> string,                // u.Query().Encode(), from the raw query
    marshalErrors: seq<string> -> Option<string>) // json.Marshal(errs), from the errors' messages

  /** `txnName`: the verb, one space, and the path; nothing else of the URL. */
  function TxnName(verb: string, u: Url): (name: string)
    ensures |name| == |verb| + 1 + |u.path|
    ensures name[..|verb|] == verb && name[|verb|] == ' ' && name[|verb| + 1..] == u.path
  {
    verb + " " + u.path
  }

  /** The query string (and scheme and host) never reach the transaction name. */
  lemma TxnNameIgnoresQuery(verb: string, u1: Url, u2: Url)
    requires u1.path == u2.path
    ensures TxnName(verb, u1) == TxnName(verb, u2)
  {
  }

  /** `time.Duration.Milliseconds`: nanoseconds divided by a million, truncated toward zero. */
  function Milliseconds(d: int): (ms: int)
    ensures d >= 0 ==> 0 <= ms && ms * 1000000 <= d < (ms + 1) * 1000000
    ensures d < 0 ==> ms <= 0 && (ms - 1) * 1000000 < d <= ms * 1000000
  {
    if d >= 0 then d / 1000000 else -((-d) / 1000000)
  }

  /** The total length of `parts`. */
  function TotalLength(parts: seq<string>): nat {
    if parts == [] then 0 else |parts[0]| + TotalLength(parts[1..])
  }

  /** `fmt.Sprintf("%v", errs)` for a slice, inside the brackets: the elements separated by single spaces. */
  function Join(parts: seq<string>): (r: string)
    ensures parts != [] ==> |r| == TotalLength(parts) + |parts| - 1
    ensures parts != [] ==> r[..|parts[0]|] == parts[0]
  {
    if parts == [] then "" else if |parts| == 1 then parts[0] else parts[0] + " " + Join(parts[1..])
  }

  /** Joining two non-empty lists is joining each and putting one space between. */
  lemma {:induction false} JoinConcat(a: seq<string>, b: seq<string>)
    requires a != [] && b != []
    ensures Join(a + b) == Join(a) + " " + Join(b)
  {
    if |a| == 1 {
      assert (a + b)[1..] == b;
    } else {
      JoinConcat(a[1..], b);
      assert (a + b)[1..] == a[1..] + b;
    }
  }

  /** The `errors` attribute: the JSON encoding of the errors, or, when encoding fails, their listing in brackets. */
  function ErrorsText(lib: Library, errs: seq<string>): (text: string)
    ensures lib.marshalErrors(errs).Some? ==> text == lib.marshalErrors(errs).value
    ensures lib.marshalErrors(errs).None? ==>
      && |text| >= 2 && text[0] == '[' && text[|text| - 1] == ']'
      && text[1..|text| - 1] == Join(errs)
  {
    match lib.marshalErrors(errs)
    case Some(text) => text
    case None => "[" + Join(errs) + "]"
  }

  /** The attribute map `sendCustomEvent` builds. */
  function CustomEventAttributes(lib: Library, request: HttpRequest, response: HttpResponse, errs: seq<string>)
    : (event: map<string, EventValue>)
    ensures event.Keys == {"url", "status", "time", "method"} + (if |errs| > 0 then {"errors"} else {})
    ensures "errors" in event <==> |errs| > 0
    ensures event["url"] == Text(request.host) && event["method"] == Text(request.verb)
    ensures event["status"] == Number(response.statusCode)
    ensures event["time"] == Number(Milliseconds(response.duration))
    ensures |errs| > 0 ==> event["errors"] == Text(ErrorsText(lib, errs))
  {
    var event := map[
      "url" := Text(request.host),
      "status" := Number(response.statusCode),
      "time" := Number(Milliseconds(response.duration)),
      "method" := Text(request.verb)];
    if |errs| > 0 then event["errors" := Text(ErrorsText(lib, errs))] else event
  }

  // ---------------------------------------------------------------------------
  // What each hook does to the agent, as a function of its inputs. `base` is the
  // first fresh handle number the agent will hand out.

  function BeforeTransactionCalls(lib: Library, tr: TransactionRequest, base: nat): seq<Event> {
    [ TransactionStarted(base, TxnName(tr.verb, tr.url)),
      WebRequestSet(base, WebRequest(tr.header, tr.url, tr.verb)),
      TransactionAttributeAdded(base, "query", lib.encodeQuery(tr.url.rawQuery)),
      WebResponseSet(base, base + 1) ]
  }

  /** The context `BeforeTransaction` returns: the input with the transaction, then the writer, bound. */
  function BeforeTransactionContext(ctx: Context, base: nat): (r: Context)
    ensures r.Keys == ctx.Keys + {TransactionKey, ResponseWriterKey}
    ensures forall k :: k in ctx && k != TransactionKey && k != ResponseWriterKey ==> r[k] == ctx[k]
    ensures TransactionOf(r) == Found(Txn(base)) && WriterOf(r) == Found(Writer(base + 1))
  {
    var txnCtx := WithValue(ctx, TransactionKey, TransactionSlot(Txn(base)));
    WithValue(txnCtx, ResponseWriterKey, WriterSlot(Writer(base + 1)))
  }

  /**
    The calls that flush the response of transaction `txn` to writer `writer`
    inside a "Flush" segment numbered `base`, then end the transaction;
    `writeFailed` is whether `w.Write` returned an error.
  */
  function FlushCalls(txn: nat, writer: nat, tr: TransactionResponse, base: nat, writeFailed: bool): seq<Event> {
    [SegmentStarted(base, txn, "Flush"), HeaderWritten(writer, tr.status), BodyWritten(writer, tr.body)]
    + (if writeFailed then [ErrorLogged] else [])
    + [SegmentEnded(base), TransactionEnded(txn)]
  }

  function AfterTransactionCalls(ctx: Context, tr: TransactionResponse, base: nat, writeFailed: bool): seq<Event> {
    match TransactionOf(ctx)
    case Found(t) =>
      (match WriterOf(ctx)
       case Found(w) => FlushCalls(t.id, w.id, tr, base, writeFailed)
       case _ => [ErrorLogged, TransactionEnded(t.id)])
    case _ => [ErrorLogged]
  }

  /** Whether `BeforeRequest` starts a segment: a transaction is found and the request maps. */
  predicate BeforeRequestStarts(lib: Library, ctx: Context, request: HttpRequest, order: seq<string>)
    requires Enumerates(order, request.headers.Keys)
  {
    TransactionOf(ctx).Found? && External.ExternalRequestOf(lib.marshal, lib.accepts, request, order).Ok?
  }

  function BeforeRequestCalls(lib: Library, ctx: Context, request: HttpRequest, order: seq<string>, base: nat)
    : seq<Event>
    requires Enumerates(order, request.headers.Keys)
  {
    match TransactionOf(ctx)
    case Found(t) =>
      (match External.ExternalRequestOf(lib.marshal, lib.accepts, request, order)
       case Ok(req) => [GoroutineStarted(t.id, base), ExternalSegmentStarted(base + 1, base, req)]
       case Err(_) => [ErrorLogged])
    case _ => [ErrorLogged]
  }

  /** The context `BeforeRequest` returns when it starts segment `s` for request `req`. */
  function BeforeRequestContext(ctx: Context, s: ExternalSegment, req: Request): (r: Context)
    ensures r.Keys == ctx.Keys + {ExternalSegmentKey, ExternalRequestKey}
    ensures forall k :: k in ctx && k != ExternalSegmentKey && k != ExternalRequestKey ==> r[k] == ctx[k]
    ensures ExternalSegmentOf(r) == Found(s) && StoredRequestOf(r) == Found(req)
    ensures TransactionOf(r) == TransactionOf(ctx) && WriterOf(r) == WriterOf(ctx)
  {
    var segmentCtx := WithValue(ctx, ExternalSegmentKey, ExternalSegmentSlot(s));
    WithValue(segmentCtx, ExternalRequestKey, RequestSlot(req))
  }

  /** Whether `AfterRequest` reaches its success path. */
  predicate AfterRequestSucceeds(lib: Library, ctx: Context, response: HttpResponse, order: seq<string>)
    requires Enumerates(order, response.headers.Keys)
  {
    && ExternalSegmentOf(ctx).Found?
    && StoredRequestOf(ctx).Found?
    && External.ExternalResponseOf(lib.marshal, StoredRequestOf(ctx).value, response, order).Ok?
  }

  /** The calls of `AfterRequest`; a failing path ends the segment with whatever response it already had. */
  function AfterRequestCalls(lib: Library, ctx: Context, response: HttpResponse, errordetail: Option<string>,
                             order: seq<string>): seq<Event>
    requires Enumerates(order, response.headers.Keys)
    reads SegmentFrame(ctx)
  {
    match ExternalSegmentOf(ctx)
    case Missing => []
    case WrongType => [ErrorLogged]
    case Found(s) =>
      match StoredRequestOf(ctx)
      case Found(req) =>
        (match External.ExternalResponseOf(lib.marshal, req, response, order)
         case Ok(resp) => [ExternalAttributeAdded(s.id, "errordetail", errordetail), ExternalSegmentEnded(s.id, Some(resp))]
         case Err(_) => [ErrorLogged, ExternalSegmentEnded(s.id, s.response)])
      case _ => [ErrorLogged, ExternalSegmentEnded(s.id, s.response)]
  }

  // ---------------------------------------------------------------------------
  // Go's `defer`: actions pushed on a stack and run in reverse when the hook returns.

  datatype Deferred = EndTransactionLater(txn: Txn) | EndSegmentLater(segment: Segment)

  function DeferredCall(d: Deferred): Event {
    match d
    case EndTransactionLater(t) => TransactionEnded(t.id)
    case EndSegmentLater(s) => SegmentEnded(s.id)
  }

  /** The calls made by running the deferred stack: the last one pushed first. */
  function Unwind(stack: seq<Deferred>): seq<Event> {
    if stack == [] then [] else [DeferredCall(stack[|stack| - 1])] + Unwind(stack[..|stack| - 1])
  }

  /** Deferred actions run last-in first-out, each exactly once. */
  lemma {:induction false} UnwindIsLifo(stack: seq<Deferred>, i: nat)
    requires i < |stack|
    ensures |Unwind(stack)| == |stack|
    ensures Unwind(stack)[i] == DeferredCall(stack[|stack| - 1 - i])
  {
    if i > 0 {
      UnwindIsLifo(stack[..|stack| - 1], i - 1);
    } else if |stack| > 1 {
      UnwindIsLifo(stack[..|stack| - 1], 0);
    }
  }

  // ---------------------------------------------------------------------------
  // What the hooks promise, stated over their calls.

  /** `BeforeTransaction` opens exactly one transaction, named after verb and path, and records the query. */
  lemma BeforeTransactionOpensOne(lib: Library, tr: TransactionRequest, base: nat, h: Handle)
    ensures var calls := BeforeTransactionCalls(lib, tr, base);
      && OpenCount(calls, h) == (if h == TransactionHandle(base) then 1 else 0)
      && CloseCount(calls, h) == 0
      && ErrorCount(calls) == 0
      && calls[0] == TransactionStarted(base, TxnName(tr.verb, tr.url))
      && TransactionAttributeAdded(base, "query", lib.encodeQuery(tr.url.rawQuery)) in calls
  {
    var calls := BeforeTransactionCalls(lib, tr, base);
    assert calls == [calls[0]] + [calls[1]] + [calls[2]] + [calls[3]];
    CountsConcat([calls[0]] + [calls[1]] + [calls[2]], [calls[3]], h);
    CountsConcat([calls[0]] + [calls[1]], [calls[2]], h);
    CountsConcat([calls[0]], [calls[1]], h);
  }

  /** With no transaction of the right type, `AfterTransaction` logs one error and calls nothing else. */
  lemma AfterTransactionSoftFails(ctx: Context, tr: TransactionResponse, base: nat, writeFailed: bool)
    requires !TransactionOf(ctx).Found?
    ensures AfterTransactionCalls(ctx, tr, base, writeFailed) == [ErrorLogged]
  {
  }

  /**
    A transaction `AfterTransaction` finds is ended exactly once, by its last
    call, whether or not the writer is there; no transaction is started, and
    exactly one error is logged when the writer is missing or its write fails.
  */
  lemma AfterTransactionEndsOnce(ctx: Context, tr: TransactionResponse, base: nat, writeFailed: bool, h: Handle)
    requires TransactionOf(ctx).Found?
    ensures var calls := AfterTransactionCalls(ctx, tr, base, writeFailed);
      var t := TransactionOf(ctx).value;
      && calls[|calls| - 1] == TransactionEnded(t.id)
      && CloseCount(calls, TransactionHandle(t.id)) == 1
      && (h.TransactionHandle? ==> OpenCount(calls, h) == 0)
      && ErrorCount(calls) == (if WriterOf(ctx).Found? && !writeFailed then 0 else 1)
  {
    var t := TransactionOf(ctx).value;
    var th := TransactionHandle(t.id);
    if WriterOf(ctx).Found? {
      var w := WriterOf(ctx).value;
      FlushCounts(t.id, w.id, tr, base, writeFailed, th);
      FlushCounts(t.id, w.id, tr, base, writeFailed, h);
    } else {
      var calls := AfterTransactionCalls(ctx, tr, base, writeFailed);
      assert calls == [ErrorLogged] + [TransactionEnded(t.id)];
      CountsOne(ErrorLogged, th);
      CountsOne(TransactionEnded(t.id), th);
      CountsOne(ErrorLogged, h);
      CountsOne(TransactionEnded(t.id), h);
      CountsConcat([ErrorLogged], [TransactionEnded(t.id)], th);
      CountsConcat([ErrorLogged], [TransactionEnded(t.id)], h);
    }
  }

  /** The counts of the calls that flush a response and end the transaction. */
  lemma FlushCounts(txn: nat, writer: nat, tr: TransactionResponse, base: nat, writeFailed: bool, h: Handle)
    ensures var calls := FlushCalls(txn, writer, tr, base, writeFailed);
      && OpenCount(calls, h) == (if h == SegmentHandle(base) then 1 else 0)
      && CloseCount(calls, h) == (if h == SegmentHandle(base) || h == TransactionHandle(txn) then 1 else 0)
      && ErrorCount(calls) == (if writeFailed then 1 else 0)
      && calls[0] == SegmentStarted(base, txn, "Flush")
      && calls[1] == HeaderWritten(writer, tr.status)
      && calls[2] == BodyWritten(writer, tr.body)
      && calls[|calls| - 2] == SegmentEnded(base)
      && calls[|calls| - 1] == TransactionEnded(txn)
  {
    var head := [SegmentStarted(base, txn, "Flush"), HeaderWritten(writer, tr.status), BodyWritten(writer, tr.body)];
    var mid: seq<Event> := if writeFailed then [ErrorLogged] else [];
    var tail := [SegmentEnded(base), TransactionEnded(txn)];
    assert head == [head[0]] + [head[1]] + [head[2]];
    assert tail == [tail[0]] + [tail[1]];
    CountsOne(head[0], h); CountsOne(head[1], h); CountsOne(head[2], h);
    CountsOne(tail[0], h); CountsOne(tail[1], h); CountsOne(ErrorLogged, h);
    CountsConcat([head[0]], [head[1]], h);
    CountsConcat([head[0]] + [head[1]], [head[2]], h);
    CountsConcat([tail[0]], [tail[1]], h);
    CountsConcat(head, mid, h);
    CountsConcat(head + mid, tail, h);
  }

  /** With a writer, the "Flush" segment is opened and closed exactly once, and closed before the transaction. */
  lemma FlushEndsBeforeTransaction(ctx: Context, tr: TransactionResponse, base: nat, writeFailed: bool)
    requires TransactionOf(ctx).Found? && WriterOf(ctx).Found?
    ensures var calls := AfterTransactionCalls(ctx, tr, base, writeFailed);
      && OpenCount(calls, SegmentHandle(base)) == 1
      && CloseCount(calls, SegmentHandle(base)) == 1
      && ClosedBefore(calls, SegmentHandle(base), TransactionHandle(TransactionOf(ctx).value.id))
  {
    var calls := AfterTransactionCalls(ctx, tr, base, writeFailed);
    var t := TransactionOf(ctx).value;
    FlushCounts(t.id, WriterOf(ctx).value.id, tr, base, writeFailed, SegmentHandle(base));
    var n := |calls|;
    assert Closes(calls[n - 2]) == Some(SegmentHandle(base)) && Closes(calls[n - 1]) == Some(TransactionHandle(t.id));
  }

  /**
    A request that goes through `BeforeTransaction` and then `AfterTransaction`
    opens and closes its transaction exactly once, and its "Flush" segment
    exactly once, closing the segment first.
  */
  lemma TransactionLifecycle(lib: Library, ctx: Context, tr: TransactionRequest, resp: TransactionResponse,
                             base: nat, writeFailed: bool)
    ensures var calls := BeforeTransactionCalls(lib, tr, base)
                         + AfterTransactionCalls(BeforeTransactionContext(ctx, base), resp, base + 2, writeFailed);
      && OpenCount(calls, TransactionHandle(base)) == 1
      && CloseCount(calls, TransactionHandle(base)) == 1
      && OpenCount(calls, SegmentHandle(base + 2)) == 1
      && CloseCount(calls, SegmentHandle(base + 2)) == 1
      && ClosedBefore(calls, SegmentHandle(base + 2), TransactionHandle(base))
      && ErrorCount(calls) == (if writeFailed then 1 else 0)
  {
    var before := BeforeTransactionCalls(lib, tr, base);
    var ctx1 := BeforeTransactionContext(ctx, base);
    var after := AfterTransactionCalls(ctx1, resp, base + 2, writeFailed);
    var th, sh := TransactionHandle(base), SegmentHandle(base + 2);
    BeforeTransactionOpensOne(lib, tr, base, th);
    BeforeTransactionOpensOne(lib, tr, base, sh);
    AfterTransactionEndsOnce(ctx1, resp, base + 2, writeFailed, th);
    FlushEndsBeforeTransaction(ctx1, resp, base + 2, writeFailed);
    CountsConcat(before, after, th);
    CountsConcat(before, after, sh);
    var i, j :| 0 <= i < j < |after| && Closes(after[i]) == Some(sh) && Closes(after[j]) == Some(th);
    assert (before + after)[|before| + i] == after[i] && (before + after)[|before| + j] == after[j];
  }

  /** Without a transaction, or when the request cannot be mapped, `BeforeRequest` logs one error and calls nothing else. */
  lemma BeforeRequestSoftFails(lib: Library, ctx: Context, request: HttpRequest, order: seq<string>, base: nat)
    requires Enumerates(order, request.headers.Keys)
    requires !BeforeRequestStarts(lib, ctx, request, order)
    ensures BeforeRequestCalls(lib, ctx, request, order, base) == [ErrorLogged]
  {
  }

  /** Otherwise it opens exactly one external segment, for the mapped request, and closes nothing. */
  lemma BeforeRequestOpensOne(lib: Library, ctx: Context, request: HttpRequest, order: seq<string>, base: nat, h: Handle)
    requires Enumerates(order, request.headers.Keys)
    requires BeforeRequestStarts(lib, ctx, request, order)
    ensures var calls := BeforeRequestCalls(lib, ctx, request, order, base);
      && OpenCount(calls, h) == (if h == ExternalHandle(base + 1) then 1 else 0)
      && CloseCount(calls, h) == 0
      && ErrorCount(calls) == 0
      && calls[1] == ExternalSegmentStarted(base + 1, base,
                       External.ExternalRequestOf(lib.marshal, lib.accepts, request, order).value)
  {
    var calls := BeforeRequestCalls(lib, ctx, request, order, base);
    assert calls == [calls[0]] + [calls[1]];
    CountsConcat([calls[0]], [calls[1]], h);
  }

  /** Without a segment `AfterRequest` calls nothing; with one of the wrong type it only logs an error. */
  lemma AfterRequestSoftFails(lib: Library, ctx: Context, response: HttpResponse, errordetail: Option<string>,
                              order: seq<string>)
    requires Enumerates(order, response.headers.Keys)
    requires !ExternalSegmentOf(ctx).Found?
    ensures AfterRequestCalls(lib, ctx, response, errordetail, order)
            == if ExternalSegmentOf(ctx).Missing? then [] else [ErrorLogged]
  {
  }

  /**
    A segment `AfterRequest` finds is ended exactly once, by its last call, on
    every path; nothing is opened; `errordetail` is recorded, before the end,
    exactly on the success path, where the end carries the mapped response;
    every other path logs exactly one error.
  */
  lemma AfterRequestEndsOnce(lib: Library, ctx: Context, response: HttpResponse, errordetail: Option<string>,
                             order: seq<string>, h: Handle)
    requires Enumerates(order, response.headers.Keys)
    requires ExternalSegmentOf(ctx).Found?
    ensures var calls := AfterRequestCalls(lib, ctx, response, errordetail, order);
      var s := ExternalSegmentOf(ctx).value;
      && calls[|calls| - 1].ExternalSegmentEnded? && calls[|calls| - 1].segment == s.id
      && CloseCount(calls, ExternalHandle(s.id)) == 1
      && OpenCount(calls, h) == 0
      && ErrorCount(calls) == (if AfterRequestSucceeds(lib, ctx, response, order) then 0 else 1)
      && ((ExternalAttributeAdded(s.id, "errordetail", errordetail) in calls)
            <==> AfterRequestSucceeds(lib, ctx, response, order))
      && (AfterRequestSucceeds(lib, ctx, response, order) ==>
            calls == [ExternalAttributeAdded(s.id, "errordetail", errordetail),
                      ExternalSegmentEnded(s.id, Some(External.ExternalResponseOf(
                        lib.marshal, StoredRequestOf(ctx).value, response, order).value))])
  {
    var calls := AfterRequestCalls(lib, ctx, response, errordetail, order);
    assert |calls| == 2 && calls == [calls[0]] + [calls[1]];
    CountsConcat([calls[0]], [calls[1]], ExternalHandle(ExternalSegmentOf(ctx).value.id));
    CountsConcat([calls[0]], [calls[1]], h);
  }

  /**
    An outbound call made inside a transaction, through `BeforeRequest` and
    then `AfterRequest` on the context it returned, opens and closes its
    segment exactly once, whatever the call error; when the response maps,
    the error is recorded on the segment.
  */
  lemma ExternalCallLifecycle(lib: Library, ctx: Context, request: HttpRequest, response: HttpResponse,
                              errordetail: Option<string>, requestOrder: seq<string>, responseOrder: seq<string>,
                              base: nat, s: ExternalSegment)
    requires Enumerates(requestOrder, request.headers.Keys) && Enumerates(responseOrder, response.headers.Keys)
    requires BeforeRequestStarts(lib, ctx, request, requestOrder)
    requires s.id == base + 1
    ensures var req := External.ExternalRequestOf(lib.marshal, lib.accepts, request, requestOrder).value;
      var calls := BeforeRequestCalls(lib, ctx, request, requestOrder, base)
                   + AfterRequestCalls(lib, BeforeRequestContext(ctx, s, req), response, errordetail, responseOrder);
      && OpenCount(calls, ExternalHandle(base + 1)) == 1
      && CloseCount(calls, ExternalHandle(base + 1)) == 1
      && (External.ExternalResponseOf(lib.marshal, req, response, responseOrder).Ok? ==>
            ExternalAttributeAdded(base + 1, "errordetail", errordetail) in calls)
  {
    var req := External.ExternalRequestOf(lib.marshal, lib.accepts, request, requestOrder).value;
    var ctx1 := BeforeRequestContext(ctx, s, req);
    var before := BeforeRequestCalls(lib, ctx, request, requestOrder, base);
    var after := AfterRequestCalls(lib, ctx1, response, errordetail, responseOrder);
    var eh := ExternalHandle(base + 1);
    BeforeRequestOpensOne(lib, ctx, request, requestOrder, base, eh);
    AfterRequestEndsOnce(lib, ctx1, response, errordetail, responseOrder, eh);
    CountsConcat(before, after, eh);
  }

  /** The name of a `GET /orders?id=7` request is `GET /orders`. */
  lemma OrdersRequestName()
    ensures TxnName("GET", Url("https", "api.example", "/orders", "id=7")) == "GET /orders"
  {
  }

  /**
    A call to `https://inventory.svc/items/42` that fails with "timeout" and
    status 503 ends its segment recording `errordetail = "timeout"` and a
    response of status 503.
  */
  lemma TimeoutCallRecordsError(lib: Library, ctx: Context, request: HttpRequest, response: HttpResponse,
                                order: seq<string>)
    requires Enumerates(order, response.headers.Keys)
    requires ExternalSegmentOf(ctx).Found? && StoredRequestOf(ctx).Found?
    requires StoredRequestOf(ctx).value.url == "https://inventory.svc/items/42"
    requires lib.marshal(External.RequestBody(StoredRequestOf(ctx).value.body)).Some?
    requires response.statusCode == 503
    ensures var calls := AfterRequestCalls(lib, ctx, response, Some("timeout"), order);
      var id := ExternalSegmentOf(ctx).value.id;
      && calls[0] == ExternalAttributeAdded(id, "errordetail", Some("timeout"))
      && calls[1].ExternalSegmentEnded? && calls[1].segment == id
      && calls[1].response.Some? && calls[1].response.value.statusCode == 503
      && calls[1].response.value.request.url == "https://inventory.svc/items/42"
  {
  }

  /** The plugin, holding the agent (with the logger) and the library operations it calls. */
  class NewRelicPlugin {
    const backend: Backend
    const lib: Library

    constructor (backend: Backend, lib: Library)
      ensures this.backend == backend && this.lib == lib
    {
      this.backend := backend;
      this.lib := lib;
    }

    /** Runs the deferred stack as Go does when a function returns. */
    method RunDeferred(stack: seq<Deferred>)
      modifies backend
      ensures backend.nextId == old(backend.nextId)
      ensures backend.trace == old(backend.trace) + Unwind(stack)
    {
      var i := |stack|;
      assert stack[..i] == stack;
      while i > 0
        invariant 0 <= i <= |stack|
        invariant backend.nextId == old(backend.nextId)
        invariant old(backend.trace) + Unwind(stack) == backend.trace + Unwind(stack[..i])
      {
        assert stack[..i][..i - 1] == stack[..i - 1];
        i := i - 1;
        match stack[i] {
          case EndTransactionLater(t) => backend.EndTransaction(t);
          case EndSegmentLater(s) => backend.EndSegment(s);
        }
      }
    }

    /** `getTransactionFromContext`: logs one error when the transaction is missing or of the wrong type. */
    method GetTransactionFromContext(ctx: Context) returns (txn: Option<Txn>)
      modifies backend
      ensures txn == (if TransactionOf(ctx).Found? then Some(TransactionOf(ctx).value) else None)
      ensures backend.nextId == old(backend.nextId)
      ensures backend.trace == old(backend.trace) + (if txn.None? then [ErrorLogged] else [])
    {
      match TransactionOf(ctx) {
        case Found(t) =>
          txn := Some(t);
        case _ =>
          backend.LogError();
          txn := None;
      }
    }

    /** `BeforeTransaction`: always starts one transaction and binds it and the agent's writer. */
    method BeforeTransaction(ctx: Context, tr: TransactionRequest) returns (r: Context)
      modifies backend
      ensures r == BeforeTransactionContext(ctx, old(backend.nextId))
      ensures backend.nextId == old(backend.nextId) + 2
      ensures backend.trace == old(backend.trace) + BeforeTransactionCalls(lib, tr, old(backend.nextId))
    {
      var txn := backend.StartTransaction(TxnName(tr.verb, tr.url));
      backend.SetWebRequest(txn, WebRequest(tr.header, tr.url, tr.verb));
      backend.AddAttribute(txn, "query", lib.encodeQuery(tr.url.rawQuery));
      var w := backend.SetWebResponse(txn);
      var txnCtx := WithValue(ctx, TransactionKey, TransactionSlot(txn));
      var writerCtx := WithValue(txnCtx, ResponseWriterKey, WriterSlot(w));
      r := writerCtx;
    }

    /** `AfterTransaction`: ends the transaction it finds, through `defer`, on every path. */
    method AfterTransaction(ctx: Context, tr: TransactionResponse) returns (r: Context)
      modifies backend
      ensures r == ctx
      ensures backend.nextId == old(backend.nextId) + (if TransactionOf(ctx).Found? && WriterOf(ctx).Found? then 1 else 0)
      ensures exists writeFailed: bool ::
        backend.trace == old(backend.trace) + AfterTransactionCalls(ctx, tr, old(backend.nextId), writeFailed)
    {
      ghost var base := backend.nextId;
      var found := GetTransactionFromContext(ctx);
      if found.None? {
        assert backend.trace == old(backend.trace) + AfterTransactionCalls(ctx, tr, base, false);
        return ctx;
      }
      var txn := found.value;
      var deferred := [EndTransactionLater(txn)];
      match WriterOf(ctx) {
        case Found(w) =>
          var segment := backend.StartSegment(txn, "Flush");
          deferred := deferred + [EndSegmentLater(segment)];
          backend.WriteHeader(w, tr.status);
          var failed := backend.Write(w, tr.body);
          if failed {
            backend.LogError();
          }
          RunDeferred(deferred);
          assert backend.trace == old(backend.trace) + AfterTransactionCalls(ctx, tr, base, failed);
        case _ =>
          backend.LogError();
          RunDeferred(deferred);
          assert backend.trace == old(backend.trace) + AfterTransactionCalls(ctx, tr, base, false);
      }
      r := ctx;
    }

    /** `BeforeQuery`: passes the context through. */
    method BeforeQuery(ctx: Context, query: string) returns (r: Context)
      ensures r == ctx
    {
      r := ctx;
    }

    /** `AfterQuery`: passes the context through. */
    method AfterQuery(ctx: Context, query: string, result: map<string, Body>) returns (r: Context)
      ensures r == ctx
    {
      r := ctx;
    }

    /**
      `BeforeRequest`: with a transaction and a mappable request, starts one
      external segment on a goroutine handle and binds the segment and the
      mapped request; otherwise leaves the context as it was.
    */
    method BeforeRequest(ctx: Context, request: HttpRequest, order: seq<string>) returns (r: Context)
      requires Enumerates(order, request.headers.Keys)
      modifies backend
      ensures backend.trace == old(backend.trace) + BeforeRequestCalls(lib, ctx, request, order, old(backend.nextId))
      ensures !BeforeRequestStarts(lib, ctx, request, order) ==> r == ctx && backend.nextId == old(backend.nextId)
      ensures BeforeRequestStarts(lib, ctx, request, order) ==>
        && backend.nextId == old(backend.nextId) + 2
        && exists s: ExternalSegment ::
             && fresh(s) && s.id == old(backend.nextId) + 1 && s.response == None
             && r == BeforeRequestContext(ctx, s, External.ExternalRequestOf(lib.marshal, lib.accepts, request, order).value)
    {
      var found := GetTransactionFromContext(ctx);
      if found.None? {
        return ctx;
      }
      var externalRequest := External.MakeExternalRequest(lib.marshal, lib.accepts, request, order);
      if externalRequest.Err? {
        backend.LogError();
        return ctx;
      }
      var reqTxn := backend.NewGoroutine(found.value);
      var segment := backend.StartExternalSegment(reqTxn, externalRequest.value);
      var segmentCtx := WithValue(ctx, ExternalSegmentKey, ExternalSegmentSlot(segment));
      var extReqCtx := WithValue(segmentCtx, ExternalRequestKey, RequestSlot(externalRequest.value));
      r := extReqCtx;
      assert r == BeforeRequestContext(ctx, segment, externalRequest.value);
    }

    /**
      `AfterRequest`: ends the external segment it finds on every path; only
      the success path records `errordetail` and sets the segment's response,
      both before `End`. The context is returned as it was.
    */
    method AfterRequest(ctx: Context, request: HttpRequest, response: HttpResponse,
                        errordetail: Option<string>, order: seq<string>) returns (r: Context)
      requires Enumerates(order, response.headers.Keys)
      modifies backend, SegmentFrame(ctx)
      ensures r == ctx
      ensures backend.nextId == old(backend.nextId)
      ensures backend.trace == old(backend.trace) + old(AfterRequestCalls(lib, ctx, response, errordetail, order))
      ensures AfterRequestSucceeds(lib, ctx, response, order) ==>
        ExternalSegmentOf(ctx).value.response
          == Some(External.ExternalResponseOf(lib.marshal, StoredRequestOf(ctx).value, response, order).value)
      ensures !AfterRequestSucceeds(lib, ctx, response, order) ==>
        forall s :: s in SegmentFrame(ctx) ==> s.response == old(s.response)
    {
      r := ctx;
      match ExternalSegmentOf(ctx) {
        case Missing =>
          return;
        case WrongType =>
          // `segment.End()` on the nil segment the failed assertion yields does nothing.
          backend.LogError();
          return;
        case Found(segment) =>
          match StoredRequestOf(ctx) {
            case Found(extReq) =>
              var externalResponse := External.MakeExternalResponse(lib.marshal, extReq, response, order);
              if externalResponse.Err? {
                backend.LogError();
                backend.EndExternalSegment(segment);
                return;
              }
              backend.AddExternalAttribute(segment, "errordetail", errordetail);
              segment.response := Some(externalResponse.value);
              backend.EndExternalSegment(segment);
            case _ =>
              backend.LogError();
              backend.EndExternalSegment(segment);
          }
      }
    }

    /** `sendCustomEvent`: records one custom event with the attribute map above. */
    method SendCustomEvent(name: string, request: HttpRequest, response: HttpResponse, errs: seq<string>)
      modifies backend
      ensures backend.nextId == old(backend.nextId)
      ensures backend.trace == old(backend.trace) + [CustomEventRecorded(name, CustomEventAttributes(lib, request, response, errs))]
    {
      var event := map[
        "url" := Text(request.host),
        "status" := Number(response.statusCode),
        "time" := Number(Milliseconds(response.duration)),
        "method" := Text(request.verb)];
      if |errs| > 0 {
        var errsStr;
        match lib.marshalErrors(errs) {
          case None => errsStr := "[" + Join(errs) + "]";
          case Some(b) => errsStr := b;
        }
        event := event["errors" := Text(errsStr)];
      }
      backend.RecordCustomEvent(name, event);
    }
  }
}
