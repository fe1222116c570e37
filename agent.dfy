/**
  The collaborators the hooks drive: the New Relic agent (application,
  transactions, segments, the response writer it wraps) and the restQL
  logger. They are observed only through the calls made on them, recorded in
  order in one ghost trace; what the agent does with those calls is not modelled.
*/
module Agent {
  import opened Wrappers
  import opened Http

  /** `*newrelic.Transaction`. */
  datatype Txn = Txn(id: nat)

  /** `*newrelic.Segment`, the handle `txn.StartSegment` returns. */
  datatype Segment = Segment(id: nat)

  /** The `http.ResponseWriter` that `txn.SetWebResponse` returns. */
  datatype Writer = Writer(id: nat)

  /** `newrelic.WebRequest`. */
  datatype WebRequest = WebRequest(header: Header, url: Url, verb: string)

  /** A value of a custom-event attribute map. */
  datatype EventValue = Text(text: string) | Number(number: int)

  /** `*newrelic.ExternalSegment`: its `Response` field is set in place before `End` reads it. */
  class ExternalSegment {
    const id: nat
    var response: Option<Response>

    constructor (id: nat)
      ensures this.id == id && response == None
    {
      this.id := id;
      response := None;
    }
  }

  /** One call on the agent or the logger. */
  datatype Event =
    | TransactionStarted(txn: nat, name: string)
    | WebRequestSet(txn: nat, webRequest: WebRequest)
    | TransactionAttributeAdded(txn: nat, key: string, value: string)
    | WebResponseSet(txn: nat, writer: nat)
    | TransactionEnded(txn: nat)
    | SegmentStarted(segment: nat, txn: nat, name: string)
    | SegmentEnded(segment: nat)
    | GoroutineStarted(txn: nat, derived: nat)
    | ExternalSegmentStarted(segment: nat, txn: nat, request: Request)
    | ExternalAttributeAdded(segment: nat, key: string, error: Option<string>)
    | ExternalSegmentEnded(segment: nat, response: Option<Response>)
    | HeaderWritten(writer: nat, status: int)
    | BodyWritten(writer: nat, body: Bytes)
    | CustomEventRecorded(name: string, attributes: map<string, EventValue>)
    | ErrorLogged

  /** Something that is opened and must be closed: a transaction, a segment or an external segment. */
  datatype Handle = TransactionHandle(id: nat) | SegmentHandle(id: nat) | ExternalHandle(id: nat)

  function Opens(e: Event): Option<Handle> {
    match e
    case TransactionStarted(t, _) => Some(TransactionHandle(t))
    case SegmentStarted(s, _, _) => Some(SegmentHandle(s))
    case ExternalSegmentStarted(s, _, _) => Some(ExternalHandle(s))
    case _ => None
  }

  function Closes(e: Event): Option<Handle> {
    match e
    case TransactionEnded(t) => Some(TransactionHandle(t))
    case SegmentEnded(s) => Some(SegmentHandle(s))
    case ExternalSegmentEnded(s, _) => Some(ExternalHandle(s))
    case _ => None
  }

  /** How many calls in `calls` open `h`. */
  function OpenCount(calls: seq<Event>, h: Handle): nat {
    if calls == [] then 0 else (if Opens(calls[0]) == Some(h) then 1 else 0) + OpenCount(calls[1..], h)
  }

  /** How many calls in `calls` close `h`. */
  function CloseCount(calls: seq<Event>, h: Handle): nat {
    if calls == [] then 0 else (if Closes(calls[0]) == Some(h) then 1 else 0) + CloseCount(calls[1..], h)
  }

  /** How many errors are logged in `calls`. */
  function ErrorCount(calls: seq<Event>): nat {
    if calls == [] then 0 else (if calls[0] == ErrorLogged then 1 else 0) + ErrorCount(calls[1..])
  }

  /** The counts of a single call. */
  lemma CountsOne(e: Event, h: Handle)
    ensures OpenCount([e], h) == if Opens(e) == Some(h) then 1 else 0
    ensures CloseCount([e], h) == if Closes(e) == Some(h) then 1 else 0
    ensures ErrorCount([e]) == if e == ErrorLogged then 1 else 0
  {
    assert [e][1..] == [];
  }

  /** Counting distributes over consecutive stretches of calls. */
  lemma {:induction false} CountsConcat(a: seq<Event>, b: seq<Event>, h: Handle)
    ensures OpenCount(a + b, h) == OpenCount(a, h) + OpenCount(b, h)
    ensures CloseCount(a + b, h) == CloseCount(a, h) + CloseCount(b, h)
    ensures ErrorCount(a + b) == ErrorCount(a) + ErrorCount(b)
  {
    if a != [] {
      CountsConcat(a[1..], b, h);
      assert (a + b)[1..] == a[1..] + b;
    } else {
      assert a + b == b;
    }
  }

  /** `first` is closed by some call before a call that closes `second`. */
  ghost predicate ClosedBefore(calls: seq<Event>, first: Handle, second: Handle) {
    exists i, j :: 0 <= i < j < |calls| && Closes(calls[i]) == Some(first) && Closes(calls[j]) == Some(second)
  }

  /** The agent and the logger, with the calls made on them so far. Handles get fresh numbers from `nextId`. */
  class Backend {
    ghost var trace: seq<Event>
    var nextId: nat

    constructor ()
      ensures trace == [] && nextId == 0
    {
      trace := [];
      nextId := 0;
    }

    /** `application.StartTransaction(name)`. */
    method StartTransaction(name: string) returns (t: Txn)
      modifies this
      ensures t == Txn(old(nextId)) && nextId == old(nextId) + 1
      ensures trace == old(trace) + [TransactionStarted(t.id, name)]
    {
      t := Txn(nextId);
      nextId := nextId + 1;
      trace := trace + [TransactionStarted(t.id, name)];
    }

    /** `txn.SetWebRequest(request)`. */
    method SetWebRequest(t: Txn, request: WebRequest)
      modifies this
      ensures nextId == old(nextId) && trace == old(trace) + [WebRequestSet(t.id, request)]
    {
      trace := trace + [WebRequestSet(t.id, request)];
    }

    /** `txn.AddAttribute(key, value)`. */
    method AddAttribute(t: Txn, key: string, value: string)
      modifies this
      ensures nextId == old(nextId) && trace == old(trace) + [TransactionAttributeAdded(t.id, key, value)]
    {
      trace := trace + [TransactionAttributeAdded(t.id, key, value)];
    }

    /** `txn.SetWebResponse(noOpResponseWriter{})`: the writer the agent wraps around the discarding one. */
    method SetWebResponse(t: Txn) returns (w: Writer)
      modifies this
      ensures w == Writer(old(nextId)) && nextId == old(nextId) + 1
      ensures trace == old(trace) + [WebResponseSet(t.id, w.id)]
    {
      w := Writer(nextId);
      nextId := nextId + 1;
      trace := trace + [WebResponseSet(t.id, w.id)];
    }

    /** `txn.End()`. */
    method EndTransaction(t: Txn)
      modifies this
      ensures nextId == old(nextId) && trace == old(trace) + [TransactionEnded(t.id)]
    {
      trace := trace + [TransactionEnded(t.id)];
    }

    /** `txn.StartSegment(name)`. */
    method StartSegment(t: Txn, name: string) returns (s: Segment)
      modifies this
      ensures s == Segment(old(nextId)) && nextId == old(nextId) + 1
      ensures trace == old(trace) + [SegmentStarted(s.id, t.id, name)]
    {
      s := Segment(nextId);
      nextId := nextId + 1;
      trace := trace + [SegmentStarted(s.id, t.id, name)];
    }

    /** `segment.End()`. */
    method EndSegment(s: Segment)
      modifies this
      ensures nextId == old(nextId) && trace == old(trace) + [SegmentEnded(s.id)]
    {
      trace := trace + [SegmentEnded(s.id)];
    }

    /** `txn.NewGoroutine()`: a handle on the same transaction for another goroutine. */
    method NewGoroutine(t: Txn) returns (d: Txn)
      modifies this
      ensures d == Txn(old(nextId)) && nextId == old(nextId) + 1
      ensures trace == old(trace) + [GoroutineStarted(t.id, d.id)]
    {
      d := Txn(nextId);
      nextId := nextId + 1;
      trace := trace + [GoroutineStarted(t.id, d.id)];
    }

    /** `newrelic.StartExternalSegment(txn, request)`. */
    method StartExternalSegment(t: Txn, request: Request) returns (s: ExternalSegment)
      modifies this
      ensures fresh(s) && s.id == old(nextId) && s.response == None && nextId == old(nextId) + 1
      ensures trace == old(trace) + [ExternalSegmentStarted(s.id, t.id, request)]
    {
      s := new ExternalSegment(nextId);
      nextId := nextId + 1;
      trace := trace + [ExternalSegmentStarted(s.id, t.id, request)];
    }

    /** `segment.AddAttribute(key, err)` on an external segment; `None` is a nil error. */
    method AddExternalAttribute(s: ExternalSegment, key: string, error: Option<string>)
      modifies this
      ensures nextId == old(nextId) && trace == old(trace) + [ExternalAttributeAdded(s.id, key, error)]
    {
      trace := trace + [ExternalAttributeAdded(s.id, key, error)];
    }

    /** `segment.End()` on an external segment: the agent reads the segment's `Response` field here. */
    method EndExternalSegment(s: ExternalSegment)
      modifies this
      ensures nextId == old(nextId) && trace == old(trace) + [ExternalSegmentEnded(s.id, s.response)]
    {
      trace := trace + [ExternalSegmentEnded(s.id, s.response)];
    }

    /** `w.WriteHeader(status)`. */
    method WriteHeader(w: Writer, status: int)
      modifies this
      ensures nextId == old(nextId) && trace == old(trace) + [HeaderWritten(w.id, status)]
    {
      trace := trace + [HeaderWritten(w.id, status)];
    }

    /** `w.Write(body)`; `failed` is whether it returned an error, which the model leaves open. */
    method Write(w: Writer, body: Bytes) returns (failed: bool)
      modifies this
      ensures nextId == old(nextId) && trace == old(trace) + [BodyWritten(w.id, body)]
    {
      trace := trace + [BodyWritten(w.id, body)];
      failed := false;
    }

    /** `application.RecordCustomEvent(name, attributes)`. */
    method RecordCustomEvent(name: string, attributes: map<string, EventValue>)
      modifies this
      ensures nextId == old(nextId) && trace == old(trace) + [CustomEventRecorded(name, attributes)]
    {
      trace := trace + [CustomEventRecorded(name, attributes)];
    }

    /** `log.Error(message, err)`; the message is not recorded. */
    method LogError()
      modifies this
      ensures nextId == old(nextId) && trace == old(trace) + [ErrorLogged]
    {
      trace := trace + [ErrorLogged];
    }
  }
}
