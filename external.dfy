/**
  The external-call mappers (external.go): they turn restQL's outbound
  request and response records into the `net/http` values that the New Relic
  agent's external segments take. `json.Marshal` and the checks
  `http.NewRequest` performs on the method and URL are parameters: both may fail.
*/
module External {
  import opened Wrappers
  import opened Http
  import opened Restql

  /** What the mappers hand to `json.Marshal`. */
  datatype Encodable =
    | PipelineBody(body: Body)    // `request.Body` of a restQL request
    | RequestBody(reader: Reader) // `request.Body` of an `*http.Request`

  /** `json.Marshal`: the encoding, or `None` for its error. */
  type Marshal = Encodable -> Option<Bytes>

  /** Whether `http.NewRequest(method, url, body)` succeeds: it rejects a bad method or an unparsable URL. */
  type NewRequestCheck = (string, string) -> bool

  datatype MappingError = MarshalFailed | NewRequestFailed

  /** `fmt.Sprintf("%s://%s%s", Schema, Host, Path)`: plain concatenation, no normalisation. */
  function TargetUrl(request: HttpRequest): string {
    request.schema + "://" + request.host + request.path
  }

  /** The method `http.NewRequest` checks and stores: an empty one means `GET`. */
  function RequestVerb(verb: string): (v: string)
    ensures v != ""
    ensures verb != "" ==> v == verb
    ensures verb == "" ==> v == "GET"
  {
    if verb == "" then "GET" else verb
  }

  /** The request `makeExternalRequest` returns. */
  function ExternalRequestOf(marshal: Marshal, accepts: NewRequestCheck, request: HttpRequest, order: seq<string>)
    : (r: Result<Request, MappingError>)
    requires Enumerates(order, request.headers.Keys)
    ensures r == Err(MarshalFailed) <==> marshal(PipelineBody(request.body)).None?
    ensures r == Err(NewRequestFailed) <==>
              marshal(PipelineBody(request.body)).Some? && !accepts(RequestVerb(request.verb), TargetUrl(request))
    ensures r.Ok? ==> && r.value.verb == RequestVerb(request.verb)
                      && r.value.url == TargetUrl(request)
                      && r.value.body == BytesReader(marshal(PipelineBody(request.body)).value)
                      && r.value.header == HeaderOf(order, request.headers)
  {
    match marshal(PipelineBody(request.body))
    case None => Err(MarshalFailed)
    case Some(data) =>
      if !accepts(RequestVerb(request.verb), TargetUrl(request)) then Err(NewRequestFailed)
      else Ok(Request(RequestVerb(request.verb), TargetUrl(request), BytesReader(data), HeaderOf(order, request.headers)))
  }

  /** The response `makeExternalResponse` returns. */
  function ExternalResponseOf(marshal: Marshal, request: Request, response: HttpResponse, order: seq<string>)
    : (r: Result<Response, MappingError>)
    requires Enumerates(order, response.headers.Keys)
    ensures r.Err? <==> marshal(RequestBody(request.body)).None?
    ensures r.Err? ==> r.error == MarshalFailed
    ensures r.Ok? ==> && r.value.statusCode == response.statusCode
                      && r.value.header == HeaderOf(order, response.headers)
                      && r.value.body == BytesReader(marshal(RequestBody(request.body)).value)
                      && r.value.request == request
  {
    match marshal(RequestBody(request.body))
    case None => Err(MarshalFailed)
    case Some(body) => Ok(Response(response.statusCode, HeaderOf(order, response.headers), BytesReader(body), request))
  }

  /** The `for k, v := range src { hdr.Add(k, v) }` loop of both mappers, visiting the keys in `order`. */
  method CopyHeader(src: map<string, string>, order: seq<string>) returns (hdr: Header)
    requires Enumerates(order, src.Keys)
    ensures hdr == HeaderOf(order, src)
    ensures forall k :: k in src ==> CanonicalKey(k) in hdr && src[k] in hdr[CanonicalKey(k)]
  {
    hdr := map[];
    for i := 0 to |order|
      invariant hdr == HeaderOf(order[..i], src)
    {
      assert order[..i + 1][..i] == order[..i];
      hdr := Add(hdr, order[i], src[order[i]]);
    }
    assert order[..|order|] == order;
    forall k | k in src
      ensures CanonicalKey(k) in hdr && src[k] in hdr[CanonicalKey(k)]
    {
      var i :| 0 <= i < |order| && order[i] == k;
      HeaderOfContains(order, src, i);
    }
  }

  /** `makeExternalRequest`. */
  method MakeExternalRequest(marshal: Marshal, accepts: NewRequestCheck, request: HttpRequest, order: seq<string>)
    returns (r: Result<Request, MappingError>)
    requires Enumerates(order, request.headers.Keys)
    ensures r == ExternalRequestOf(marshal, accepts, request, order)
  {
    var data := marshal(PipelineBody(request.body));
    if data.None? {
      return Err(MarshalFailed);
    }
    var url := request.schema + "://" + request.host + request.path;
    var verb := request.verb;
    if verb == "" {
      verb := "GET";
    }
    if !accepts(verb, url) {
      return Err(NewRequestFailed);
    }
    var req := Request(verb, url, BytesReader(data.value), map[]);
    var hdr := CopyHeader(request.headers, order);
    req := req.(header := hdr);
    r := Ok(req);
  }

  /** `makeExternalResponse`. */
  method MakeExternalResponse(marshal: Marshal, request: Request, response: HttpResponse, order: seq<string>)
    returns (r: Result<Response, MappingError>)
    requires Enumerates(order, response.headers.Keys)
    ensures r == ExternalResponseOf(marshal, request, response, order)
  {
    var body := marshal(RequestBody(request.body));
    if body.None? {
      return Err(MarshalFailed);
    }
    var resp := Response(0, map[], BytesReader([]), request);
    resp := resp.(statusCode := response.statusCode);
    var hdr := CopyHeader(response.headers, order);
    resp := resp.(header := hdr);
    resp := resp.(body := BytesReader(body.value));
    resp := resp.(request := request);
    r := Ok(resp);
  }

  /**
    The mapped request's header holds every input pair under its key's
    canonical form and nothing else; when the input keys are already
    canonical it is exactly the input, one value per key, in any visiting order.
  */
  lemma ExternalRequestHeaders(marshal: Marshal, accepts: NewRequestCheck, request: HttpRequest, order: seq<string>)
    requires Enumerates(order, request.headers.Keys)
    requires ExternalRequestOf(marshal, accepts, request, order).Ok?
    ensures var hdr := ExternalRequestOf(marshal, accepts, request, order).value.header;
      && (forall k :: k in request.headers ==> CanonicalKey(k) in hdr && request.headers[k] in hdr[CanonicalKey(k)])
      && (forall key, v :: key in hdr && v in hdr[key] ==>
            exists k :: k in request.headers && CanonicalKey(k) == key && request.headers[k] == v)
      && ((forall k :: k in request.headers ==> CanonicalKey(k) == k) ==>
            hdr == map k | k in request.headers :: [request.headers[k]])
  {
    var src := request.headers;
    var hdr := HeaderOf(order, src);
    forall k | k in src
      ensures CanonicalKey(k) in hdr && src[k] in hdr[CanonicalKey(k)]
    {
      var i :| 0 <= i < |order| && order[i] == k;
      HeaderOfContains(order, src, i);
    }
    forall key, v | key in hdr && v in hdr[key]
      ensures exists k :: k in src && CanonicalKey(k) == key && src[k] == v
    {
      HeaderOfOnlyInputs(order, src, key, v);
      var i :| 0 <= i < |order| && CanonicalKey(order[i]) == key && src[order[i]] == v;
      assert order[i] in src;
    }
    if forall k :: k in src ==> CanonicalKey(k) == k {
      HeaderOfCanonicalInput(order, src);
    }
  }

  /**
    The response body is the encoding of the original request's body: neither
    it nor the mapper's success depends on the response being mapped.
  */
  lemma ExternalResponseBodyFromRequest(marshal: Marshal, request: Request, r1: HttpResponse, r2: HttpResponse,
                                        o1: seq<string>, o2: seq<string>)
    requires Enumerates(o1, r1.headers.Keys) && Enumerates(o2, r2.headers.Keys)
    ensures ExternalResponseOf(marshal, request, r1, o1).Ok? == ExternalResponseOf(marshal, request, r2, o2).Ok?
    ensures ExternalResponseOf(marshal, request, r1, o1).Ok? ==>
      ExternalResponseOf(marshal, request, r1, o1).value.body == ExternalResponseOf(marshal, request, r2, o2).value.body
  {
  }
}
