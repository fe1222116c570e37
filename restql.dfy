/**
  The records the restQL pipeline hands to the lifecycle hooks
  (`restql.TransactionRequest`, `restql.TransactionResponse`,
  `restql.HTTPRequest`, `restql.HTTPResponse`), with the fields the plugin reads.
  Go's `Method` fields are called `verb` here, `method` being a Dafny keyword.
*/
module Restql {
  import opened Http

  /** A request or response payload (`interface{}` in restQL); only the JSON encoder looks inside. */
  type Body(==)

  /** The inbound request, as `BeforeTransaction` receives it. */
  datatype TransactionRequest = TransactionRequest(url: Url, verb: string, header: Header)

  /** The response restQL is about to send, as `AfterTransaction` receives it. */
  datatype TransactionResponse = TransactionResponse(status: int, body: Bytes, header: Header)

  /** An outbound call restQL makes to a resource. */
  datatype HttpRequest = HttpRequest(
    schema: string, verb: string, host: string, path: string,
    body: Body, headers: map<string, string>)

  /** The outcome of an outbound call; `duration` is a Go `time.Duration`, in nanoseconds. */
  datatype HttpResponse = HttpResponse(
    url: string, statusCode: int, body: Body,
    headers: map<string, string>, duration: int)
}
