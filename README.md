# restQL New Relic lifecycle plugin — a Dafny model

restQL calls this plugin at four points of every request:
- before the transaction starts;
- after it ends;
- before each outbound call;
- after each outbound call.

The plugin reports traces to the New Relic Go agent. It keeps its handles in the per-request `context.Context`: the transaction, the agent's response writer, the external segment of an outbound call, and the `*http.Request` it made for that segment.

The project models three parts:
- The hooks of `main.go`. They are methods of `Plugin.NewRelicPlugin` acting on an agent that records every call it receives. The agent is `Agent.Backend`, whose ghost `trace` is the record. The logger is folded into that trace: each `Error` log is one `ErrorLogged` entry. A second object, `Agent.ExternalSegment`, has a `response` field that `AfterRequest` sets in place.
  - The context is a map from key to a value tagged with its dynamic type (`RequestContext`).
  - Each hook's calls are given by a function of its inputs, for example `Plugin.AfterRequestCalls`.
  - Lemmas over those calls show three things. Every transaction and segment a path obtains is ended exactly once, even when a later lookup (of the writer or of the stored request) fails. A transaction that is missing or of the wrong type, or a segment of the wrong type, leads to one error log and no other call, and a missing segment leads to no call at all. Deferred ends run last-in first-out, so the "Flush" segment ends before its transaction.
- The external-call mappers of `external.go`, in `External`. Two operations are parameters that may fail: `json.Marshal`, and the checks `http.NewRequest` makes.
  - The header loop is a `for` loop over an explicit key order, because Go's map iteration order is unspecified.
  - The loop adds each pair under its canonical key, as `http.Header.Add` does (`Http.CanonicalKey`).
- The environment option of `config.go`, in `Config`, with `strconv.Atoi` modelled exactly in `StrConv`.

Randomness and the environment are inputs to the model:
- The map iteration order is an `order` argument, required to list each key once.
- `os.Getenv` is the `getenv` argument.
- Whether `w.Write` fails is left open: `AfterTransaction`'s postcondition holds for some `writeFailed`.

Four details of the code that the model follows exactly:
- `BeforeTransaction` always starts a transaction. There is no branch for an agent that is not ready.
- `BeforeRequest` without a transaction logs an error. `getTransactionFromContext` logs before it returns its error (main.go:199-209), so a missing transaction is reported as an error there too.
- The configuration error reads `invalid <name> value: <value>` (config.go:26), not `invalid <name>: <value>`.
- On the wrong-type segment path (main.go:135-142), `End` is called on a nil segment. It records nothing, so that path only logs an error.

## Model

| member | source | states |
|---|---|---|
| RequestContext.WithValue | main.go:67-68 | extending a context binds the key to the value and keeps every other binding |
| RequestContext.TransactionOf | main.go:200 | the assertion to `*newrelic.Transaction` finds nothing exactly when the key is unbound, succeeds exactly when the key holds a transaction, and then yields that transaction |
| RequestContext.WriterOf | main.go:80 | the assertion to `http.ResponseWriter` finds nothing exactly when the key is unbound, succeeds exactly when the key holds a writer, and then yields it |
| RequestContext.ExternalSegmentOf | main.go:130-135 | the segment lookup is missing exactly when the key is unbound (the `nil` check), succeeds exactly when the key holds an external segment, and then yields it |
| RequestContext.StoredRequestOf | main.go:145 | the assertion to `*http.Request` finds nothing exactly when the key is unbound, succeeds exactly when the key holds a request, and then yields it |
| Plugin.TxnName | main.go:212-214 | the name is the verb, one space, then the URL path, and nothing more |
| Plugin.TxnNameIgnoresQuery | main.go:212-214 | URLs with the same path give the same name, whatever their query, scheme or host |
| Plugin.OrdersRequestName | main.go:58 | a `GET` of `/orders?id=7` is named `GET /orders` |
| Plugin.BeforeTransactionContext | main.go:67-70 | the returned context adds exactly the transaction and writer keys, keeps every other binding, and finds the new transaction and writer |
| Plugin.NewRelicPlugin.BeforeTransaction | main.go:57-71 | returns that context, takes two fresh handles, and makes the calls of `BeforeTransactionCalls` |
| Plugin.BeforeTransactionOpensOne | main.go:58-65 | exactly one transaction is opened, named `TxnName(verb, url)`, with attribute `query` = the encoded query; nothing is closed and no error is logged |
| Plugin.NewRelicPlugin.GetTransactionFromContext | main.go:199-210 | returns the transaction when the key holds one, and otherwise logs exactly one error and returns none |
| Plugin.NewRelicPlugin.AfterTransaction | main.go:73-99 | returns the context it was given, and its calls are `AfterTransactionCalls` for the write outcome that occurred |
| Plugin.AfterTransactionSoftFails | main.go:74-77 | with no transaction, or one of the wrong type, the only call is one error log |
| Plugin.AfterTransactionEndsOnce | main.go:78-98 | a found transaction is ended exactly once, by the last call, on the missing-writer path as well; no transaction is opened; one error is logged if the writer is missing or the write fails |
| Plugin.FlushCounts | main.go:89-96 | flushing opens and closes the "Flush" segment once, writes header then body, logs an error only on a failed write, and ends the segment and then the transaction last |
| Plugin.FlushEndsBeforeTransaction | main.go:78 | with a writer, the "Flush" segment is opened and closed once, and closed before the transaction |
| Plugin.TransactionLifecycle | main.go:57-99 | `BeforeTransaction` followed by `AfterTransaction` on its context opens and closes the transaction once and the "Flush" segment once, the segment first, and logs an error only if the write fails |
| Plugin.UnwindIsLifo | main.go:78 | deferred calls run once each, the last one deferred first |
| Plugin.NewRelicPlugin.RunDeferred | main.go:78 | running the defer stack appends exactly `Unwind(stack)` to the calls and takes no handle |
| Plugin.NewRelicPlugin.BeforeQuery | main.go:101-103 | the context is returned unchanged |
| Plugin.NewRelicPlugin.AfterQuery | main.go:104-106 | the context is returned unchanged |
| Plugin.BeforeRequestContext | main.go:123-126 | the returned context adds exactly the segment and request keys, keeps every other binding, and still finds the same transaction and writer |
| Plugin.NewRelicPlugin.BeforeRequest | main.go:108-127 | the calls are `BeforeRequestCalls`; without a transaction or a mapped request the context is unchanged and no handle is taken; otherwise one fresh segment with no response is bound along with the mapped request |
| Plugin.BeforeRequestSoftFails | main.go:109-118 | without a transaction, or when mapping fails, the only call is one error log |
| Plugin.BeforeRequestOpensOne | main.go:120-121 | otherwise exactly one external segment is opened, for the mapped request; nothing is closed and no error is logged |
| Plugin.NewRelicPlugin.AfterRequest | main.go:129-169 | returns the context it was given; its calls are `AfterRequestCalls` over the state before the call; the segment's response is set to the mapped response on success and left alone on every other path |
| Plugin.AfterRequestSoftFails | main.go:130-143 | with no segment nothing is called; with a segment of the wrong type the only call is one error log |
| Plugin.AfterRequestEndsOnce | main.go:145-164 | a found segment is ended exactly once, by the last call, on every path; nothing is opened; `errordetail` is recorded exactly on the success path, before `End`, and there `End` carries the mapped response; every other path logs one error |
| Plugin.ExternalCallLifecycle | main.go:108-169 | `BeforeRequest` then `AfterRequest` on its context opens and closes the segment exactly once, whatever the call error; when the response maps, `errordetail` is recorded on it |
| Plugin.TimeoutCallRecordsError | main.go:155-164 | a call that failed with "timeout" and status 503 records `errordetail` = "timeout" and ends with a response of status 503 linked to its request |
| Plugin.Milliseconds | main.go:177 | `Duration.Milliseconds` truncates nanoseconds toward zero: the value is within one millisecond of the duration, on the zero side |
| Plugin.Join | main.go:186 | the `%v` listing of non-empty errors has their total length plus one separator between each pair, and starts with the first error |
| Plugin.JoinConcat | main.go:186 | listing two non-empty runs of errors is listing each with one space between |
| Plugin.ErrorsText | main.go:181-191 | the `errors` text is the JSON encoding when it succeeds, and otherwise the listing of the errors between `[` and `]` |
| Plugin.CustomEventAttributes | main.go:174-192 | the keys are `url`, `status`, `time` and `method`, plus `errors` exactly when there is an error; `url` is the host, `method` the verb, `status` the status code and `time` the duration in milliseconds |
| Plugin.NewRelicPlugin.SendCustomEvent | main.go:171-197 | records one custom event with exactly that attribute map and takes no handle |
| External.RequestVerb | external.go:20 | the method `http.NewRequest` stores is never empty: the input method, or `GET` when none is given |
| External.ExternalRequestOf | external.go:13-32 | fails with `MarshalFailed` exactly when the body does not marshal, and with `NewRequestFailed` exactly when it does but `NewRequest` rejects the method or URL; otherwise the method is the input's, or `GET` when it is empty, the URL is `schema + "://" + host + path`, the body is the marshalled body and the header is the copied one |
| External.MakeExternalRequest | external.go:13-32 | returns exactly `ExternalRequestOf` |
| External.CopyHeader | external.go:25-29 | the loop builds `HeaderOf(order, src)`, which holds every input pair under its canonical key |
| External.ExternalRequestHeaders | external.go:25-29 | the request header holds every input pair and nothing else, and equals the input, one value per key, when the input keys are canonical |
| External.ExternalResponseOf | external.go:34-51 | fails, with `MarshalFailed`, exactly when the request's body does not marshal; otherwise the status is copied, the header is the copied one, the body is the marshalled request body and the request is the given one |
| External.MakeExternalResponse | external.go:34-51 | returns exactly `ExternalResponseOf` |
| External.ExternalResponseBodyFromRequest | external.go:35-47 | whether mapping succeeds, and the body it gives, do not depend on the response being mapped |
| Http.CanonicalKey | external.go:27 | canonicalising keeps the length, returns a non-token key unchanged, and turns a token into a token |
| Http.CanonicalKeyChars | external.go:27 | a token's canonical form has each letter in upper case at the start and after a `-`, and in lower case elsewhere; no other character changes |
| Http.Add | external.go:27 | `Add` appends the value to the values of the key's canonical form, which it binds if needed, and leaves every other key and its values alone |
| Http.CanonicalKeyIdempotent | external.go:27 | canonicalising a canonical key changes nothing |
| Http.CaseFoldKeepsTokens | external.go:27 | canonicalising a token gives a token |
| Http.HeaderOfIsFilter | external.go:25-29 | the header the loop builds holds, under each key, exactly the input values whose keys canonicalise to it, in visiting order |
| Http.HeaderOfContains | external.go:25-29 | every input pair is in the built header |
| Http.HeaderOfOnlyInputs | external.go:25-29 | every value in the built header comes from an input pair with that canonical key |
| Http.HeaderOfKeysCanonical | external.go:25-29 | every key of the built header is canonical |
| Http.HeaderOfCanonicalInput | external.go:25-29 | with canonical input keys, the built header is the input with each value as a one-element list, whatever the order |
| StrConv.Atoi | config.go:25 | succeeds exactly on an optional sign followed by one or more digits whose value fits in 64 bits, and then gives that value |
| StrConv.AtoiItoa | config.go:25 | every 64-bit integer, formatted in decimal, parses back to itself |
| StrConv.ItoaAtoi | config.go:25 | text in canonical decimal form that parses formats back to the same text |
| Config.AssignmentFor | config.go:23-31 | an empty value keeps the configuration; a value that parses is assigned; any other value is rejected with `invalid <name> value: <value>` |
| Config.AssignInt | config.go:23-31 | the writable fields become the outcome of `AssignmentFor` applied to the old ones, and nothing else changes |
| Config.ExtraConfigFromEnvironment | config.go:17-35 | the option applies `assignInt` to `NEW_RELIC_TRANSACTION_EVENTS_MAX_SAMPLES_STORED` |
| Config.ConfiguredEmptyKeeps | config.go:24 | an unset or empty variable leaves the configuration exactly as earlier options left it |
| Config.ConfiguredStoresValue | config.go:25-28 | a parsable value is stored in `MaxSamplesStored`, and the rest, the error included, is untouched |
| Config.ConfiguredRejects | config.go:25-26 | an unparsable value sets the error and keeps the field's previous value |
| Config.ConfiguredFormattedValue | config.go:25-28 | any 64-bit integer written in decimal ends up in the field |
| Config.ConfiguredReadsOneVariable | config.go:11 | environments that agree on the one variable give the same configuration |
| Config.ConfiguredIdempotent | config.go:23-33 | applying the option twice under the same environment gives the same result as applying it once |

## Left out

- Registration (`init`, `restql.RegisterPlugin`), `MakeNewRelicPlugin` and `Name` (main.go:24-55) are left out. They run at load time and build the agent from the real environment.
- What the New Relic agent does with each call is left out: recording, `SetWebRequest`/`SetWebResponse` wrapping, and the upload of custom events. Each call is only an entry of the trace.
- `StartExternalSegment` also adds distributed-tracing headers to the request. This is not modelled: the request is recorded as the mapper built it.
- `txn.NewGoroutine()` is an opaque derived transaction handle. Its concurrency is left out.
- `noOpResponseWriter` (main.go:216-233) is not modelled. The agent's writer is a handle whose `WriteHeader` and `Write` calls are recorded.
- Plugin.NewRelicPlugin.AfterTransaction: whether `Write` fails is not determined, so the postcondition holds for some outcome. The plugin's own `noOpResponseWriter.Write` never fails (main.go:226-229), but the agent's wrapper around it is not part of this model.
- The bytes `encoding/json` produces, the URL parsing and method validation of `http.NewRequest` (its default of `GET` for an empty method is modelled, in `External.RequestVerb`), and `url.Values.Encode` are abstract operations in `Plugin.Library`. Both the marshal and the `NewRequest` check may fail.
- Log text and `Debug` logs are left out. Each `Error` log is counted as one `ErrorLogged` entry.
- `errordetail` and the `errs` of `sendCustomEvent` are error messages as strings. `nil` errors are `None`.
- The context holds values, not pointers. A `nil` value under a key is the same as a missing key. Typed nil pointers are not modelled. The stored `*http.Request` is a value, so aliasing between it and the response's `Request` is not modelled.
- Plugin.AfterRequestCalls: a failing path ends the segment with the response the segment already had. The model does not say which response that is, only that the hook leaves it unchanged.
- Config.AssignInt: the closure's `field *int` is specialised to `TransactionEvents.MaxSamplesStored`, the only field it is applied to. `cfg.Error` is the error's message.
- StrConv.Atoi assumes a 64-bit `int`.
- `Plugin.Join` renders `fmt.Sprintf("%v", errs)` as the error messages between brackets, separated by spaces.
