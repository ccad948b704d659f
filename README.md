# srvem: the middleware runner, modelled in Dafny

srvem is a small HTTP middleware runner built on Node's `http` module. For every request it
builds a per-request context around Node's request and server response, runs the registered
middleware over that context in order, and then finalises the response. This project models
three parts of it and proves properties about them:

- **`Context`** (`src/Context.ts`, compiled as `build/Context.js`; both have the same logic).
  Every status accessor reads and writes the server response directly. `finish` first applies
  its truthy overrides. It then rejects if the response is already finished. Otherwise it writes
  the head, writes the body only when the body is truthy, and ends the response through
  `terminate`, which sets `finished`.
- **`SrvContext`**, in two versions that differ (`src/SrvContext.ts` and `build/SrvContext.js`).
  It keeps the status, message, encoding, sendDate, body and a case-sensitive header dictionary
  in its own fields, and nothing reaches the response before `finish`/`terminate`. Both copy
  the status code, message, encoding and sendDate. Only the src `finish` also copies the
  headers onto the response. Both `finish`es write the head and the body; the body itself is
  never copied. Header queries use JavaScript truthiness.
- **`Srvem`**, the pipeline, also in two versions. The compiled one (`build/Srvem.js`) awaits
  each unit's `main(ctx)` in chain order and then calls `finish()` once. The older one
  (`src/Srvem.ts`) writes the request and response into fields of shared middleware objects.

Node's `ServerResponse` becomes the class `NodeHttp.Response`. It has the fields `statusCode`,
`statusMessage`, `sendDate`, `defaultEncoding`, a header map and `finished`. It also has an
append-only event log of `WriteHead(status, headers)`, `AddTrailers(headers)`,
`Write(chunk, encoding)` and `End`. Its `End` only logs the event: as in the code, the
contexts set `finished` themselves in the `end` callback. The request is a value
(`NodeHttp.Request`).

JavaScript values are modelled by `JsValues.JsValue`, with JavaScript truthiness. An omitted or
zero status argument is falsy, so it never overrides. `async`/`await` becomes sequential calls.
A promise's settlement is an `Outcome` (`Resolved` or `Rejected(reason)`). A context that
resolves resolves with itself, except that the compiled `SrvContext._terminate` resolves with `true`.

Each class is proved against specification functions (`AfterFinish`, `AfterTerminate`,
`AfterRedirect`, `PropertiesBack`, `HeadersBack`, `ServeSpec`). These work on value snapshots
of the state: the datatypes `ContextState`, `Buffered` and `ResponseState`. The methods'
`ensures` tie the new state to such a function applied to the old state. The properties are
stated on those functions and in lemmas.

A middleware unit's `main(ctx)` is modelled as a script of context operations
(`Pipeline.Step`: the setters, header operations, `finish`, `terminate`, the completion of
`redirect`, or a throw). The script stops at its first rejection. A handler passed to `handle`
is wrapped in `Adapter`, whose `main` runs the handler. For the older pipeline, whose external
middleware take no argument, `main()` is modelled as recording what it sees (its own
`request`/`response` fields) in a shared `Journal`.

Behaviours of the code worth knowing, which the model follows:
- The compiled pipeline does **not** stop the chain once the context is finished. Later units
  still run and can still change the status, and the final `finish()` then rejects with
  "Response is already finished." (`Pipeline.FinishAfterFinishedChain`,
  `Pipeline.NoShortCircuitScenario`).
- Nothing in the contexts rejects a change after the response has ended. A status change then
  simply has no effect on what was sent. A header change after the head is out makes Node
  itself throw; the abstract response does not model that throw (see "## Left out").
- A failing unit leaves the response open. No fallback error response is written
  (`Pipeline.FailureScenario`).
- `redirect`'s status defaults to 301 and overrides the status when truthy.
- An empty collected body is falsy, so it does not replace `body`.

## Model

| member | source | states |
|---|---|---|
| `ContextModel.AfterFinish` | src/Context.ts:184-202 | Truthy body/status overrides land even when the call is rejected. It is rejected with "Response is already finished." exactly when the response was finished, and then no event is logged. Otherwise it logs WriteHead(current status, current headers), then Write(body) only for a truthy body, then End. The response is finished afterwards, and nothing else changes. |
| `ContextModel.AfterTerminate` | src/Context.ts:209-218 | Applies a truthy status, logs End and sets `finished`, with no finished check. Body, headers and the other fields stay as they were. |
| `ContextModel.SecondFinishRejected` | src/Context.ts:192-193 | Whatever the first `finish` did, a second one is rejected with the already-finished error and adds no event. |
| `ContextModel.ConcatAppend` | src/Context.ts:161-164 | Appending a chunk to the collected body is concatenation in arrival order (`newBody += chunk`). |
| `ContextModel.CollectBody` | src/Context.ts:161-164 | The `data` loop yields exactly the concatenation of the chunks in order. |
| `ContextModel.Concat` | src/Context.ts:161-164 | The body `redirect` collects starts with the first chunk, and it is empty exactly when every chunk is empty. |
| `ContextModel.RedirectStatus` | src/Context.ts:149-149 | The status handed to `finish`: 301 when none is given, otherwise the given one. |
| `ContextModel.AfterRedirect` | src/Context.ts:149-166 | When the dependent response ends, the context is finished. The body becomes the concatenated chunks when they are non-empty. The status is 301 when no status was given, or the truthy given one. It rejects exactly when the context was already finished. |
| `ContextModel.Context.constructor` | build/Context.js:17-28 | The context holds the given request and response, and `body` starts as null. |
| `ContextModel.Context.Method` | src/Context.ts:25-27 | The method is the immutable request's method. |
| `ContextModel.Context.Url` | src/Context.ts:32-34 | The url is the immutable request's url. |
| `ContextModel.Context.SetStatusCode` | build/Context.js:44-49 | Writes straight to the response: a later read returns the value set, and no other field changes. |
| `ContextModel.Context.SetStatusMessage` | src/Context.ts:58-63 | Writes straight to the response: a later read returns the value set, and no other field changes. |
| `ContextModel.Context.SetSendDate` | src/Context.ts:69-74 | Writes straight to the response: a later read returns the value set, and no other field changes. |
| `ContextModel.Context.StatusCode` | src/Context.ts:47-49 | Reads the status code straight from the response. |
| `ContextModel.Context.StatusMessage` | src/Context.ts:58-60 | Reads the status message straight from the response. |
| `ContextModel.Context.SendDate` | src/Context.ts:69-71 | Reads `sendDate` straight from the response. |
| `ContextModel.Context.Headers` | src/Context.ts:79-81 | The response's header map. |
| `ContextModel.Context.HasHeader` | src/Context.ts:95-97 | Present exactly when the name is a key of the response's headers, whatever its value (Node's rule, unlike `SrvContext`'s). |
| `ContextModel.Context.Finished` | src/Context.ts:174-176 | The response's `finished` flag. |
| `ContextModel.Context.HeaderNames` | src/Context.ts:86-88 | The names are exactly those the response reports as present. |
| `ContextModel.Context.GetHeader` | build/Context.js:95-97 | Delegates to the response: its stored value, or `undefined` when absent. This follows Node's `getHeader`; the method's doc comment says null. |
| `ContextModel.Context.SetHeader` | src/Context.ts:114-116 | Delegates to the response: the header is then present with that value, and only the response's header map changes. |
| `ContextModel.Context.RemoveHeader` | src/Context.ts:123-125 | Delegates to the response: the header is then absent, and only the response's header map changes. |
| `ContextModel.Context.Terminate` | build/Context.js:183-191 | Its new state is `AfterTerminate` of the old one, and it resolves with the context itself. |
| `ContextModel.Context.Finish` | build/Context.js:163-177 | Its new state and its settlement are `AfterFinish` of the old state and its arguments. |
| `ContextModel.Context.CompleteRedirect` | src/Context.ts:166-166 | Its new state and its settlement are `AfterRedirect` of the old state, the chunks and the status. |
| `JsValues.Truthy` | src/Context.ts:186-197 | A value is falsy exactly when it is `undefined`, `null`, `false`, `0` or `""`. A Buffer or an array is truthy even when empty. This decides `if (body)`, `if (statusCode)`, `if (this.body)` and `!!this.headers[name]` (src/SrvContext.ts:122). |
| `JsValues.OverrideStatus` | src/Context.ts:189-190 | A given non-zero status replaces the current one. An omitted or zero status leaves the current one (also src/Context.ts:211-212). |
| `BufferedContext.HasHeader` | src/SrvContext.ts:121-123 | Present only for a key of the dictionary, and then exactly when its value is not one of the falsy values. |
| `BufferedContext.GetHeader` | src/SrvContext.ts:142-147 | Returns the stored value exactly when `hasHeader` holds (the value stored is then truthy), and null otherwise. |
| `BufferedContext.SetHeaderStores` | src/SrvContext.ts:155-157 | Stores the value under the exact (case-sensitive) name. The header then counts as present iff the value is truthy, and every other key keeps its value. |
| `BufferedContext.RemoveHeader` | src/SrvContext.ts:164-169 | Returns true iff `hasHeader` held, and then the key is deleted. Otherwise it returns false and the dictionary is unchanged. |
| `BufferedContext.FalsyHeaderIsAbsent` | src/SrvContext.ts:121-123 | A header set to a falsy value ("" or 0) remains a key. Yet `hasHeader` is false for it, `getHeader` returns null, and `removeHeader` returns false and leaves it in place. |
| `BufferedContext.HeaderNames` | src/SrvContext.ts:128-135 | The push loop lists every key of the dictionary, including keys with falsy values, and each key once. |
| `BufferedContext.Join` | src/SrvContext.ts:35-35 | The `toString` of an array header value: one element as it is; otherwise it starts with the first element followed by a comma, and the text holds at least one comma per extra element. |
| `BufferedContext.HeaderText` | src/SrvContext.ts:35-35 | The `toString()` of the `encoder` header: a single value as it is. It is empty exactly for an empty value, an empty array, or an array of one empty string. |
| `BufferedContext.JoinEmpty` | src/SrvContext.ts:35-35 | The `toString` of an array header value is empty only for an empty array or a single empty string. |
| `BufferedContext.DefaultEncoding` | build/SrvContext.js:11-11 | The default encoding is never empty: it is the `encoder` header's text, or "UTF-8" when that text is empty. |
| `BufferedContext.PropertiesBack` | src/SrvContext.ts:104-109 | Copies status code, message, default encoding and sendDate onto the response. Its headers, `finished` and events stay unchanged. |
| `BufferedContext.Ended` | src/SrvContext.ts:77-85 | The end callback: logs End, then sets `finished`. Nothing else changes. |
| `BufferedContext.AfterTerminate` | src/SrvContext.ts:72-75 | `terminate` copies the scalar properties but not the headers, logs End and finishes the response, with no finished check. |
| `SrvContextSrc.HeadersBack` | src/SrvContext.ts:111-114 | Every buffered header reaches the response, overriding its value there. Headers only on the response keep theirs, and nothing else changes. |
| `SrvContextSrc.AfterFinish` | src/SrvContext.ts:90-102 | On a finished response it rejects before copying or logging anything. Otherwise it copies the properties and the headers, then logs WriteHead(statusCode, headers), Write(body) whatever the body (null included) with the default encoding, and End, and finishes the response. |
| `SrvContextSrc.RemovedHeaderStaysOnResponse` | src/SrvContext.ts:20-20 | The dictionary is a copy taken at construction. A header the response already had, and that was removed locally, is still on the response with its old value after `finish`. |
| `SrvContextSrc.SrvContext.constructor` | src/SrvContext.ts:10-48 | The buffered fields start from the response's status, message, sendDate and headers, with a null body and the request's default encoding. It requires the `encoder` request header, without which the code throws. |
| `SrvContextSrc.SrvContext.SetResponsePropertiesBack` | src/SrvContext.ts:104-109 | The response becomes `PropertiesBack` of the buffered fields and the old response. |
| `SrvContextSrc.SrvContext.SetHeadersBack` | src/SrvContext.ts:111-114 | The for-in loop leaves the response as `HeadersBack` of the buffered fields and the old response. |
| `SrvContextSrc.SrvContext.TerminateResponse` | src/SrvContext.ts:77-85 | `_terminate` ends the response, marks it finished and resolves with the context. |
| `SrvContextSrc.SrvContext.Terminate` | src/SrvContext.ts:72-75 | The response becomes `AfterTerminate` of the buffered fields, and the call resolves with the context. |
| `SrvContextSrc.SrvContext.Finish` | src/SrvContext.ts:90-102 | The response and the settlement are `SrvContextSrc.AfterFinish` of the buffered fields and the old response. |
| `SrvContextSrc.SrvContext.IsFinished` | src/SrvContext.ts:65-67 | The server response's `finished` flag. |
| `SrvContextSrc.SrvContext.HasHeader` | src/SrvContext.ts:121-123 | Present exactly when the buffered value under this exact name is not falsy. |
| `SrvContextSrc.SrvContext.GetHeaderNames` | src/SrvContext.ts:128-135 | Every buffered key, each exactly once. |
| `SrvContextSrc.SrvContext.GetHeader` | src/SrvContext.ts:142-147 | The stored value when `hasHeader`, otherwise null. |
| `SrvContextSrc.SrvContext.SetHeader` | src/SrvContext.ts:155-157 | Only the buffered dictionary changes, and it gains the pair. The response is untouched until `finish`. |
| `SrvContextSrc.SrvContext.RemoveHeader` | src/SrvContext.ts:164-169 | Result and dictionary as `BufferedContext.RemoveHeader`. The other fields and the response are untouched. |
| `SrvContextBuild.AfterFinish` | build/SrvContext.js:31-40 | On a finished response it rejects with no write. Otherwise it copies the properties (the response's header map stays as it was), then logs AddTrailers(headers), WriteHead(statusCode, headers), Write(body) and End, and finishes the response. |
| `SrvContextBuild.VariantsDiffer` | build/SrvContext.js:35-38 | Compared with the src version on the same fields, the compiled `finish` logs one extra AddTrailers event before the same three events. Apart from that, it differs only in not copying the headers onto the response. |
| `SrvContextBuild.SrvContext.constructor` | build/SrvContext.js:4-13 | Same initial fields as the src version, with the `encoder` header required. |
| `SrvContextBuild.SrvContext.SetResponsePropertiesBack` | build/SrvContext.js:41-46 | The response becomes `PropertiesBack` of the buffered fields and the old response. |
| `SrvContextBuild.SrvContext.TerminateResponse` | build/SrvContext.js:26-30 | `_terminate` ends the response, sets `finished` and resolves with `true`, not with the context. |
| `SrvContextBuild.SrvContext.Terminate` | build/SrvContext.js:22-25 | The response becomes `AfterTerminate` of the buffered fields, and the call resolves with `true`. |
| `SrvContextBuild.SrvContext.Finish` | build/SrvContext.js:31-40 | The response and the settlement are `SrvContextBuild.AfterFinish` of the buffered fields and the old response. |
| `SrvContextBuild.SrvContext.IsFinished` | build/SrvContext.js:19-21 | The server response's `finished` flag. |
| `SrvContextBuild.SrvContext.HasHeader` | build/SrvContext.js:47-49 | Present exactly when the buffered value under this exact name is not falsy. |
| `SrvContextBuild.SrvContext.GetHeaderNames` | build/SrvContext.js:50-55 | Every buffered key, each exactly once. |
| `SrvContextBuild.SrvContext.GetHeader` | build/SrvContext.js:56-61 | The stored value when `hasHeader`, otherwise null. |
| `SrvContextBuild.SrvContext.SetHeader` | build/SrvContext.js:62-64 | Only the buffered dictionary changes. The response is untouched. |
| `SrvContextBuild.SrvContext.RemoveHeader` | build/SrvContext.js:65-70 | Result and dictionary as `BufferedContext.RemoveHeader`. The response is untouched. |
| `Pipeline.AfterStep` | src/MiddlewareBlueprint.ts:12-12 | No context operation a unit performs un-finishes the response or removes a logged event. |
| `Pipeline.AfterSteps` | src/MiddlewareBlueprint.ts:12-12 | A unit's script keeps a finished response finished and only appends to the event log. |
| `Pipeline.AfterCall` | build/Srvem.js:68-68 | A handler called on the context keeps a finished response finished and only appends to the event log. A handler that does nothing resolves and leaves the context as it was. |
| `Pipeline.AfterMain` | build/Srvem.js:44-44 | A unit's `main(ctx)`, middleware or adapter, keeps a finished response finished and only appends to the event log. A unit with an empty script resolves and leaves the context as it was. |
| `Pipeline.AdapterForwards` | build/Srvem.js:66-70 | An adapter's `main(ctx)` is exactly its handler called on `ctx`. |
| `Pipeline.WalkFrom` | build/Srvem.js:43-44 | The walk stops, if at all, at a unit of the chain. It never un-finishes the response, and the event log only grows. |
| `Pipeline.WalkSplits` | build/Srvem.js:43-44 | Each unit starts only after the previous one completes: the walk equals the walk over the first k units followed by the walk from unit k. |
| `Pipeline.RunsInOrder` | build/Srvem.js:41-45 | Unit j runs once all units before it have resolved, on the state they left. The walk stops at unit j iff unit j rejects, and then nothing after it runs. |
| `Pipeline.FinishAfterFinishedChain` | build/Srvem.js:43-45 | There is no early stop. Once a unit has finished the context, every later unit still runs, and the final `finish()` is still called, rejects with the already-finished error and writes nothing. |
| `Pipeline.ServeSpec` | build/Srvem.js:41-46 | The request is aborted exactly when a unit rejects, at that unit and in the state the walk left. Otherwise the runner's `finish()` runs with no arguments: body and status stay as the chain left them, it rejects exactly when the chain finished the response, and the response ends finished. The event log only grows. |
| `Pipeline.Invoked` | build/Srvem.js:43-44 | The listener calls units 0, 1, … in order and no others. That is every unit when the walk completes, and up to and including the rejecting unit when it stops. |
| `Pipeline.HeadOnceAfterFinish` | src/Context.ts:192-200 | `finish` keeps "at most one head, and once there is one the response is finished". |
| `Pipeline.HeadWrittenAtMostOnce` | build/Srvem.js:41-46 | Serving a request on a response with no head writes the head at most once, whatever the units do. |
| `Pipeline.GreetingScenario` | build/Srvem.js:41-46 | A handler that sets X-A=1 and finishes with "hi"/200 produces WriteHead(200, {X-A: 1}), Write("hi"), End. The runner's own `finish()` then rejects. |
| `Pipeline.NoShortCircuitScenario` | build/Srvem.js:43-45 | After a unit terminates with 404, the next unit still runs and changes the status of the ended response to 500. The final `finish()` rejects, and only End was logged. |
| `Pipeline.FailureScenario` | build/Srvem.js:43-44 | A throwing first unit aborts the request at unit 0. The second unit never runs, and the response is left unchanged, never ended. |
| `Pipeline.Perform` | src/Context.ts:47-125 | Each context operation a unit performs changes the context as `AfterStep` says. |
| `Pipeline.RunSteps` | src/MiddlewareBlueprint.ts:12-12 | Running a unit's script changes the context as `AfterSteps` says, stopping at the first rejection. |
| `Pipeline.Call` | build/Srvem.js:68-68 | Calling a handler changes the context as `AfterCall` says. |
| `Pipeline.RunMain` | build/Srvem.js:67-69 | A unit's `main(ctx)` changes the context as `AfterMain` says. |
| `Pipeline.Srvem.constructor` | build/Srvem.js:40-40 | The chain starts empty. |
| `Pipeline.Srvem.Use` | build/Srvem.js:54-57 | Appends the units at the end in argument order. The earlier entries are unchanged. |
| `Pipeline.Srvem.Handle` | build/Srvem.js:64-71 | Appends one adapter per handler, in argument order. The earlier entries are unchanged. |
| `Pipeline.Srvem.Serve` | build/Srvem.js:41-46 | A fresh context on this request and response. Units are invoked as indices 0, 1, … in order, up to and including a rejecting one. The outcome and final state are `ServeSpec` of the chain. The chain is not modified. |
| `LegacyPipeline.SrvMiddleware.RunMain` | src/Srvem.ts:18-18 | Records one call, with the request and response fields the middleware holds at that moment. |
| `LegacyPipeline.Srvem.constructor` | src/Srvem.ts:5-5 | The chain starts empty. |
| `LegacyPipeline.Srvem.Use` | src/Srvem.ts:8-10 | Appends the middleware at the end of the chain. |
| `LegacyPipeline.Srvem.Callback` | src/Srvem.ts:12-21 | One call of `main()` per chain position, in registration order, each seeing this invocation's request and response in its fields. Afterwards every middleware holds this request and response, overwriting an earlier request's. The chain's length and order are unchanged. |

## Left out

- Node's `http` internals: `createServer`, `listen`, `start()` (src/Srvem.ts:23-25), and the
  real `writeHead`/`write`/`end`/`addTrailers`/`setDefaultEncoding`. These are replaced by the
  event log. Node's lower-casing of header names and its merging of `setHeader` headers into
  `writeHead` are not modelled.
- The errors Node's response throws, which the abstract response never raises:
  `setHeader`/`removeHeader` after the head has been sent (so `Pipeline.NoShortCircuitScenario`
  changes the status, not a header); `write` of `null`, after the end, or of a chunk that is
  not a string or Buffer (such as the truthy body `42` given to `finish`, after which no End
  follows in Node); and `writeHead` with an invalid status code. In the model those calls
  succeed and are logged.
- `setTimeout` (src/Context.ts:132-136, src/SrvContext.ts:55-60, and the compiled copies): a
  timer with asynchronous completion.
- The outbound `request(...)` of `redirect` and its `error` path. Only the completion step is
  modelled, by `Context.CompleteRedirect`. As written, `redirect` never calls `end()` on the
  client request returned by `request(requestOptions, cb)` (src/Context.ts:158,
  build/Context.js:141). By Node's documented behaviour the request is then never sent, so the
  `end` handler that `CompleteRedirect` models is not reached. The `error` listener sits on the
  dependent response, not on the client request, so a connection error is not handled there.
- The abstract `End` logs a second `End` when `terminate` runs on a response that has already
  ended. Node's `end()` then writes nothing, and on some versions it never calls back, so the
  promise `terminate` returns would not settle. The model resolves it.
- Interleaving within one request: every step of a unit, `finish` and `redirect` included, is
  atomic and awaited. In the code, `Context.finish` sets `finished` only in `end`'s callback,
  which runs after `write`'s callback for a truthy body (src/Context.ts:197-198, 214-215). A
  `finish` that is not awaited therefore leaves `finished` false while its write is pending. A
  second `finish`, such as the runner's own at build/Srvem.js:45 after a handler that does not
  await its `finish`, then passes the check at src/Context.ts:192 and writes the head again.
  `Pipeline.HeadWrittenAtMostOnce` holds only for awaited scripts.
- `createdOn`, which reads the clock.
- The `SrvContext` constructor without an `encoder` request header. The code throws there, and
  the model requires the header.
- Concurrency between in-flight requests and promise plumbing. Each request is one sequential
  call. In the older pipeline, `main()` is not awaited, so a later middleware may start before an
  earlier one completes. The model runs each `main()` to completion in turn.
- What a middleware does beyond context operations: a unit is a script of those operations (see
  above), not arbitrary code. External middleware of the older pipeline (`@srvem/middleware`)
  is not part of this model.
- `LegacyPipeline.SrvMiddleware.RunMain`: the stand-in for the external `main()` never throws
  and changes nothing but the journal. `LegacyPipeline.Srvem.Callback` relies on both. In the
  code, a synchronous throw from one `main()` leaves the `forEach` (src/Srvem.ts:14-19) early,
  so the later middleware are not called. A `main()` that wrote another middleware's
  `request`/`response` fields would break "afterwards every middleware holds this request".
- The `finish()` the compiled pipeline calls is not awaited, so its rejection goes unhandled.
  The model reports that rejection as the outcome of serving.
- Type-only files, and build/SrvContext.d.ts: they hold no behaviour. Its declared
  `finish(body?, statusCode?)`, `redirect` and `isFinished` property are implemented by neither
  `SrvContext`.
- Numbers are integers: floating point, NaN (which is falsy) and non-number status arguments
  are not modelled. Buffer chunks of a redirect are taken as strings already decoded.
- `BufferedContext.HeaderNames`: the for-in enumeration order (insertion order, integer-like
  keys first) is not modelled. The result is stated as the key set, each key once.
- `ContextModel.Context.HeaderNames`: returns the set of names. The order of Node's array is
  not modelled.
