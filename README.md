# pocket-pitch request handlers, modelled in Dafny

pocket-pitch generates a business pitch for a service provider that wants to approach a
target customer. A pitch handler searches the web for facts (the Tavily search
service), asks a language model (the Perplexity chat-completion service) to write the
pitch from those facts, renders the markdown answer to HTML and returns it. This
project models the three request handlers that do this work:

- `api/generate-info.js`, the serverless pitch handler. It sets three CORS headers, then
  dispatches on the HTTP method: OPTIONS gets 200 with no body, any verb other than POST
  gets 405. A POST runs one `try` block:
  1. read five flat fields from the body;
  2. strip every `"` from the search key and call search;
  3. strip every `"` from the completion key and call completion;
  4. read `choices[0].message.content` and render it.

  Any exception becomes a 500 envelope carrying two key-presence flags.
- `server/routes/generate-info.js`, the Express route. It runs the same two-stage
  pipeline on nested `serviceProvider`/`targetCustomer` objects. Its query and prompt
  differ, and it sends the credentials exactly as configured, the search key twice.
- `api/debug-apis.js`, the diagnostics endpoint. It probes each upstream service once,
  each probe in its own `try`/`catch`. It records each probe in a `results` object, adds
  which keys are set and an 8-character preview of each, and answers 200. The one
  exception is a Tavily error reply whose data holds an object with an own `toString`
  member. Then the `catch` block itself throws, no response is sent, and Perplexity
  is never probed.

## How the model is built

- **Upstream calls are given outcomes.** An awaited `axios.post` either resolves with a
  reply (status and JSON data) or rejects with a message and, optionally, a reply
  (`Upstream.Outcome`). Each handler issues each kind of call at most once, so one given
  outcome per call is as general as an oracle function of the request. Every handler
  returns the trace of the calls it actually issued (`Upstream.Call`), and the trace
  records the request exactly as built. That is how ordering and "not called"
  properties are stated.
- **Libraries are parameters.** The markdown renderer and `JSON.stringify` are functions
  in a `Js.Runtime` value: `md.render` on a string, `md.render` on any other value (it
  may return a string or throw), `JSON.stringify(v)` and `JSON.stringify(v, null, 2)`.
- **The environment is two raw values.** `process.env` becomes `Http.Env`, each key an
  `Option<string>`. A template literal writes an undefined value as `"undefined"`
  (`Js.Interp`). `!!v` is true for a defined, non-empty value (`Http.IsSet`).
- **Exceptions are `Failure` values.** An exception is a `Failure(Js.Thrown)`, and `:-`
  plays `await`/`throw`. `Js.Member` models member access: reading a property of
  undefined or null throws a TypeError, and arrays and strings answer canonical indices
  and `length`. The language's own conversions are defined here, not taken as
  parameters: decimal text of numbers (`Decimal`) and `+` on a JSON value
  (`Js.ToJsString`).
- **Responses are objects.** The `res` object is the class `Http.ServerResponse`.
  `setHeader`, `status`, `json` and `end` are methods on it. A header can be set and a
  body sent only while nothing has been sent yet.
- **Handlers are methods.** Each handler is a method that writes to `res` step by step,
  as the source does. Each pitch handler's `try` block is a separate method
  (`Generate`) that returns the outcome and the trace. Each method is proved equal to a
  pure specification (`Pipeline`, `Respond`), and the properties are proved as lemmas
  about that specification.
- **Definitions that are the model.** Some functions state the source's behaviour by
  their definitions alone. Their properties are proved in the lemmas of the "Model"
  table.
  - `Upstream.Await` (api/generate-info.js:25,37; server/routes/generate-info.js:12,23)
    turns an outcome into the reply or a thrown `RequestFailed` that keeps the message
    and the optional reply. The diagnostics probes match on the outcome directly, in
    `DebugApis.ProbeRecordOf`.
  - `Upstream.Render` (api/generate-info.js:72-73; server/routes/generate-info.js:45,59-62)
    renders string content with the runtime's string renderer and hands any other value
    to `renderValue`.
  - `ApiGenerateInfo.ReplaceQuotes` (api/generate-info.js:26,67) throws
    `CannotReadProperty("replace")` for an undefined key and gives `StripQuotes` of a
    defined one.
  - `ApiGenerateInfo.Destructure` (api/generate-info.js:21) throws
    `CannotDestructure("serviceProviderName")` for an undefined or null body.
  - `ServerGenerateInfo.NameOf` (server/routes/generate-info.js:13,32) throws
    `CannotReadProperty("name")` for an absent party and gives its `name` otherwise.
  - `Http.ServerErrorPayload` (api/generate-info.js:78-83;
    server/routes/generate-info.js:50-55) is the four-field 500 envelope.
  - `ApiGenerateInfo.SearchQuery` (api/generate-info.js:24) and
    `ServerGenerateInfo.SearchQuery` (server/routes/generate-info.js:13) are the two
    query templates.
  - `ApiGenerateInfo.PitchPrompt` (api/generate-info.js:46-61) and
    `ServerGenerateInfo.InsightPrompt` (server/routes/generate-info.js:32-34) are the two
    prompt templates.
  - `DebugApis.FailureText` (api/debug-apis.js:27,54) is the text of a failed probe,
    `DebugApis.ProbeRecordOf` (api/debug-apis.js:20-28,47-55) is one probe's entry, and
    `DebugApis.EnvVars` (api/debug-apis.js:60-65) is the `env_vars` object.
  - `Js.ToJsString` (api/debug-apis.js:27) is the string `+` makes of a JSON value,
    or the TypeError that `+` throws for an object with an own `toString` member.
  - `ApiGenerateInfo.Pipeline` and `ServerGenerateInfo.Pipeline` are the two `try`
    blocks (api/generate-info.js:20-75; server/routes/generate-info.js:10-47).
    `ApiGenerateInfo.Respond`, `ServerGenerateInfo.Respond` and `DebugApis.Respond` are
    the whole handlers (api/generate-info.js:4-85; server/routes/generate-info.js:7-57;
    api/debug-apis.js:3-67).
- **Line endings.** The source files have CRLF line endings. Template literals turn a
  CRLF into LF, so the prompts contain `"\n"`.

Some facts about the code may be unexpected:

- The credential clean-up deletes every `"`, wherever it is. It does not trim
  whitespace. The Express route does no clean-up at all.
- There is no validation step and no 400 status. A missing field reaches the prompt as
  `"undefined"`, or throws a TypeError that ends as a 500.
- A completion reply without `choices`, with an empty `choices`, or whose first choice
  has no `message` throws a TypeError while it is read. A reply whose `content` is
  undefined or not a string is passed on to the renderer, and what the renderer makes
  of it is the runtime's parameter. No "malformed upstream response" value is built.
- The search key travels in the JSON body (`api_key`). In the Express route it also
  goes in an `X-API-KEY` header.
- No handler has a diagnostic record mode. No handler accepts both body shapes: the
  serverless handler reads flat fields only, and the browser client sends nested ones
  (`ApiGenerateInfo.NestedClientBodyQuery`).

## Model

| member | source | states |
|---|---|---|
| `ApiGenerateInfo.StripQuotes` | api/generate-info.js:26 | the cleaned key contains no `"` and is no longer than the raw key |
| `ApiGenerateInfo.StripQuotesAppend` | api/generate-info.js:26 | cleaning works piecewise: cleaning `a + b` is cleaning `a`, then `b`; with the single-character case this fixes that all other characters stay, in order |
| `ApiGenerateInfo.StripQuotesKeepsQuoteFree` | api/generate-info.js:26 | a key without quotes is left unchanged, surrounding whitespace included (no trimming) |
| `ApiGenerateInfo.StripQuotesKeepsOthers` | api/generate-info.js:67 | every character other than `"` occurs as often after cleaning as before |
| `ApiGenerateInfo.StripQuotesIdempotent` | api/generate-info.js:67 | cleaning twice equals cleaning once |
| `ApiGenerateInfo.Generate` | api/generate-info.js:20-75 | the `try` block's outcome and call trace equal those of the specification `Pipeline` |
| `ApiGenerateInfo.Handle` | api/generate-info.js:4-85 | the response written to `res` and the trace equal those of the specification `Respond` |
| `ApiGenerateInfo.PreflightAnswered` | api/generate-info.js:10-13 | OPTIONS: status 200, no body, the CORS headers, no upstream call |
| `ApiGenerateInfo.OtherMethodsRejected` | api/generate-info.js:15-18 | any verb but POST or OPTIONS: 405 with `{error: 'Method not allowed'}`, no upstream call |
| `ApiGenerateInfo.CorsOnEveryPath` | api/generate-info.js:5-8 | every response carries exactly the three CORS headers |
| `ApiGenerateInfo.CallsInOrder` | api/generate-info.js:24-69 | the trace is empty, the search alone, or the search then the completion. The search is query `name + " " + customer + " " + context` with `search_depth 'basic'`, `max_results 5` and the cleaned key. The completion carries model `sonar`, the system instruction, the prompt embedding the indented search data, and `Bearer` plus the cleaned key |
| `ApiGenerateInfo.SearchIssuedExactly` | api/generate-info.js:21-34 | the search is sent if and only if the request is a POST with a body and the search key is defined |
| `ApiGenerateInfo.CompletionIssuedExactly` | api/generate-info.js:25-69 | the completion is sent if and only if the search succeeded and the completion key is defined |
| `ApiGenerateInfo.MissingSearchKeyNoCall` | api/generate-info.js:24-34 | with the search key undefined no upstream call is made and the answer is 500 |
| `ApiGenerateInfo.SucceedsExactly` | api/generate-info.js:71-75 | a POST gets 200 if and only if the body and both keys are defined, both calls succeeded, `choices[0].message.content` could be read and rendering it did not throw; the body is then `{result: md.render(content)}`, and a string content is rendered by the string renderer |
| `ApiGenerateInfo.WellFormedReplyRendered` | api/generate-info.js:71-75 | the documented completion reply shape yields 200 with the rendered text |
| `ApiGenerateInfo.FailureEnvelope` | api/generate-info.js:76-84 | a POST is answered 200 or 500. A 500 carries `message 'Internal Server Error'`, the two flags read from the raw environment values, and the first exception thrown: the destructuring of a missing body, `.replace` on a missing key, the search or completion rejection as it came, the TypeError of reading the reply, or the renderer's exception |
| `ApiGenerateInfo.QuotedEmptyKeyReportedSet` | api/generate-info.js:78-83 | a key configured as two quote characters is sent as the empty string, yet reported as set |
| `ApiGenerateInfo.NestedClientBodyQuery` | api/generate-info.js:21-24 | with the body the browser client sends, the query is `"undefined undefined " + context` |
| `Upstream.GeneratedContent` | api/generate-info.js:71 | reading `data.choices[0].message.content` either yields a value (possibly undefined) or throws the TypeError of one of its four member accesses (also server/routes/generate-info.js:44) |
| `Upstream.GeneratedContentOfWellFormed` | api/generate-info.js:71 | `choices[0].message.content` of `{choices: [{message: {content: text}}]}` is `text` |
| `Upstream.GeneratedContentFound` | api/generate-info.js:71 | in any object whose first choice has a `message` object, the generated content is that message's `content` |
| `Upstream.GeneratedContentMalformed` | api/generate-info.js:71 | missing `choices` throws reading `0`, an empty `choices` throws reading `message`, and a non-empty `choices` whose first choice is not null and has no `message` (an object without it, a string, a number or a boolean) throws reading `content` |
| `Js.Member` | api/generate-info.js:71 | member access throws exactly on undefined or null, and finds properties only on objects, arrays and strings |
| `Js.ArrayElementRead` | api/generate-info.js:71 | `a[i]` is the i-th element when it exists and undefined past the end |
| `Js.ToJsStringThrowsExactly` | api/debug-apis.js:27 | converting a JSON value with `+` throws exactly when some object in it, at any depth of arrays, has an own `toString` member |
| `Decimal.NatRoundTrip` | api/debug-apis.js:27 | the decimal text of a natural number reads back as that number |
| `Decimal.IntRoundTrip` | api/debug-apis.js:27 | the text `+` makes of an integer status reads back as that status |
| `Decimal.CanonicalIndexOfNumeral` | api/generate-info.js:71 | the numeral of `n` names array index `n` |
| `Http.ServerResponse.SetHeader` | api/generate-info.js:6-8 | sets or replaces one header; status and body unchanged |
| `Http.ServerResponse.Status` | api/generate-info.js:16 | sets the status code only |
| `Http.ServerResponse.Json` | api/generate-info.js:75 | sends the JSON envelope; headers and status unchanged |
| `Http.ServerResponse.End` | api/generate-info.js:11 | ends the response with no body |
| `ServerGenerateInfo.Generate` | server/routes/generate-info.js:10-47 | the route's `try` block equals the specification `Pipeline` |
| `ServerGenerateInfo.Handle` | server/routes/generate-info.js:7-57 | on a response not yet sent and still at status 200, the status, the body written to `res` and the trace equal the specification `Respond`; the headers already set, such as the CORS middleware's, are left as they were |
| `ServerGenerateInfo.AbsentPartyNoCall` | server/routes/generate-info.js:8-13 | an absent `serviceProvider` or `targetCustomer` gives 500 with no upstream call |
| `ServerGenerateInfo.CallsInOrder` | server/routes/generate-info.js:12-42 | the trace is empty, the search alone, or the search then the completion. The search is query `name + " and " + customer + " " + context`, with the raw key both as `api_key` and as `X-API-KEY`. The completion carries the prompt with the compact search data and `Bearer` plus the raw key |
| `ServerGenerateInfo.CompletionIssuedExactly` | server/routes/generate-info.js:12-42 | the completion is sent if and only if both parties are present and the search succeeded, whatever the keys |
| `ServerGenerateInfo.SearchFailureNoCompletion` | server/routes/generate-info.js:12-23 | a failed search gives 500 with that rejection, and the completion is never sent |
| `ServerGenerateInfo.CredentialsSentRaw` | server/routes/generate-info.js:14-39 | quotes around a key are sent along; an undefined completion key becomes `Bearer undefined` |
| `ServerGenerateInfo.SucceedsExactly` | server/routes/generate-info.js:44-47 | 200 (the default status) if and only if both parties are present, both calls succeeded, the content could be read and rendering it did not throw; the body is `{result: md.render(content)}`, and a string content is rendered by the string renderer |
| `ServerGenerateInfo.WellFormedReplyRendered` | server/routes/generate-info.js:44-47 | the documented reply shape yields 200 with the rendered text |
| `ServerGenerateInfo.FailureEnvelope` | server/routes/generate-info.js:48-56 | every failure is 500 with the four-field envelope, the truthiness flags, and the first exception thrown: `.name` of an absent party, the search or completion rejection as it came, the TypeError of reading the reply, or the renderer's exception |
| `DebugApis.KeyPreview` | api/debug-apis.js:63-64 | `'not set'` exactly when the key is not truthy; otherwise the first `min(8, len)` characters followed by `...` |
| `DebugApis.KeyPreviewRevealsOnlyPrefix` | api/debug-apis.js:63-64 | two set keys with the same first eight characters have the same preview |
| `DebugApis.ProbeResults.constructor` | api/debug-apis.js:6 | the results object starts with neither entry |
| `DebugApis.Handle` | api/debug-apis.js:3-67 | the response written to `res` and the trace equal the specification `Respond`, including leaving the response unsent when the Tavily `catch` block throws |
| `DebugApis.OkUnlessConversionThrows` | api/debug-apis.js:24-66 | nothing is sent exactly when the Tavily probe was rejected with a reply whose data holds an object with an own `toString` member, and then only the Tavily probe was issued; otherwise the answer is 200 with the diagnostics |
| `DebugApis.BothProbesSent` | api/debug-apis.js:9-46 | whenever a response is sent, both probes were sent, Tavily first. Tavily gets query `'test query'`, `search_depth 'basic'`, `max_results 1` and the raw key; Perplexity gets `Say hello` and `Bearer` plus the raw key |
| `DebugApis.ProbesIndependent` | api/debug-apis.js:9-56 | whether a response is sent depends on the Tavily outcome only, and each probe's entry depends on its own outcome only |
| `DebugApis.ProbeRecorded` | api/debug-apis.js:20-28 | a success records the upstream status. A rejection without a reply records its message. A rejection with a reply records text whose head reads back as the status, followed by `': '` and the described data, or throws what describing the data throws |
| `DebugApis.TavilyObjectDataOpaque` | api/debug-apis.js:27 | a Tavily error reply whose data is an object without an own `toString` member is recorded as `status: [object Object]` |
| `DebugApis.TavilyToStringMemberUnanswered` | api/debug-apis.js:27 | a Tavily error reply whose data is an object with an own `toString` member leaves the response unsent, with only the Tavily probe issued |
| `DebugApis.EnvVarsReported` | api/debug-apis.js:60-65 | when a response is sent, the flags are the raw truthiness of the keys, and a preview is `'not set'` exactly when its flag is false |

## Left out

- The `Content-Type: application/json` request headers that each handler adds to its
  posts (for example api/generate-info.js:32,66). A recorded request carries only the
  credential headers, `X-API-KEY` and `Authorization`.
- `Js.ToJsString`: JSON numbers are integers written as plain decimal digits.
  JavaScript numbers are doubles. An integer of 2^53 or more is written with the
  shortest digits that read back to the same double (`String(2**60)` is
  `"1152921504606847000"`), and one of 1e21 or more in exponent form. The model
  does neither. This affects the Tavily error text when the reply's status, its data,
  or any number inside array data is that large.
- What the serverless platform answers when the diagnostics handler's promise rejects
  is not part of this model. The model records the response as the handler leaves it:
  the CORS header set and nothing sent.
- The HTTP transport, axios, TLS and timeouts. The upstream calls are given outcomes.
  A request is recorded as the handler builds it, and how axios serialises it is not
  modelled. An undefined field or header is `None`, taken as left out of the request.
- The Remarkable renderer, `JSON.stringify`, and the `Content-Type` header that
  `res.json` adds. These are library or runtime code, so they are taken as parameters
  or not modelled.
- What Remarkable does with a `content` that is not a string (undefined, a number, an
  object) is library code and is not visible here. The model takes it as the runtime's
  `renderValue`, which may give a string or throw.
- The text of `error.message`. The model keeps which exception was thrown (`Js.Thrown`):
  an upstream rejection carries its message, and the engine's TypeError wording is not
  modelled.
- Values the model does not represent:
  - request body fields and party fields other than strings or absent values
    (numbers, nested objects);
  - a party that is a string or number rather than an object;
  - a fractional number in JSON data;
  - duplicate member names in JSON.
- `DebugApis.KeyPreview`: JavaScript counts UTF-16 code units, while Dafny strings are
  sequences of Unicode scalar values. The model counts characters, which agrees for
  the ASCII keys these services issue.
- `console.error` logging (lines 77 and 49 of the two pitch handlers). It is output
  only.
- The Express application wiring: middleware, static files and the `listen` call in
  server/server.js. The route is modelled for POST only, and its body is an object, as
  the JSON body parser always leaves it.
- The React form, the browser end-to-end test, `api/test.js` and the styling
  configuration. These are presentation or echo code.
- Concurrency. `await` here is a straight-line sequence, and each request is handled
  on its own.
