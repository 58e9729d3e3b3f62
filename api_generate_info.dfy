/** The serverless pitch handler: CORS headers, method dispatch, then inside one
    `try` the search call, the completion call, the reading of the generated text and
    its rendering; any exception becomes the 500 envelope. */
module ApiGenerateInfo {
  import opened Wrappers
  import opened Js
  import opened Upstream
  import opened Http

  /** The flat request fields this handler destructures from `req.body`. A field the
      body does not have is `None` (the browser client sends nested `serviceProvider`
      and `targetCustomer` objects, so for it the four party fields are all `None`). */
  datatype FlatBody = FlatBody(
    serviceProviderName: Option<string>,
    serviceProviderUrl: Option<string>,
    targetCustomerName: Option<string>,
    targetCustomerUrl: Option<string>,
    context: Option<string>)

  /** `req.method` (the field is `httpMethod` because `method` is a Dafny keyword) and
      `req.body`; a body of undefined or null is `None`. */
  datatype Request = Request(httpMethod: string, body: Option<FlatBody>)

  const CorsHeaders: map<string, string> := map[
    "Access-Control-Allow-Origin" := "*",
    "Access-Control-Allow-Methods" := "POST, OPTIONS",
    "Access-Control-Allow-Headers" := "Content-Type"]

  // ---------------------------------------------------------------------------
  // Credential normalisation: `key.replace(/"/g, '')`

  predicate QuoteFree(s: string) {
    forall i :: 0 <= i < |s| ==> s[i] != '"'
  }

  /** Deletes every double quote, wherever it stands, and nothing else. */
  function StripQuotes(s: string): (r: string)
    ensures QuoteFree(r)
    ensures |r| <= |s|
  {
    if |s| == 0 then ""
    else (if s[0] == '"' then "" else [s[0]]) + StripQuotes(s[1..])
  }

  lemma {:induction false} StripQuotesAppend(a: string, b: string)
    ensures StripQuotes(a + b) == StripQuotes(a) + StripQuotes(b)
  {
    if |a| > 0 {
      assert (a + b)[1..] == a[1..] + b;
      StripQuotesAppend(a[1..], b);
    } else {
      assert a + b == b;
    }
  }

  /** A string without quotes (surrounding whitespace included) is left as it is. */
  lemma {:induction false} StripQuotesKeepsQuoteFree(s: string)
    requires QuoteFree(s)
    ensures StripQuotes(s) == s
  {
    if |s| > 0 {
      StripQuotesKeepsQuoteFree(s[1..]);
    }
  }

  lemma StripQuotesIdempotent(s: string)
    ensures StripQuotes(StripQuotes(s)) == StripQuotes(s)
  {
    StripQuotesKeepsQuoteFree(StripQuotes(s));
  }

  /** Every character other than `"` keeps its number of occurrences. */
  lemma {:induction false} StripQuotesKeepsOthers(s: string, c: char)
    requires c != '"'
    ensures multiset(StripQuotes(s))[c] == multiset(s)[c]
  {
    if |s| > 0 {
      StripQuotesKeepsOthers(s[1..], c);
      assert s == [s[0]] + s[1..];
    }
  }

  /** `v.replace(/"/g, '')` on an environment value: a TypeError when undefined. */
  function ReplaceQuotes(v: Option<string>): Result<string, Thrown> {
    match v
    case Some(s) => Success(StripQuotes(s))
    case None => Failure(CannotReadProperty("replace"))
  }

  // ---------------------------------------------------------------------------
  // Request construction

  /** `const { serviceProviderName, ... } = req.body`. */
  function Destructure(body: Option<FlatBody>): Result<FlatBody, Thrown> {
    match body
    case Some(b) => Success(b)
    case None => Failure(CannotDestructure("serviceProviderName"))
  }

  function SearchQuery(b: FlatBody): string {
    Interp(b.serviceProviderName) + " " + Interp(b.targetCustomerName) + " " + Interp(b.context)
  }

  function SearchRequestFor(b: FlatBody, tavilyKey: string): SearchRequest {
    SearchRequest(Some(tavilyKey), SearchQuery(b), Some("basic"), Some(5), None)
  }

  const PitchOpening := "Based on the following information, generate a comprehensive business pitch that "
  const PitchApproach := " can use to approach "
  const PitchInstructions :=
    "Please provide:\n"
    + "1. A brief overview of the target customer's business and needs\n"
    + "2. How the service provider's offerings align with these needs\n"
    + "3. Specific value propositions and benefits\n"
    + "4. Recommended approach and next steps\n"
    + "\n"
    + "Format the response in clear, professional language that can be used in a business pitch."

  /** The user message; `searchResults` is the indented JSON text of the search reply. */
  function PitchPrompt(b: FlatBody, searchResults: string): string {
    var provider := Interp(b.serviceProviderName);
    var customer := Interp(b.targetCustomerName);
    PitchOpening + provider + PitchApproach + customer + ".\n"
      + "\n"
      + "Service Provider: " + provider + " (" + Interp(b.serviceProviderUrl) + ")\n"
      + "Target Customer: " + customer + " (" + Interp(b.targetCustomerUrl) + ")\n"
      + "Context: " + Interp(b.context) + "\n"
      + "\n"
      + "Search Results:\n"
      + searchResults + "\n"
      + "\n"
      + PitchInstructions
  }

  function CompletionRequestFor(b: FlatBody, searchData: Json, perplexityKey: string, rt: Runtime): CompletionRequest {
    CompletionRequest(
      CompletionModel,
      [ChatMessage("system", SystemInstruction),
       ChatMessage("user", PitchPrompt(b, rt.stringifyIndented(searchData)))],
      "Bearer " + perplexityKey)
  }

  // ---------------------------------------------------------------------------
  // The `try` block and the handler

  /** What the `try` block does, step by step, stopping at the first exception. */
  function Pipeline(body: Option<FlatBody>, env: Env, search: Outcome, completion: Outcome, rt: Runtime): Run {
    var fields := Destructure(body);
    if fields.Failure? then Run(Failure(fields.error), []) else
    var b := fields.value;
    var tavilyKey := ReplaceQuotes(env.tavilyKey);
    if tavilyKey.Failure? then Run(Failure(tavilyKey.error), []) else
    var afterSearch := [Search(SearchRequestFor(b, tavilyKey.value))];
    var searchReply := Await(search);
    if searchReply.Failure? then Run(Failure(searchReply.error), afterSearch) else
    var perplexityKey := ReplaceQuotes(env.perplexityKey);
    if perplexityKey.Failure? then Run(Failure(perplexityKey.error), afterSearch) else
    var afterCompletion := afterSearch
      + [Completion(CompletionRequestFor(b, searchReply.value.data, perplexityKey.value, rt))];
    var completionReply := Await(completion);
    if completionReply.Failure? then Run(Failure(completionReply.error), afterCompletion) else
    var markdown := GeneratedContent(completionReply.value.data);
    if markdown.Failure? then Run(Failure(markdown.error), afterCompletion) else
    Run(Render(markdown.value, rt), afterCompletion)
  }

  /** The response and trace the handler produces for one request. */
  function Respond(req: Request, env: Env, search: Outcome, completion: Outcome, rt: Runtime): Exchange {
    if req.httpMethod == "OPTIONS" then
      Exchange(HttpResponse(200, CorsHeaders, Some(Empty)), [])
    else if req.httpMethod != "POST" then
      Exchange(HttpResponse(405, CorsHeaders, Some(NotAllowed("Method not allowed"))), [])
    else
      var run := Pipeline(req.body, env, search, completion, rt);
      match run.outcome
      case Success(html) => Exchange(HttpResponse(200, CorsHeaders, Some(Pitch(html))), run.trace)
      case Failure(error) => Exchange(HttpResponse(500, CorsHeaders, Some(ServerErrorPayload(error, env))), run.trace)
  }

  /** The `try` block: the two awaited posts strictly in sequence. */
  method Generate(body: Option<FlatBody>, env: Env, search: Outcome, completion: Outcome, rt: Runtime)
    returns (outcome: Result<string, Thrown>, trace: seq<Call>)
    ensures Run(outcome, trace) == Pipeline(body, env, search, completion, rt)
  {
    trace := [];
    var b :- Destructure(body);
    var tavilyKey :- ReplaceQuotes(env.tavilyKey);
    trace := trace + [Search(SearchRequestFor(b, tavilyKey))];
    var searchReply :- Await(search);
    var perplexityKey :- ReplaceQuotes(env.perplexityKey);
    trace := trace + [Completion(CompletionRequestFor(b, searchReply.data, perplexityKey, rt))];
    var completionReply :- Await(completion);
    var markdown :- GeneratedContent(completionReply.data);
    outcome := Render(markdown, rt);
  }

  /** The exported handler, writing to `res` as the source does. */
  method Handle(req: Request, env: Env, search: Outcome, completion: Outcome, rt: Runtime, res: ServerResponse)
    returns (trace: seq<Call>)
    requires res.Pristine()
    modifies res
    ensures Exchange(res.View(), trace) == Respond(req, env, search, completion, rt)
  {
    res.SetHeader("Access-Control-Allow-Origin", "*");
    res.SetHeader("Access-Control-Allow-Methods", "POST, OPTIONS");
    res.SetHeader("Access-Control-Allow-Headers", "Content-Type");
    trace := [];
    if req.httpMethod == "OPTIONS" {
      res.Status(200);
      res.End();
      return;
    }
    if req.httpMethod != "POST" {
      res.Status(405);
      res.Json(NotAllowed("Method not allowed"));
      return;
    }
    var outcome;
    outcome, trace := Generate(req.body, env, search, completion, rt);
    match outcome {
      case Success(html) =>
        res.Status(200);
        res.Json(Pitch(html));
      case Failure(error) =>
        res.Status(500);
        res.Json(ServerErrorPayload(error, env));
    }
  }

  // ---------------------------------------------------------------------------
  // Properties of the handler

  lemma PreflightAnswered(req: Request, env: Env, search: Outcome, completion: Outcome, rt: Runtime)
    requires req.httpMethod == "OPTIONS"
    ensures Respond(req, env, search, completion, rt) == Exchange(HttpResponse(200, CorsHeaders, Some(Empty)), [])
  {
  }

  lemma OtherMethodsRejected(req: Request, env: Env, search: Outcome, completion: Outcome, rt: Runtime)
    requires req.httpMethod != "OPTIONS" && req.httpMethod != "POST"
    ensures Respond(req, env, search, completion, rt)
         == Exchange(HttpResponse(405, CorsHeaders, Some(NotAllowed("Method not allowed"))), [])
  {
  }

  /** The three CORS headers, and only they, are on every response. */
  lemma CorsOnEveryPath(req: Request, env: Env, search: Outcome, completion: Outcome, rt: Runtime)
    ensures Respond(req, env, search, completion, rt).response.headers == CorsHeaders
  {
  }

  /** The trace is empty, the search alone, or the search followed by the completion,
      each sent exactly as built from the request and the raw credentials. */
  lemma CallsInOrder(req: Request, env: Env, search: Outcome, completion: Outcome, rt: Runtime)
    ensures var trace := Respond(req, env, search, completion, rt).trace;
      && |trace| <= 2
      && (|trace| >= 1 ==>
            req.httpMethod == "POST" && req.body.Some? && env.tavilyKey.Some?
            && trace[0] == Search(SearchRequest(Some(StripQuotes(env.tavilyKey.value)),
                                                SearchQuery(req.body.value), Some("basic"), Some(5), None)))
      && (|trace| == 2 ==>
            search.Resolved? && env.perplexityKey.Some?
            && trace[1] == Completion(CompletionRequest(CompletionModel,
                 [ChatMessage("system", SystemInstruction),
                  ChatMessage("user", PitchPrompt(req.body.value, rt.stringifyIndented(search.reply.data)))],
                 "Bearer " + StripQuotes(env.perplexityKey.value))))
  {
  }

  /** The search is issued exactly when the request is a POST with a body and the
      search key is defined. */
  lemma SearchIssuedExactly(req: Request, env: Env, search: Outcome, completion: Outcome, rt: Runtime)
    ensures |Respond(req, env, search, completion, rt).trace| >= 1
        <==> req.httpMethod == "POST" && req.body.Some? && env.tavilyKey.Some?
  {
  }

  /** The completion is issued exactly when the search succeeded and the completion
      key is defined. */
  lemma CompletionIssuedExactly(req: Request, env: Env, search: Outcome, completion: Outcome, rt: Runtime)
    ensures var trace := Respond(req, env, search, completion, rt).trace;
      (exists i :: 0 <= i < |trace| && trace[i].Completion?)
        <==> req.httpMethod == "POST" && req.body.Some? && env.tavilyKey.Some?
             && search.Resolved? && env.perplexityKey.Some?
  {
    var trace := Respond(req, env, search, completion, rt).trace;
    if req.httpMethod == "POST" && req.body.Some? && env.tavilyKey.Some? && search.Resolved? && env.perplexityKey.Some? {
      assert trace[1].Completion?;
    }
  }

  /** Without a search key nothing is sent upstream and the answer is a 500. */
  lemma MissingSearchKeyNoCall(req: Request, env: Env, search: Outcome, completion: Outcome, rt: Runtime)
    requires req.httpMethod == "POST" && env.tavilyKey.None?
    ensures Respond(req, env, search, completion, rt).trace == []
    ensures Respond(req, env, search, completion, rt).response.status == 500
  {
  }

  /** A 200 answer to a POST carries the rendered generated text, and happens exactly
      when every step succeeded, including the rendering; generated text that is a
      string is rendered by `md.render` on strings. */
  lemma SucceedsExactly(req: Request, env: Env, search: Outcome, completion: Outcome, rt: Runtime)
    requires req.httpMethod == "POST"
    ensures var response := Respond(req, env, search, completion, rt).response;
      response.status == 200 <==>
        (&& req.body.Some? && env.tavilyKey.Some? && env.perplexityKey.Some?
         && search.Resolved? && completion.Resolved?
         && GeneratedContent(completion.reply.data).Success?
         && Render(GeneratedContent(completion.reply.data).value, rt).Success?)
    ensures var response := Respond(req, env, search, completion, rt).response;
      response.status == 200 ==>
        response.body == Some(Pitch(Render(GeneratedContent(completion.reply.data).value, rt).value))
    ensures var response := Respond(req, env, search, completion, rt).response;
      (&& req.body.Some? && env.tavilyKey.Some? && env.perplexityKey.Some?
       && search.Resolved? && completion.Resolved?
       && GeneratedContent(completion.reply.data).Success?
       && GeneratedContent(completion.reply.data).value.Some?
       && GeneratedContent(completion.reply.data).value.value.JString?)
      ==> response == HttpResponse(200, CorsHeaders,
                        Some(Pitch(rt.render(GeneratedContent(completion.reply.data).value.value.s))))
  {
  }

  /** The documented completion reply is rendered into the 200 answer. */
  lemma WellFormedReplyRendered(req: Request, env: Env, searchReply: Reply, status: int, text: string, rt: Runtime)
    requires req.httpMethod == "POST" && req.body.Some?
    requires env.tavilyKey.Some? && env.perplexityKey.Some?
    ensures Respond(req, env, Resolved(searchReply), Resolved(Reply(status, WellFormedCompletion(text))), rt).response
         == HttpResponse(200, CorsHeaders, Some(Pitch(rt.render(text))))
  {
    GeneratedContentOfWellFormed(text);
  }

  /** Every POST that does not succeed is answered 500 with the error envelope, whose
      key flags are read from the raw environment values and whose error is the first
      exception thrown: the destructuring of a missing body, `.replace` on a missing
      key, the rejection of a post, a member access on the reply, or the renderer. */
  lemma FailureEnvelope(req: Request, env: Env, search: Outcome, completion: Outcome, rt: Runtime)
    requires req.httpMethod == "POST"
    ensures var response := Respond(req, env, search, completion, rt).response;
      response.status == 200 || response.status == 500
    ensures var response := Respond(req, env, search, completion, rt).response;
      response.status == 500 ==>
        response.body.Some? && response.body.value.ServerError?
        && response.body.value.message == "Internal Server Error"
        && response.body.value.tavilyKeySet == IsSet(env.tavilyKey)
        && response.body.value.perplexityKeySet == IsSet(env.perplexityKey)
    ensures var response := Respond(req, env, search, completion, rt).response;
      response.status == 500 ==>
        response.body.value.thrown ==
          if req.body.None? then CannotDestructure("serviceProviderName")
          else if env.tavilyKey.None? then CannotReadProperty("replace")
          else if search.Rejected? then RequestFailed(search.message, search.response)
          else if env.perplexityKey.None? then CannotReadProperty("replace")
          else if completion.Rejected? then RequestFailed(completion.message, completion.response)
          else if GeneratedContent(completion.reply.data).Failure? then GeneratedContent(completion.reply.data).error
          else Render(GeneratedContent(completion.reply.data).value, rt).error
  {
  }

  /** A key configured as `""` (two quote characters) is reported as set, although
      what is sent is the empty string. */
  lemma QuotedEmptyKeyReportedSet(req: Request, search: Outcome, completion: Outcome, rt: Runtime)
    requires req.httpMethod == "POST" && req.body.Some? && search.Rejected?
    ensures var x := Respond(req, Env(Some("\"\""), None), search, completion, rt);
      && x.trace == [Search(SearchRequest(Some(""), SearchQuery(req.body.value), Some("basic"), Some(5), None))]
      && x.response.body == Some(ServerError("Internal Server Error",
                                             RequestFailed(search.message, search.response), true, false))
  {
  }

  /** The body the browser client sends has nested parties, so the flat fields read
      here are all undefined and only the context reaches the query intact. */
  lemma NestedClientBodyQuery(context: string)
    ensures SearchQuery(FlatBody(None, None, None, None, Some(context))) == "undefined undefined " + context
  {
  }
}
