/** The Express route `POST /generate-info`: the same search-then-complete pipeline as
    the serverless handler, but with nested party objects, a different query and
    prompt, credentials used exactly as configured, and no method dispatch or CORS
    headers of its own. */
module ServerGenerateInfo {
  import opened Wrappers
  import opened Js
  import opened Upstream
  import opened Http

  /** A `serviceProvider` or `targetCustomer` object; a missing member is `None`. */
  datatype Party = Party(name: Option<string>, url: Option<string>)

  /** `req.body` as the JSON body parser leaves it: an object, whose parties may be
      absent (or null, which behaves the same). */
  datatype Body = Body(serviceProvider: Option<Party>, targetCustomer: Option<Party>, context: Option<string>)

  /** `party.name`: a TypeError when the party is absent. */
  function NameOf(party: Option<Party>): Result<Option<string>, Thrown> {
    match party
    case Some(p) => Success(p.name)
    case None => Failure(CannotReadProperty("name"))
  }

  function SearchQuery(providerName: Option<string>, customerName: Option<string>, context: Option<string>): string {
    Interp(providerName) + " and " + Interp(customerName) + " " + Interp(context)
  }

  /** The key goes, as configured, into the body and into the `X-API-KEY` header. */
  function SearchRequestFor(provider: Party, customer: Party, context: Option<string>, env: Env): SearchRequest {
    SearchRequest(env.tavilyKey, SearchQuery(provider.name, customer.name, context), None, None, env.tavilyKey)
  }

  /** The continuation lines of the template literal keep the source's indentation. */
  const PromptIndent := "                    "

  /** The user message; `searchResults` is the compact JSON text of the search reply. */
  function InsightPrompt(provider: Party, customer: Party, context: Option<string>, searchResults: string): string {
    "Generate a business insight report for " + Interp(provider.name) + " (" + Interp(provider.url) + ")"
      + " targeting " + Interp(customer.name) + " (" + Interp(customer.url) + "). \n"
      + PromptIndent + "Additional Context: " + Interp(context) + "\n"
      + PromptIndent + "Use this additional information: " + searchResults
  }

  function CompletionRequestFor(provider: Party, customer: Party, context: Option<string>,
                                searchData: Json, env: Env, rt: Runtime): CompletionRequest {
    CompletionRequest(
      CompletionModel,
      [ChatMessage("system", SystemInstruction),
       ChatMessage("user", InsightPrompt(provider, customer, context, rt.stringify(searchData)))],
      "Bearer " + Interp(env.perplexityKey))
  }

  /** What the route's `try` block does, stopping at the first exception. */
  function Pipeline(body: Body, env: Env, search: Outcome, completion: Outcome, rt: Runtime): Run {
    var providerName := NameOf(body.serviceProvider);
    if providerName.Failure? then Run(Failure(providerName.error), []) else
    var customerName := NameOf(body.targetCustomer);
    if customerName.Failure? then Run(Failure(customerName.error), []) else
    var provider := body.serviceProvider.value;
    var customer := body.targetCustomer.value;
    var afterSearch := [Search(SearchRequestFor(provider, customer, body.context, env))];
    var searchReply := Await(search);
    if searchReply.Failure? then Run(Failure(searchReply.error), afterSearch) else
    var afterCompletion := afterSearch
      + [Completion(CompletionRequestFor(provider, customer, body.context, searchReply.value.data, env, rt))];
    var completionReply := Await(completion);
    if completionReply.Failure? then Run(Failure(completionReply.error), afterCompletion) else
    var markdown := GeneratedContent(completionReply.value.data);
    if markdown.Failure? then Run(Failure(markdown.error), afterCompletion) else
    Run(Render(markdown.value, rt), afterCompletion)
  }

  /** The response and trace the route produces. On success the status is left at
      its default of 200. The headers are those the route itself sets, which are none:
      the CORS middleware in front of it sets its own before the route runs. */
  function Respond(body: Body, env: Env, search: Outcome, completion: Outcome, rt: Runtime): Exchange {
    var run := Pipeline(body, env, search, completion, rt);
    match run.outcome
    case Success(html) => Exchange(HttpResponse(200, map[], Some(Pitch(html))), run.trace)
    case Failure(error) => Exchange(HttpResponse(500, map[], Some(ServerErrorPayload(error, env))), run.trace)
  }

  /** The route's `try` block: the two awaited posts strictly in sequence. */
  method Generate(body: Body, env: Env, search: Outcome, completion: Outcome, rt: Runtime)
    returns (outcome: Result<string, Thrown>, trace: seq<Call>)
    ensures Run(outcome, trace) == Pipeline(body, env, search, completion, rt)
  {
    trace := [];
    var _ :- NameOf(body.serviceProvider);
    var _ :- NameOf(body.targetCustomer);
    var provider, customer := body.serviceProvider.value, body.targetCustomer.value;
    trace := trace + [Search(SearchRequestFor(provider, customer, body.context, env))];
    var searchReply :- Await(search);
    trace := trace + [Completion(CompletionRequestFor(provider, customer, body.context, searchReply.data, env, rt))];
    var completionReply :- Await(completion);
    var markdown :- GeneratedContent(completionReply.data);
    outcome := Render(markdown, rt);
  }

  /** The route handler, writing to `res` as the source does. */
  method Handle(body: Body, env: Env, search: Outcome, completion: Outcome, rt: Runtime, res: ServerResponse)
    returns (trace: seq<Call>)
    requires res.sent.None? && res.statusCode == 200
    modifies res
    ensures res.headers == old(res.headers)
    ensures res.statusCode == Respond(body, env, search, completion, rt).response.status
    ensures res.sent == Respond(body, env, search, completion, rt).response.body
    ensures trace == Respond(body, env, search, completion, rt).trace
  {
    var outcome;
    outcome, trace := Generate(body, env, search, completion, rt);
    match outcome {
      case Success(html) =>
        res.Json(Pitch(html));
      case Failure(error) =>
        res.Status(500);
        res.Json(ServerErrorPayload(error, env));
    }
  }

  // ---------------------------------------------------------------------------
  // Properties of the route

  /** An absent party makes `.name` throw before anything is sent. */
  lemma AbsentPartyNoCall(body: Body, env: Env, search: Outcome, completion: Outcome, rt: Runtime)
    requires body.serviceProvider.None? || body.targetCustomer.None?
    ensures Respond(body, env, search, completion, rt)
         == Exchange(HttpResponse(500, map[], Some(ServerErrorPayload(CannotReadProperty("name"), env))), [])
  {
  }

  /** The trace is empty, the search alone, or the search followed by the
      completion, each carrying the credentials exactly as configured. */
  lemma CallsInOrder(body: Body, env: Env, search: Outcome, completion: Outcome, rt: Runtime)
    ensures var trace := Respond(body, env, search, completion, rt).trace;
      && |trace| <= 2
      && (|trace| >= 1 ==>
            body.serviceProvider.Some? && body.targetCustomer.Some?
            && trace[0] == Search(SearchRequest(
                 env.tavilyKey,
                 SearchQuery(body.serviceProvider.value.name, body.targetCustomer.value.name, body.context),
                 None, None, env.tavilyKey)))
      && (|trace| == 2 ==>
            search.Resolved?
            && trace[1] == Completion(CompletionRequest(CompletionModel,
                 [ChatMessage("system", SystemInstruction),
                  ChatMessage("user", InsightPrompt(body.serviceProvider.value, body.targetCustomer.value,
                                                    body.context, rt.stringify(search.reply.data)))],
                 "Bearer " + Interp(env.perplexityKey))))
  {
  }

  /** The completion is issued exactly when both parties are present and the search
      succeeded; unlike the serverless handler, a missing key does not stop it. */
  lemma CompletionIssuedExactly(body: Body, env: Env, search: Outcome, completion: Outcome, rt: Runtime)
    ensures |Respond(body, env, search, completion, rt).trace| == 2
        <==> body.serviceProvider.Some? && body.targetCustomer.Some? && search.Resolved?
  {
  }

  /** A failed search is answered 500 with that rejection, and the completion
      service is never called. */
  lemma SearchFailureNoCompletion(body: Body, env: Env, search: Outcome, completion: Outcome, rt: Runtime)
    requires body.serviceProvider.Some? && body.targetCustomer.Some? && search.Rejected?
    ensures var x := Respond(body, env, search, completion, rt);
      && |x.trace| == 1 && x.trace[0].Search?
      && x.response == HttpResponse(500, map[],
           Some(ServerErrorPayload(RequestFailed(search.message, search.response), env)))
  {
  }

  /** Quotes around a configured key are sent along, and an undefined completion key
      is sent as the text "undefined". */
  lemma CredentialsSentRaw(body: Body, searchReply: Reply, completion: Outcome, rt: Runtime)
    requires body.serviceProvider.Some? && body.targetCustomer.Some?
    ensures var trace := Respond(body, Env(Some("\"k\""), None), Resolved(searchReply), completion, rt).trace;
      && trace[0].search.apiKey == Some("\"k\"")
      && trace[0].search.apiKeyHeader == Some("\"k\"")
      && trace[1].completion.authorization == "Bearer undefined"
  {
  }

  /** A 200 answer carries the rendered generated text, and happens exactly when the
      parties are present, both calls succeeded and the rendering succeeded; generated
      text that is a string is rendered by `md.render` on strings. */
  lemma SucceedsExactly(body: Body, env: Env, search: Outcome, completion: Outcome, rt: Runtime)
    ensures var response := Respond(body, env, search, completion, rt).response;
      response.status == 200 <==>
        (&& body.serviceProvider.Some? && body.targetCustomer.Some?
         && search.Resolved? && completion.Resolved?
         && GeneratedContent(completion.reply.data).Success?
         && Render(GeneratedContent(completion.reply.data).value, rt).Success?)
    ensures var response := Respond(body, env, search, completion, rt).response;
      response.status == 200 ==>
        response.body == Some(Pitch(Render(GeneratedContent(completion.reply.data).value, rt).value))
    ensures var response := Respond(body, env, search, completion, rt).response;
      (&& body.serviceProvider.Some? && body.targetCustomer.Some?
       && search.Resolved? && completion.Resolved?
       && GeneratedContent(completion.reply.data).Success?
       && GeneratedContent(completion.reply.data).value.Some?
       && GeneratedContent(completion.reply.data).value.value.JString?)
      ==> response == HttpResponse(200, map[],
                        Some(Pitch(rt.render(GeneratedContent(completion.reply.data).value.value.s))))
  {
  }

  lemma WellFormedReplyRendered(body: Body, env: Env, searchReply: Reply, status: int, text: string, rt: Runtime)
    requires body.serviceProvider.Some? && body.targetCustomer.Some?
    ensures Respond(body, env, Resolved(searchReply), Resolved(Reply(status, WellFormedCompletion(text))), rt).response
         == HttpResponse(200, map[], Some(Pitch(rt.render(text))))
  {
    GeneratedContentOfWellFormed(text);
  }

  /** Every failure is answered 500 with the error envelope, the raw key flags, and
      the first exception thrown: `.name` of an absent party, the rejection of a post,
      a member access on the reply, or the renderer. */
  lemma FailureEnvelope(body: Body, env: Env, search: Outcome, completion: Outcome, rt: Runtime)
    ensures var response := Respond(body, env, search, completion, rt).response;
      response.status == 200 || response.status == 500
    ensures var response := Respond(body, env, search, completion, rt).response;
      response.status == 500 ==>
        response.body.Some? && response.body.value.ServerError?
        && response.body.value.message == "Internal Server Error"
        && response.body.value.tavilyKeySet == IsSet(env.tavilyKey)
        && response.body.value.perplexityKeySet == IsSet(env.perplexityKey)
    ensures var response := Respond(body, env, search, completion, rt).response;
      response.status == 500 ==>
        response.body.value.thrown ==
          if body.serviceProvider.None? || body.targetCustomer.None? then CannotReadProperty("name")
          else if search.Rejected? then RequestFailed(search.message, search.response)
          else if completion.Rejected? then RequestFailed(completion.message, completion.response)
          else if GeneratedContent(completion.reply.data).Failure? then GeneratedContent(completion.reply.data).error
          else Render(GeneratedContent(completion.reply.data).value, rt).error
  {
  }
}
