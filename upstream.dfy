/** The two upstream services as the handlers use them: the search request sent to
    Tavily, the chat-completion request sent to Perplexity, the given outcome of each
    call, and the reading of the generated text out of a completion reply. */
module Upstream {
  import opened Wrappers
  import opened Js
  import opened Decimal

  /** The JSON body of a POST to the search endpoint, plus the `X-API-KEY` header.
      A field or header whose value is undefined is `None`. */
  datatype SearchRequest = SearchRequest(
    apiKey: Option<string>,
    query: string,
    searchDepth: Option<string>,
    maxResults: Option<int>,
    apiKeyHeader: Option<string>)

  datatype ChatMessage = ChatMessage(role: string, content: string)

  /** The JSON body of a POST to the chat-completion endpoint, plus its
      `Authorization` header. */
  datatype CompletionRequest = CompletionRequest(
    model: string,
    messages: seq<ChatMessage>,
    authorization: string)

  /** One upstream call actually issued, in a handler's trace. */
  datatype Call = Search(search: SearchRequest) | Completion(completion: CompletionRequest)

  /** How an awaited `axios.post` settles: resolved with the reply, or rejected
      with an error that has a message and, when the server answered, its reply. */
  datatype Outcome = Resolved(reply: Reply) | Rejected(message: string, response: Option<Reply>)

  /** What a handler's `try` block produced (the value or the exception it threw)
      and the upstream calls it issued, in order. */
  datatype Run = Run(outcome: Result<string, Thrown>, trace: seq<Call>)

  const CompletionModel := "sonar"
  const SystemInstruction := "You are a helpful assistant that generates business insights."

  /** `await axios.post(...)`: the resolved reply, or the rejection thrown. */
  function Await(o: Outcome): Result<Reply, Thrown> {
    match o
    case Resolved(reply) => Success(reply)
    case Rejected(message, response) => Failure(RequestFailed(message, response))
  }

  /** `data.choices[0].message.content`, evaluated left to right. Whatever the reply,
      reading it either yields a value (possibly undefined) or throws the TypeError
      of a member access on undefined or null. */
  function GeneratedContent(data: Json): (r: Result<Option<Json>, Thrown>)
    ensures r.Failure? ==> r.error.CannotReadProperty?
    ensures r.Failure? ==> r.error.property in {"choices", "0", "message", "content"}
  {
    var choices :- Member(Some(data), "choices");
    var first :- Member(choices, "0");
    var message :- Member(first, "message");
    Member(message, "content")
  }

  /** The reply shape the completion service documents:
      `{choices: [{message: {role: "assistant", content: text}}]}`. */
  function WellFormedCompletion(text: string): Json {
    JObject([("choices", JArray([
      JObject([("message", JObject([("role", JString("assistant")), ("content", JString(text))]))])]))])
  }

  /** `md.render(markdown)` applied to the generated content: a string is rendered,
      and what the library does with any other value is left to the runtime. */
  function Render(content: Option<Json>, rt: Runtime): Result<string, Thrown> {
    match content
    case Some(JString(markdown)) => Success(rt.render(markdown))
    case _ => rt.renderValue(content)
  }

  lemma GeneratedContentOfWellFormed(text: string)
    ensures GeneratedContent(WellFormedCompletion(text)) == Success(Some(JString(text)))
  {
    var message := JObject([("role", JString("assistant")), ("content", JString(text))]);
    var choice := JObject([("message", message)]);
    ArrayElementRead([choice], 0);
    assert NatToString(0) == "0";
    assert Member(Some(WellFormedCompletion(text)), "choices") == Success(Some(JArray([choice])));
    assert Member(Some(choice), "message") == Success(Some(message));
    assert "role" != "content";
    assert message.fields[1..] == [("content", JString(text))];
    assert Lookup(message.fields[1..], "content") == Some(JString(text));
    assert Lookup(message.fields, "content") == Some(JString(text));
    assert Member(Some(message), "content") == Success(Some(JString(text)));
  }

  /** The generated text is found exactly where the documented shape puts it. */
  lemma GeneratedContentFound(data: Json, choices: seq<Json>, messageFields: seq<(string, Json)>)
    requires data.JObject? && Lookup(data.fields, "choices") == Some(JArray(choices))
    requires |choices| > 0 && choices[0].JObject?
    requires Lookup(choices[0].fields, "message") == Some(JObject(messageFields))
    ensures GeneratedContent(data) == Success(Lookup(messageFields, "content"))
  {
    ArrayElementRead(choices, 0);
    assert NatToString(0) == "0";
  }

  /** Missing `choices`, an empty `choices`, a first choice (object, string, number
      or boolean) without `message`: each throws a TypeError at the next member access. */
  lemma GeneratedContentMalformed(data: Json)
    requires data.JObject?
    ensures Lookup(data.fields, "choices") == None
        ==> GeneratedContent(data) == Failure(CannotReadProperty("0"))
    ensures Lookup(data.fields, "choices") == Some(JArray([]))
        ==> GeneratedContent(data) == Failure(CannotReadProperty("message"))
    ensures forall choices: seq<Json> {:trigger JArray(choices)} ::
              (Lookup(data.fields, "choices") == Some(JArray(choices))
               && |choices| > 0 && !IsNullish(Some(choices[0]))
               && Member(Some(choices[0]), "message") == Success(None)
               ==> GeneratedContent(data) == Failure(CannotReadProperty("content")))
  {
    ArrayElementRead([], 0);
    assert NatToString(0) == "0";
    forall choices: seq<Json> | Lookup(data.fields, "choices") == Some(JArray(choices)) && |choices| > 0
      ensures Member(Some(JArray(choices)), "0") == Success(Some(choices[0]))
    {
      ArrayElementRead(choices, 0);
    }
  }
}
