/** The HTTP side shared by the three handlers: the credentials read from the
    environment, the JSON envelopes they send, and the response object they mutate. */
module Http {
  import opened Wrappers
  import opened Js
  import opened Upstream

  /** `process.env.TAVILY_API_KEY` and `process.env.PERPLEXITY_API_KEY`, raw. */
  datatype Env = Env(tavilyKey: Option<string>, perplexityKey: Option<string>)

  /** `!!v` for an environment value: defined and not the empty string. */
  predicate IsSet(v: Option<string>) {
    v.Some? && v.value != ""
  }

  /** One probe of the diagnostics endpoint: `{status: 'success', response_status}`
      or `{status: 'error', error}`. */
  datatype ProbeRecord = ProbeSucceeded(responseStatus: int) | ProbeFailed(error: string)

  /** The `env_vars` object of the diagnostics endpoint. */
  datatype EnvReport = EnvReport(
    tavilyKeySet: bool,
    perplexityKeySet: bool,
    tavilyKeyPreview: string,
    perplexityKeyPreview: string)

  /** What a handler sends: nothing (`res.end()`) or one of the JSON envelopes.
      The `error` member of a `ServerError` is `error.message` of `thrown`. */
  datatype Payload =
    | Empty
    | NotAllowed(error: string)
    | Pitch(result: string)
    | ServerError(message: string, thrown: Thrown, tavilyKeySet: bool, perplexityKeySet: bool)
    | Diagnostics(tavily: Option<ProbeRecord>, perplexity: Option<ProbeRecord>, envVars: EnvReport)

  /** The 500 envelope of both pitch handlers. The flags are read from the raw
      environment values when the error is caught. */
  function ServerErrorPayload(error: Thrown, env: Env): Payload {
    ServerError("Internal Server Error", error, IsSet(env.tavilyKey), IsSet(env.perplexityKey))
  }

  /** A snapshot of a response: status code, headers, and what was sent. */
  datatype HttpResponse = HttpResponse(status: int, headers: map<string, string>, body: Option<Payload>)

  /** One handled request: the response as sent and the upstream calls issued. */
  datatype Exchange = Exchange(response: HttpResponse, trace: seq<Call>)

  /** The `res` object a handler receives. Headers can be set and a body sent only
      until the response is sent; its status code starts at 200. */
  class ServerResponse {
    var headers: map<string, string>
    var statusCode: int
    var sent: Option<Payload>

    constructor ()
      ensures Pristine()
    {
      headers, statusCode, sent := map[], 200, None;
    }

    /** As the runtime hands it to a handler. */
    predicate Pristine()
      reads this
    {
      headers == map[] && statusCode == 200 && sent == None
    }

    function View(): HttpResponse
      reads this
    {
      HttpResponse(statusCode, headers, sent)
    }

    /** `res.setHeader(name, value)`: replaces any earlier value of that header. */
    method SetHeader(name: string, value: string)
      requires sent.None?
      modifies this
      ensures headers == old(headers)[name := value]
      ensures statusCode == old(statusCode) && sent == old(sent)
    {
      headers := headers[name := value];
    }

    /** `res.status(code)`. */
    method Status(code: int)
      modifies this
      ensures statusCode == code
      ensures headers == old(headers) && sent == old(sent)
    {
      statusCode := code;
    }

    /** `res.json(payload)`. */
    method Json(payload: Payload)
      requires sent.None?
      modifies this
      ensures sent == Some(payload)
      ensures headers == old(headers) && statusCode == old(statusCode)
    {
      sent := Some(payload);
    }

    /** `res.end()` with no body. */
    method End()
      requires sent.None?
      modifies this
      ensures sent == Some(Empty)
      ensures headers == old(headers) && statusCode == old(statusCode)
    {
      sent := Some(Empty);
    }
  }
}
