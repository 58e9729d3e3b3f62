/** The diagnostics endpoint: one probe of each upstream service, each caught on its
    own, recorded field by field into a results object, and reported with 200
    together with which keys are set and a short preview of each, unless the Tavily
    `catch` block itself throws. */
module DebugApis {
  import opened Wrappers
  import opened Decimal
  import opened Js
  import opened Upstream
  import opened Http

  function Min(a: nat, b: nat): nat {
    if a <= b then a else b
  }

  /** `key ? key.substring(0, 8) + '...' : 'not set'`. */
  function KeyPreview(key: Option<string>): (r: string)
    ensures !IsSet(key) <==> r == "not set"
    ensures IsSet(key) ==>
      var n := Min(8, |key.value|);
      |r| == n + 3 && r[..n] == key.value[..n] && r[n..] == "..."
  {
    if IsSet(key) then
      var r := key.value[..Min(8, |key.value|)] + "...";
      assert r[|r| - 1] != "not set"[6];
      r
    else "not set"
  }

  /** The preview depends on nothing but the first eight characters of a set key. */
  lemma KeyPreviewRevealsOnlyPrefix(a: string, b: string)
    requires a != "" && b != ""
    requires a[..Min(8, |a|)] == b[..Min(8, |b|)]
    ensures KeyPreview(Some(a)) == KeyPreview(Some(b))
  {
  }

  function TavilyProbeRequest(env: Env): SearchRequest {
    SearchRequest(env.tavilyKey, "test query", Some("basic"), Some(1), None)
  }

  function PerplexityProbeRequest(env: Env): CompletionRequest {
    CompletionRequest(CompletionModel, [ChatMessage("user", "Say hello")], "Bearer " + Interp(env.perplexityKey))
  }

  /** `error.response ? error.response.status + ': ' + describe(error.response.data)
      : error.message`. Describing the data can throw, inside the `catch` block. */
  function FailureText(message: string, response: Option<Reply>, describe: Json -> Result<string, Thrown>)
    : Result<string, Thrown>
  {
    match response
    case Some(reply) =>
      var text :- describe(reply.data);
      Success(IntToString(reply.status) + ": " + text)
    case None => Success(message)
  }

  /** What one probe's `try`/`catch` stores, or what its `catch` block throws. */
  function ProbeRecordOf(o: Outcome, describe: Json -> Result<string, Thrown>): Result<ProbeRecord, Thrown> {
    match o
    case Resolved(reply) => Success(ProbeSucceeded(reply.status))
    case Rejected(message, response) =>
      var text :- FailureText(message, response, describe);
      Success(ProbeFailed(text))
  }

  /** `JSON.stringify(v)` as a description that does not throw: parsed JSON holds no
      cycles, no BigInt and no callable `toJSON`. */
  function Stringified(rt: Runtime): Json -> Result<string, Thrown> {
    d => Success(rt.stringify(d))
  }

  function EnvVars(env: Env): EnvReport {
    EnvReport(IsSet(env.tavilyKey), IsSet(env.perplexityKey),
              KeyPreview(env.tavilyKey), KeyPreview(env.perplexityKey))
  }

  const OnlyCors: map<string, string> := map["Access-Control-Allow-Origin" := "*"]

  /** The response and trace of the endpoint. The Tavily error text uses the data as
      `+` converts it; the Perplexity one uses `JSON.stringify`. When the Tavily
      `catch` block throws, the handler's promise rejects: the Perplexity probe is
      never sent and `res` is left with its header set and nothing sent. */
  function Respond(env: Env, tavily: Outcome, perplexity: Outcome, rt: Runtime): Exchange {
    var tavilyRecord := ProbeRecordOf(tavily, ToJsString);
    if tavilyRecord.Failure? then
      Exchange(HttpResponse(200, OnlyCors, None), [Search(TavilyProbeRequest(env))])
    else
      var perplexityRecord := ProbeRecordOf(perplexity, Stringified(rt));
      Exchange(
        HttpResponse(200, OnlyCors,
          Some(Diagnostics(Some(tavilyRecord.value), Some(perplexityRecord.value), EnvVars(env)))),
        [Search(TavilyProbeRequest(env)), Completion(PerplexityProbeRequest(env))])
  }

  /** The `results` object, filled in one probe at a time. */
  class ProbeResults {
    var tavily: Option<ProbeRecord>
    var perplexity: Option<ProbeRecord>

    constructor ()
      ensures tavily == None && perplexity == None
    {
      tavily, perplexity := None, None;
    }
  }

  /** The exported handler, writing to `res` as the source does. */
  method Handle(env: Env, tavily: Outcome, perplexity: Outcome, rt: Runtime, res: ServerResponse)
    returns (trace: seq<Call>)
    requires res.Pristine()
    modifies res
    ensures Exchange(res.View(), trace) == Respond(env, tavily, perplexity, rt)
  {
    res.SetHeader("Access-Control-Allow-Origin", "*");
    var results := new ProbeResults();

    trace := [Search(TavilyProbeRequest(env))];
    match tavily {
      case Resolved(reply) =>
        results.tavily := Some(ProbeSucceeded(reply.status));
      case Rejected(message, response) =>
        var text := FailureText(message, response, ToJsString);
        if text.Failure? {
          return;
        }
        results.tavily := Some(ProbeFailed(text.value));
    }

    trace := trace + [Completion(PerplexityProbeRequest(env))];
    match perplexity {
      case Resolved(reply) =>
        results.perplexity := Some(ProbeSucceeded(reply.status));
      case Rejected(message, response) =>
        var text := FailureText(message, response, Stringified(rt));
        results.perplexity := Some(ProbeFailed(text.value));
    }

    res.Status(200);
    res.Json(Diagnostics(results.tavily, results.perplexity, EnvVars(env)));
  }

  // ---------------------------------------------------------------------------
  // Properties of the endpoint

  /** The answer is a 200 with the diagnostics exactly when the Tavily `catch` block
      does not throw, that is unless the Tavily error data holds an object with an own
      `toString` member. Otherwise nothing is sent and Perplexity is never probed. */
  lemma OkUnlessConversionThrows(env: Env, tavily: Outcome, perplexity: Outcome, rt: Runtime)
    ensures var x := Respond(env, tavily, perplexity, rt);
      x.response.body.None?
      <==> (tavily.Rejected? && tavily.response.Some? && HasOwnToString(tavily.response.value.data))
    ensures var x := Respond(env, tavily, perplexity, rt);
      x.response.body.Some? ==> x.response.status == 200 && x.response.body.value.Diagnostics?
    ensures var x := Respond(env, tavily, perplexity, rt);
      x.response.body.None? ==> x.trace == [Search(TavilyProbeRequest(env))]
  {
    if tavily.Rejected? && tavily.response.Some? {
      ToJsStringThrowsExactly(tavily.response.value.data);
    }
  }

  /** Both probes are sent, Tavily first, whenever a response is sent. */
  lemma BothProbesSent(env: Env, tavily: Outcome, perplexity: Outcome, rt: Runtime)
    ensures var x := Respond(env, tavily, perplexity, rt);
      x.response.body.Some? ==>
        x.trace == [Search(SearchRequest(env.tavilyKey, "test query", Some("basic"), Some(1), None)),
                    Completion(CompletionRequest("sonar", [ChatMessage("user", "Say hello")],
                                                 "Bearer " + Interp(env.perplexityKey)))]
  {
  }

  /** Each probe's entry depends on its own outcome only, and whether anything is
      sent depends on the Tavily outcome only. */
  lemma ProbesIndependent(env: Env, t1: Outcome, t2: Outcome, p1: Outcome, p2: Outcome, rt: Runtime)
    ensures Respond(env, t1, p1, rt).response.body == None
        <==> Respond(env, t1, p2, rt).response.body == None
    ensures Respond(env, t1, p1, rt).response.body.Some? ==>
              (Respond(env, t1, p1, rt).response.body.value.tavily
               == Respond(env, t1, p2, rt).response.body.value.tavily)
    ensures Respond(env, t1, p1, rt).response.body.Some? && Respond(env, t2, p1, rt).response.body.Some? ==>
              (Respond(env, t1, p1, rt).response.body.value.perplexity
               == Respond(env, t2, p1, rt).response.body.value.perplexity)
  {
  }

  /** A success records the upstream status; a rejection without a reply records
      the error message; a rejection with a reply records text from which the
      reply's status reads back, followed by ": " and the described data, unless
      describing the data throws, which the `catch` block then throws. */
  lemma ProbeRecorded(o: Outcome, describe: Json -> Result<string, Thrown>)
    ensures o.Resolved? ==> ProbeRecordOf(o, describe) == Success(ProbeSucceeded(o.reply.status))
    ensures o.Rejected? && o.response.None? ==> ProbeRecordOf(o, describe) == Success(ProbeFailed(o.message))
    ensures o.Rejected? && o.response.Some? && describe(o.response.value.data).Failure? ==>
      ProbeRecordOf(o, describe) == Failure(describe(o.response.value.data).error)
    ensures o.Rejected? && o.response.Some? && describe(o.response.value.data).Success? ==>
      var r := ProbeRecordOf(o, describe);
      var k := |IntToString(o.response.value.status)|;
      && r.Success? && r.value.ProbeFailed?
      && k + 2 <= |r.value.error|
      && ParseInt(r.value.error[..k]) == Some(o.response.value.status)
      && r.value.error[k..] == ": " + describe(o.response.value.data).value
  {
    if o.Rejected? && o.response.Some? && describe(o.response.value.data).Success? {
      var status := o.response.value.status;
      IntRoundTrip(status);
      var e := ProbeRecordOf(o, describe).value.error;
      assert e == IntToString(status) + (": " + describe(o.response.value.data).value);
    }
  }

  /** An object without an own `toString` member in a Tavily error reply shows up
      only as "[object Object]". */
  lemma TavilyObjectDataOpaque(env: Env, message: string, status: int,
                               fields: seq<(string, Json)>, perplexity: Outcome, rt: Runtime)
    requires Lookup(fields, "toString") == None
    ensures Respond(env, Rejected(message, Some(Reply(status, JObject(fields)))), perplexity, rt).response.body.value.tavily
         == Some(ProbeFailed(IntToString(status) + ": [object Object]"))
  {
    assert ToJsString(JObject(fields)) == Success("[object Object]");
    assert IntToString(status) + ": " + "[object Object]" == IntToString(status) + ": [object Object]";
  }

  /** A Tavily error reply whose data is an object with an own `toString` member makes
      the `catch` block throw: no response is sent and Perplexity is never probed. */
  lemma TavilyToStringMemberUnanswered(env: Env, message: string, status: int,
                                       fields: seq<(string, Json)>, perplexity: Outcome, rt: Runtime)
    requires Lookup(fields, "toString").Some?
    ensures Respond(env, Rejected(message, Some(Reply(status, JObject(fields)))), perplexity, rt)
         == Exchange(HttpResponse(200, OnlyCors, None), [Search(TavilyProbeRequest(env))])
  {
  }

  /** The key flags and previews are computed from the raw environment values. */
  lemma EnvVarsReported(env: Env, tavily: Outcome, perplexity: Outcome, rt: Runtime)
    ensures Respond(env, tavily, perplexity, rt).response.body.Some? ==>
      var report := Respond(env, tavily, perplexity, rt).response.body.value.envVars;
      && (report.tavilyKeySet <==> report.tavilyKeyPreview != "not set")
      && (report.perplexityKeySet <==> report.perplexityKeyPreview != "not set")
      && report.tavilyKeySet == IsSet(env.tavilyKey)
      && report.perplexityKeySet == IsSet(env.perplexityKey)
  {
  }
}
