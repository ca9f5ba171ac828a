/**
 * The Next.js proxy for one-shot requests
 * (frontend-next/src/app/api/orchestrate/route.ts): it forwards the request
 * body to the backend's `/orchestrate` and answers with what comes back, or
 * with a fixed mock when the backend cannot be reached or does not answer
 * with JSON.
 *
 * `fetch` and the body parsers are inputs: the request body is either JSON
 * or not, and the upstream outcome is a rejected fetch or a status with a
 * body that parsed or did not.
 */
module SyncRoute {
  import opened Wrappers
  import opened Json
  import opened Schemas
  import opened ClientTypes

  const DefaultBackend: string := "http://127.0.0.1:8000"

  /** `process.env.EDUSPHERE_BACKEND_URL || 'http://127.0.0.1:8000'`: an empty value counts as unset. */
  function BaseUrl(env: Option<string>): (u: string)
    ensures u != ""
    ensures env.Some? && env.value != "" ==> u == env.value
    ensures env.None? || env.value == "" ==> u == DefaultBackend
  {
    if env.Some? && env.value != "" then env.value else DefaultBackend
  }

  /** What `req.json()` yields. */
  datatype RequestBody = JsonBody(value: Json) | NotJsonBody

  /** The upstream outcome: a rejected fetch, or a status and the body `upstream.json()` parsed (`None` when it threw). */
  datatype Upstream = Unreachable | Answered(status: nat, body: Option<Json>)

  /** The request the route sends upstream: the URL and the re-serialised body. */
  datatype Sent = Sent(url: string, body: Json)

  /** The route's answer; `Threw` is an exception escaping the handler. */
  datatype Reply =
    | Forwarded(status: nat, body: Json)
    | Mocked(status: nat, response: ClientResponse)
    | Threw

  const MockMessage: string := "Mock response (backend not reachable). Start FastAPI to get real results."

  const MockQuestion: QuizQuestion := QuizQuestion(
    "What is the primary concept covered in Chapter 5 Physics? (Mock)",
    ["Force", "Energy", "Momentum", "Waves"],
    "Energy")

  /** The fallback response of the `catch` branch. */
  const Mock: ClientResponse := ClientResponse(
    true,
    MockMessage,
    Some(ResponseData(None, None, Some([MockQuestion]), None, None, None)),
    Some(ClientIntent(QuizCreation, ManualText, ToForms, Some(10), 72)),
    None)

  /**
   * `POST(req)`: the request sent upstream, if any, and the answer.
   * A body that is not JSON fails before the `try`, so nothing is sent and
   * no mock is produced.
   */
  function Post(req: RequestBody, env: Option<string>, upstream: Upstream): (r: (Option<Sent>, Reply))
    ensures r.0.Some? <==> req.JsonBody?
    ensures r.1.Threw? <==> req.NotJsonBody?
    ensures req.JsonBody? ==> r.0.value.url == BaseUrl(env) + "/orchestrate" && r.0.value.body == req.value
    // a JSON answer passes through with its status, whatever that status is
    ensures req.JsonBody? && upstream.Answered? && upstream.body.Some? ==>
              r.1 == Forwarded(upstream.status, upstream.body.value)
    // every failure inside the `try` becomes the mock, with status 200
    ensures req.JsonBody? && (upstream.Unreachable? || upstream.body.None?) ==> r.1 == Mocked(200, Mock)
  {
    match req
    case NotJsonBody => (None, Threw)
    case JsonBody(body) =>
      var sent := Sent(BaseUrl(env) + "/orchestrate", body);
      match upstream
      case Answered(status, Some(data)) => (Some(sent), Forwarded(status, data))
      case _ => (Some(sent), Mocked(200, Mock))
  }

  /**
   * The mock is a successful quiz-creation answer: the intent is
   * `{quiz_creation, manual_text, google_forms, 10, 0.72}`, and the data holds
   * one well-formed question whose answer is "Energy" and nothing else.
   */
  lemma MockShape()
    ensures Mock.success
    ensures Mock.intent == Some(ClientIntent(QuizCreation, ManualText, ToForms, Some(10), 72))
    ensures Mock.intent.value.intentType.Literal() == "quiz_creation"
    ensures Mock.intent.value.source.Literal() == "manual_text"
    ensures Mock.intent.value.target.Literal() == "google_forms"
    ensures Mock.data.Some? && Mock.data.value.questions.Some? && |Mock.data.value.questions.value| == 1
    ensures var q := Mock.data.value.questions.value[0];
            WellFormedQuestion(q) && q.correctAnswer == "Energy"
    ensures Mock.data.value.formUrl.None? && Mock.data.value.content.None? && Mock.data.value.delivery.None?
  {
    assert MockQuestion.options[1] == "Energy";
  }

  /** When the backend is down the answer does not depend on what was asked nor where the backend is. */
  lemma MockIndependentOfRequest(b1: Json, b2: Json, env1: Option<string>, env2: Option<string>)
    ensures Post(JsonBody(b1), env1, Unreachable).1 == Post(JsonBody(b2), env2, Unreachable).1
    ensures Post(JsonBody(b1), env1, Unreachable).1.Mocked?
  {
  }

  /** Every outcome of a JSON request is an answer: only a non-JSON request makes the route throw. */
  lemma JsonRequestAlwaysAnswered(b: Json, env: Option<string>, upstream: Upstream)
    ensures var reply := Post(JsonBody(b), env, upstream).1;
            reply.Forwarded? || reply == Mocked(200, Mock)
  {
  }
}
