/**
 * The Next.js relay for the event stream
 * (frontend-next/src/app/api/orchestrate-stream/route.ts): it forwards the
 * request to the backend's `/orchestrate/stream` and relays the body, or
 * answers with one synthetic `error` frame when the backend cannot be
 * reached. The frame format is that of section 9.2 of the WHATWG HTML
 * Standard (server-sent events).
 */
module StreamRoute {
  import opened Wrappers
  import opened Text
  import opened Json
  import opened ServerSentEvents
  import opened SyncRoute
  import ClientTypes
  import Orchestrator

  /** The upstream outcome: a rejected fetch, or a response with any status and its body text. */
  datatype StreamUpstream = Unreachable | Connected(status: nat, body: string)

  /** The route's answer: status, headers in the order written, body. */
  datatype Relay = Relay(status: nat, headers: seq<(string, string)>, body: string) | RelayThrew

  const ContentType: (string, string) := ("Content-Type", "text/event-stream")

  const RelayHeaders: seq<(string, string)> :=
    [ContentType, ("Cache-Control", "no-cache"), ("Connection", "keep-alive")]

  /**
   * The frame sent when the backend is not reachable: the route's one
   * template literal, written here as the text before the JSON, the JSON
   * text, and the two line feeds after it.
   */
  const ErrorFrame: string := "event: error\ndata: " + "{\"message\": \"Backend not reachable\"}" + "\n\n"

  /**
   * `POST(req)`: the request sent upstream, if any, and the answer. `new
   * Response` defaults to status 200, so an upstream error status is not
   * passed on; the body is relayed as it is.
   */
  function Post(req: RequestBody, env: Option<string>, upstream: StreamUpstream): (r: (Option<Sent>, Relay))
    ensures r.0.Some? <==> req.JsonBody?
    ensures r.1.RelayThrew? <==> req.NotJsonBody?
    ensures req.JsonBody? ==> r.0.value.url == BaseUrl(env) + "/orchestrate/stream" && r.0.value.body == req.value
    ensures r.1.Relay? ==> r.1.status == 200 && |r.1.headers| > 0 && r.1.headers[0] == ContentType
    ensures req.JsonBody? && upstream.Connected? ==> r.1.body == upstream.body && r.1.headers == RelayHeaders
    ensures req.JsonBody? && upstream.Unreachable? ==> r.1.body == ErrorFrame && r.1.headers == [ContentType]
  {
    match req
    case NotJsonBody => (None, RelayThrew)
    case JsonBody(body) =>
      var sent := Sent(BaseUrl(env) + "/orchestrate/stream", body);
      match upstream
      case Connected(_, text) => (Some(sent), Relay(200, RelayHeaders, text))
      case Unreachable => (Some(sent), Relay(200, [ContentType], ErrorFrame))
  }

  /** The message the synthetic frame carries. */
  const UnreachableMessage: string := "Backend not reachable"

  /** A one-field object `{"message": msg}`, as both the route and the backend's error events carry it. */
  function MessagePayload(msg: string): Json {
    JObj([Field("message", JStr(msg))])
  }

  /** The route's literal, cut where the backend's formatter joins its parts. */
  lemma ErrorFrameParts(event: string, text: string)
    requires event == "error" && text == "{\"message\": \"Backend not reachable\"}"
    ensures ErrorFrame == "event: " + event + "\ndata: " + text + "\n\n"
  {
    assert "event: " + event + "\ndata: " == "event: error\ndata: ";
  }

  /** The message and its key need no escaping, and the payload's JSON text is as the route spells it. */
  lemma UnreachableText(key: string, msg: string)
    requires key == "message" && msg == UnreachableMessage
    ensures IsPlain(key) && IsPlain(msg)
    ensures "{\"" + key + "\": \"" + msg + "\"}" == "{\"message\": \"Backend not reachable\"}"
  {
  }

  /**
   * The literal frame is exactly what the backend's `sse("error", {"message": ...})`
   * writes for the same message (with `json.dumps`' default separators).
   */
  lemma ErrorFrameIsSse(msg: string)
    requires msg == UnreachableMessage
    ensures ErrorFrame == Sse("error", MessagePayload(msg))
  {
    var key := "message";
    UnreachableText(key, msg);
    var text := "{\"" + key + "\": \"" + msg + "\"}";
    DumpsPlainField(key, msg);
    SseText("error", JObj([Field(key, JStr(msg))]), text);
    ErrorFrameParts("error", text);
  }

  /** It is the same text the backend sends when its own pipeline fails with that message. */
  lemma ErrorFrameIsBackendError(msg: string)
    requires msg == UnreachableMessage
    ensures ErrorFrame == Orchestrator.Render([Orchestrator.Failed(msg)])
  {
    ErrorFrameIsSse(msg);
    var e := Orchestrator.Failed(msg);
    Orchestrator.RenderOne(e);
    assert e.Name() == "error" && e.Payload() == MessagePayload(msg);
  }

  /** Whatever the message, the backend's error frame reads back as one `error` event carrying its JSON. */
  lemma BackendErrorReadsBack(msg: string)
    ensures ReadBlocks(Sse("error", MessagePayload(msg))) == [Block("error", Dumps(MessagePayload(msg)))]
  {
    var frame := Sse("error", MessagePayload(msg));
    var b := Block("error", Dumps(MessagePayload(msg)));
    assert SingleLine("error");
    ReadBlockOfSse("error", MessagePayload(msg), "");
    ReadBlocksAfter(frame, "", b);
    assert frame + "" == frame;
    assert ReadLine("", 0).None?;
  }

  /** A stream consumer reads the synthetic answer as exactly one `error` event carrying the message's JSON. */
  lemma ErrorFrameReadsBack(frame: string, msg: string)
    requires frame == ErrorFrame && msg == UnreachableMessage
    ensures ReadBlocks(frame) == [Block("error", Dumps(MessagePayload(msg)))]
  {
    ErrorFrameIsSse(msg);
    BackendErrorReadsBack(msg);
  }

  /** The stage keys the client knows are the agent names the backend's events carry, in the same order. */
  lemma StagesAreAgentKeys()
    ensures |Orchestrator.Stages| == |ClientTypes.AgentKeys|
    ensures forall i :: 0 <= i < |Orchestrator.Stages| ==> Orchestrator.Stages[i] == ClientTypes.AgentKeys[i].Literal()
  {
  }
}
