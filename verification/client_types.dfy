/**
 * The client's view of the backend's data (frontend-next/src/lib/types.ts).
 * Optional fields (`?`) are `Option`s; numbers the client only displays are
 * `real`s.
 */
module ClientTypes {
  import opened Wrappers
  import opened Schemas

  /** The five pipeline stages the page shows. */
  datatype AgentKey = IntentStage | ContentStage | QuizStage | FormsStage | ClassroomStage {
    function Literal(): string {
      match this
      case IntentStage => "intent"
      case ContentStage => "content"
      case QuizStage => "quiz"
      case FormsStage => "forms"
      case ClassroomStage => "classroom"
    }
  }

  /** The stages in timeline order. */
  const AgentKeys: seq<AgentKey> := [IntentStage, ContentStage, QuizStage, FormsStage, ClassroomStage]

  datatype AgentStatus = Pending | Running | Completed | Errored {
    function Literal(): string {
      match this
      case Pending => "pending"
      case Running => "running"
      case Completed => "completed"
      case Errored => "error"
    }
  }

  /** The key type is exactly the five stage names, each once, in timeline order. */
  lemma AgentKeysExact()
    ensures forall k: AgentKey :: k in AgentKeys
    ensures forall i, j :: 0 <= i < j < |AgentKeys| ==> AgentKeys[i].Literal() != AgentKeys[j].Literal()
    ensures seq(|AgentKeys|, i requires 0 <= i < |AgentKeys| => AgentKeys[i].Literal())
            == ["intent", "content", "quiz", "forms", "classroom"]
  {
    forall k: AgentKey
      ensures k in AgentKeys
    {
      match k
      case IntentStage => assert AgentKeys[0] == k;
      case ContentStage => assert AgentKeys[1] == k;
      case QuizStage => assert AgentKeys[2] == k;
      case FormsStage => assert AgentKeys[3] == k;
      case ClassroomStage => assert AgentKeys[4] == k;
    }
    var names := seq(|AgentKeys|, i requires 0 <= i < |AgentKeys| => AgentKeys[i].Literal());
    assert names[0] == "intent" && names[1] == "content" && names[2] == "quiz";
    assert names[3] == "forms" && names[4] == "classroom";
  }

  /** `IntentOutput` as the client types it; `num_questions` may be missing or null,
      and the confidence is in hundredths. */
  datatype ClientIntent = ClientIntent(
    intentType: IntentType, source: Source, target: Target, numQuestions: Option<int>, confidence: nat)

  /** `ContentOutput`; the page guards `key_topics` with `?.`, so it is optional here. */
  datatype ClientContent = ClientContent(keyTopics: Option<seq<string>>, summary: string)

  /** `DeliveryOutput`. */
  datatype ClientDelivery = ClientDelivery(
    deliveryStatus: string, platform: string, mode: string, message: string,
    assignmentId: Option<string>, classroomUrl: Option<string>)

  /** The named fields of `OrchestrateResponse.data`; every one is optional. */
  datatype ResponseData = ResponseData(
    formUrl: Option<string>,
    formId: Option<string>,
    questions: Option<seq<QuizQuestion>>,
    content: Option<ClientContent>,
    delivery: Option<ClientDelivery>,
    intent: Option<ClientIntent>)

  /** `OrchestrateResponse`: `success` and `message` are required, the rest optional. */
  datatype ClientResponse = ClientResponse(
    success: bool,
    message: string,
    data: Option<ResponseData>,
    intent: Option<ClientIntent>,
    totalDuration: Option<real>)

  function ResponseWith(success: bool, message: string): (r: ClientResponse)
    ensures r.success == success && r.message == message
    ensures r.data.None? && r.intent.None? && r.totalDuration.None?
  {
    ClientResponse(success, message, None, None, None)
  }

  /** `HistoryItem`: the form URL and the question count are optional. */
  datatype HistoryItem = HistoryItem(
    id: string, prompt: string, timestamp: string, success: bool,
    formUrl: Option<string>, questionCount: Option<nat>)
}
