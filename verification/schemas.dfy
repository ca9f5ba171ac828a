/**
 * The request/response schemas of the backend (pydantic models) and their
 * `model_dump()` JSON. Confidence is kept in hundredths: the float values the
 * system ever produces (0.5, 0.7, 0.8, 0.9, and 0.72 in the frontend's mock)
 * are all whole hundredths.
 */
module Schemas {
  import opened Wrappers
  import opened Text
  import opened Json

  const IntentTypeLiterals: seq<string> := ["quiz_creation", "learning_plan", "analytics", "scheduling"]
  const SourceLiterals: seq<string> := ["google_classroom", "google_docs", "manual_text"]
  const TargetLiterals: seq<string> := ["google_forms", "google_classroom", "google_calendar"]

  datatype IntentType = QuizCreation | LearningPlan | Analytics | Scheduling {
    /** The wire literal; the four constructors cover exactly the `Literal[...]` domain. */
    function Literal(): (r: string)
      ensures r in IntentTypeLiterals
    {
      match this
      case QuizCreation => "quiz_creation"
      case LearningPlan => "learning_plan"
      case Analytics => "analytics"
      case Scheduling => "scheduling"
    }
  }

  datatype Source = FromClassroom | FromDocs | ManualText {
    function Literal(): (r: string)
      ensures r in SourceLiterals
    {
      match this
      case FromClassroom => "google_classroom"
      case FromDocs => "google_docs"
      case ManualText => "manual_text"
    }
  }

  datatype Target = ToForms | ToClassroom | ToCalendar {
    function Literal(): (r: string)
      ensures r in TargetLiterals
    {
      match this
      case ToForms => "google_forms"
      case ToClassroom => "google_classroom"
      case ToCalendar => "google_calendar"
    }
  }

  /** `IntentOutput`; `confidence` in hundredths, `numQuestions` defaults to `None`. */
  datatype IntentOutput = IntentOutput(
    intentType: IntentType,
    source: Source,
    target: Target,
    numQuestions: Option<int>,
    confidence: nat)

  /** The documented range of `confidence`: 0.0 to 1.0. */
  predicate ValidConfidence(c: nat) {
    c <= 100
  }

  /** `QuizQuestion`. Four options and an answer among them are documented, not enforced. */
  datatype QuizQuestion = QuizQuestion(question: string, options: seq<string>, correctAnswer: string)

  /** What the schema's comments promise of a question. */
  predicate WellFormedQuestion(q: QuizQuestion) {
    |q.options| == 4 && q.correctAnswer in q.options
  }

  /** `OrchestrateRequest`: the token is optional and defaults to `None`. */
  datatype OrchestrateRequest = OrchestrateRequest(prompt: string, userToken: Option<string>)

  function RequestFor(prompt: string): (r: OrchestrateRequest)
    ensures r.prompt == prompt && r.userToken.None?
  {
    OrchestrateRequest(prompt, None)
  }

  /** `OrchestrateResponse`: `data` (a dict whose shape depends on the handler) and
      `intent` default to `None`. */
  datatype OrchestrateResponse<D> = OrchestrateResponse(
    success: bool,
    message: string,
    data: Option<D>,
    intent: Option<IntentOutput>)

  function ResponseOf<D>(success: bool, message: string): (r: OrchestrateResponse<D>)
    ensures r.success == success && r.message == message
    ensures r.data.None? && r.intent.None?
  {
    OrchestrateResponse(success, message, None, None)
  }

  /** `repr(c / 100)` for a confidence in hundredths: the text `json.dumps` writes. */
  function ConfidenceText(c: nat): (r: string)
    requires ValidConfidence(c)
    ensures |r| >= 3 && r[1] == '.'
  {
    if c == 100 then "1.0"
    else if c % 10 == 0 then "0." + [DigitChar(c / 10)]
    else "0." + [DigitChar(c / 10), DigitChar(c % 10)]
  }

  function OptionalInt(n: Option<int>): Json {
    match n
    case None => JNull
    case Some(v) => JInt(v)
  }

  /** `IntentOutput.model_dump()`. */
  function IntentJson(i: IntentOutput): (j: Json)
    requires ValidConfidence(i.confidence)
    ensures j.JObj? && |j.fields| == 5
  {
    JObj([
      Field("intent_type", JStr(i.intentType.Literal())),
      Field("source", JStr(i.source.Literal())),
      Field("target", JStr(i.target.Literal())),
      Field("num_questions", OptionalInt(i.numQuestions)),
      Field("confidence", JNum(ConfidenceText(i.confidence)))
    ])
  }

  /** `QuizQuestion.model_dump()`. */
  function QuestionJson(q: QuizQuestion): (j: Json)
    ensures j.JObj? && |j.fields| == 3
  {
    JObj([
      Field("question", JStr(q.question)),
      Field("options", JArr(seq(|q.options|, k requires 0 <= k < |q.options| => JStr(q.options[k])))),
      Field("correct_answer", JStr(q.correctAnswer))
    ])
  }

  function QuestionsJson(qs: seq<QuizQuestion>): (j: Json)
    ensures j.JArr? && |j.items| == |qs|
  {
    JArr(seq(|qs|, k requires 0 <= k < |qs| => QuestionJson(qs[k])))
  }
}
