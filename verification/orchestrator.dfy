/**
 * The backend orchestrator (backend/main.py): prompt parsing helpers, the
 * quiz-creation pipeline shared by the two endpoints, the `/orchestrate`
 * dispatch with its error mapping, and the event trace of
 * `/orchestrate/stream`.
 *
 * Everything outside the agents is a parameter (`Env`): the Gemini service
 * state and what its next call returns, the content model and the two
 * `json.loads` readings, the fixture texts of the classroom and docs services,
 * the fixture rows of the sheets service, the per-process `hash` of strings and
 * the clock's timestamp. Durations are opaque float texts (`Durations`).
 */
module Orchestrator {
  import opened Wrappers
  import opened Text
  import opened Json
  import opened Patterns
  import opened Schemas
  import opened ServerSentEvents
  import IntentAgent
  import GeminiService
  import QuizAgent
  import ContentAgent
  import FormsService
  import ClassroomAgent
  import LearningAgent
  import AnalyticsAgent
  import WorkflowAgent
  import CalendarService

  // ---------------------------------------------------------------------------
  // extract_subject_chapter
  // ---------------------------------------------------------------------------

  /** The subject words, in the order they are tried. */
  const SubjectWords: seq<string> := ["physics", "chemistry", "biology", "mathematics", "math", "history", "geography"]

  /** The subject each word stands for. */
  const SubjectTitles: seq<string> := ["Physics", "Chemistry", "Biology", "Mathematics", "Mathematics", "History", "Geography"]

  function UpperChar(c: char): char {
    if 'a' <= c <= 'z' then (c as int - 32) as char else c
  }

  /** `str.capitalize()` (ASCII only): first character upper-case, the rest lower-case. */
  function Capitalize(w: string): (r: string)
    ensures |r| == |w|
  {
    if w == [] then [] else [UpperChar(w[0])] + Lower(w[1..])
  }

  /** The name a matched word becomes: capitalised, with "Math" widened to "Mathematics". */
  function SubjectName(w: string): string {
    var c := Capitalize(w);
    if c == "Math" then "Mathematics" else c
  }

  /** A word of lower-case letters is capitalised by raising its first letter alone. */
  lemma CapitalizeWord(w: string, t: string)
    requires |w| == |t| > 0 && t[0] == UpperChar(w[0])
    requires forall i :: 1 <= i < |w| ==> 'a' <= w[i] <= 'z' && t[i] == w[i]
    ensures Capitalize(w) == t
  {
    var r := Capitalize(w);
    forall i | 1 <= i < |w|
      ensures r[i] == t[i]
    {
      assert r[i] == Lower(w[1..])[i - 1] == LowerChar(w[i]);
    }
  }

  /** Capitalising each subject word gives the subject table. */
  lemma SubjectNamesAreTitles()
    ensures forall k :: 0 <= k < |SubjectWords| ==> SubjectName(SubjectWords[k]) == SubjectTitles[k]
  {
    CapitalizeWord("physics", "Physics");
    CapitalizeWord("chemistry", "Chemistry");
    CapitalizeWord("biology", "Biology");
    CapitalizeWord("mathematics", "Mathematics");
    CapitalizeWord("math", "Math");
    CapitalizeWord("history", "History");
    CapitalizeWord("geography", "Geography");
  }

  /** The first subject word, from position `i` on, that occurs in `s`. */
  function FirstSubject(s: string, i: nat): (r: Option<nat>)
    requires i <= |SubjectWords|
    ensures r.Some? ==> i <= r.value < |SubjectWords| && Contains(s, SubjectWords[r.value])
    ensures r.Some? ==> forall k :: i <= k < r.value ==> !Contains(s, SubjectWords[k])
    ensures r.None? ==> forall k :: i <= k < |SubjectWords| ==> !Contains(s, SubjectWords[k])
    decreases |SubjectWords| - i
  {
    if i == |SubjectWords| then None
    else if Contains(s, SubjectWords[i]) then Some(i)
    else FirstSubject(s, i + 1)
  }

  /**
   * The subject of a prompt: the first listed word found in it, capitalised
   * (read from the subject table, which `SubjectNamesAreTitles` shows to be
   * the capitalised words), or "Physics" when none occurs.
   */
  function ExtractSubject(prompt: string): (subject: string)
    ensures subject in SubjectTitles
    ensures var s := Lower(prompt);
            forall k :: 0 <= k < |SubjectWords| && Contains(s, SubjectWords[k])
                        && (forall j :: 0 <= j < k ==> !Contains(s, SubjectWords[j]))
                        ==> subject == SubjectTitles[k]
    ensures var s := Lower(prompt);
            (forall k :: 0 <= k < |SubjectWords| ==> !Contains(s, SubjectWords[k])) ==> subject == "Physics"
  {
    match FirstSubject(Lower(prompt), 0)
    case None => "Physics"
    case Some(k) => SubjectTitles[k]
  }

  /** The chapter of a prompt: "Chapter " and the digits `chapter\s*(\d+)` captures, or "Chapter 1". */
  function ExtractChapter(prompt: string): (chapter: string)
    ensures |chapter| > 8 && chapter[..8] == "Chapter " && AllDigits(chapter[8..])
  {
    match SearchKeywordNumber(Lower(prompt), ["chapter"])
    case None => "Chapter 1"
    case Some(d) =>
      assert ("Chapter " + d)[8..] == d;
      "Chapter " + d
  }

  /** Without any match the chapter is "Chapter 1". */
  lemma ChapterWithoutMatch(prompt: string)
    requires var s := Lower(prompt); forall p: nat :: p <= |s| ==> !KeywordMatchAt(s, "chapter", p)
    ensures ExtractChapter(prompt) == "Chapter 1"
  {
    var kws := ["chapter"];
    assert forall t :: 0 <= t < |kws| ==> kws[t] == "chapter";
  }

  /** With a match, the chapter number is the digit run of the leftmost one, leading zeros kept. */
  lemma ChapterFromLeftmostMatch(prompt: string, a: nat)
    requires var s := Lower(prompt); a < |s| && KeywordMatchAt(s, "chapter", a)
    requires var s := Lower(prompt); forall p: nat :: p < a ==> !KeywordMatchAt(s, "chapter", p)
    ensures var s := Lower(prompt);
            var j := KeywordDigitsStart(s, "chapter", a);
            ExtractChapter(prompt) == "Chapter " + s[j..DigitRunEnd(s, j)]
  {
    var s := Lower(prompt);
    var kws := ["chapter"];
    assert kws[0] == "chapter";
    assert AnyKeywordMatchAt(s, kws, a);
    var r := SearchKeywordNumber(s, kws);
    assert r.Some?;
    var b: nat, t: nat :| && b < |s| && t < |kws|
                          && KeywordMatchAt(s, kws[t], b)
                          && (forall p: nat :: p < b ==> !AnyKeywordMatchAt(s, kws, p))
                          && var j := KeywordDigitsStart(s, kws[t], b);
                             r.value == s[j..DigitRunEnd(s, j)];
    assert t == 0;
    assert b == a;
  }

  function ExtractSubjectChapter(prompt: string): (string, string) {
    (ExtractSubject(prompt), ExtractChapter(prompt))
  }

  // ---------------------------------------------------------------------------
  // Error mapping of /orchestrate
  // ---------------------------------------------------------------------------

  const Unavailable: string := "Service temporarily unavailable. Please try again later."
  const InternalError: string := "An internal error occurred. Please try again."

  /**
   * The HTTP error an exception with message `msg` becomes: always status 500
   * with one of two fixed details, so the exception text never reaches the client.
   */
  function ErrorFor(msg: string): (r: (nat, string))
    ensures r.0 == 500
    ensures r.1 == Unavailable || r.1 == InternalError
    ensures r.1 == Unavailable <==> Contains(msg, "Request ID") || Contains(Lower(msg), "connection")
  {
    if Contains(msg, "Request ID") || Contains(Lower(msg), "connection") then (500, Unavailable)
    else (500, InternalError)
  }

  /** What the endpoint calls unavailable, the Gemini service also treats as a connection error. */
  lemma UnavailableIsConnectionError(msg: string)
    requires ErrorFor(msg).1 == Unavailable
    ensures GeminiService.IsConnectionError(msg)
  {
  }

  /** The converse fails: a "network" error resets the Gemini service but is reported as internal. */
  lemma NetworkErrorIsInternal()
    ensures GeminiService.IsConnectionError("network")
    ensures ErrorFor("network").1 == InternalError
  {
    assert "network" <= Lower("network")[0..];
  }

  // ---------------------------------------------------------------------------
  // The quiz-creation pipeline
  // ---------------------------------------------------------------------------

  /** What the endpoints depend on besides the prompt. */
  datatype Env = Env(
    gemini: GeminiService.Gemini,
    retrySucceeds: bool,
    call: GeminiService.CallOutcome,
    decode: string -> QuizAgent.Decoded,
    ask: ContentAgent.ContentPrompt -> ContentAgent.ContentCall,
    contentDecode: string -> Option<ContentAgent.ContentReply>,
    classroomNotes: string,
    docsNotes: string,
    sheetResults: seq<AnalyticsAgent.ResultRow>,
    hash: string -> int,
    timestamp: string)

  /** The notes handed to the content agent, chosen by the intent's source. */
  function NotesFor(source: Source, prompt: string, env: Env): string {
    match source
    case FromClassroom => env.classroomNotes
    case FromDocs => env.docsNotes
    case ManualText => prompt
  }

  /** `intent.num_questions or 5`. */
  function RequestedCount(n: Option<int>): Option<int> {
    if n.None? || n.value == 0 then Some(5) else n
  }

  /** The `or 5` changes nothing: the quiz agent already reads a missing or zero count as 5. */
  lemma RequestedCountRedundant(n: Option<int>)
    ensures QuizAgent.ClampCount(RequestedCount(n)) == QuizAgent.ClampCount(n)
  {
  }

  function FormTitle(subject: string, chapter: string): string {
    subject + " " + chapter + " Quiz"
  }

  function ClassName(subject: string): string {
    subject + " Class"
  }

  /** What the pipeline produced once the quiz step succeeded. */
  datatype Delivered = Delivered(
    questions: seq<QuizQuestion>, form: FormsService.FormResult, delivery: ClassroomAgent.Delivery)

  /** One run of the pipeline: subject, chapter and content, then the quiz outcome
      (the message of the exception the quiz step raised, if it did). */
  datatype QuizRun = QuizRun(
    subject: string, chapter: string, content: ContentAgent.ContentOutput, outcome: Result<Delivered, string>)

  /**
   * Content agent, quiz agent, form and classroom assignment, as both
   * `handle_quiz_creation` and the stream run them. Only the quiz step can
   * raise; nothing after it runs then.
   */
  function RunQuizPipeline(prompt: string, intent: IntentOutput, env: Env): (r: (GeminiService.Gemini, QuizRun))
    requires env.gemini.Valid()
    ensures r.0.Valid()
    ensures r.1.subject == ExtractSubject(prompt) && r.1.chapter == ExtractChapter(prompt)
    ensures r.1.content.keyTopics != [] && r.1.content.summary != ""
    ensures r.1.outcome.Err? <==>
              QuizAgent.GenerateQuiz(RequestedCount(intent.numQuestions), env.gemini, env.retrySucceeds, env.call, env.decode).1.Err?
    ensures r.1.outcome.Ok? ==>
              var d := r.1.outcome.value;
              var title := FormTitle(r.1.subject, r.1.chapter);
              && |d.questions| == QuizAgent.ClampCount(intent.numQuestions)
              && (forall i :: 0 <= i < |d.questions| ==> |d.questions[i].options| == 4)
              && d.form.title == title && d.form.numQuestions == |d.questions| && d.form.status == "created"
              && d.delivery.deliveryStatus == "assigned"
              && StartsWith(d.delivery.message, ClassroomAgent.AssignmentPrefix(title, |d.questions|))
              && EndsWith(d.delivery.message, ClassroomAgent.FormNote)
  {
    var subject := ExtractSubject(prompt);
    var chapter := ExtractChapter(prompt);
    var content := ContentAgent.ExtractContent(
      subject, chapter, Some(NotesFor(intent.source, prompt, env)), env.ask, env.contentDecode);
    RequestedCountRedundant(intent.numQuestions);
    var (g, quiz) := QuizAgent.GenerateQuiz(
      RequestedCount(intent.numQuestions), env.gemini, env.retrySucceeds, env.call, env.decode);
    match quiz
    case Err(msg) => (g, QuizRun(subject, chapter, content, Err(msg)))
    case Ok(qs) =>
      var title := FormTitle(subject, chapter);
      var form := FormsService.CreateQuizForm(title, env.hash(title), |qs|);
      assert form.formUrl != "";
      var delivery := ClassroomAgent.AssignToClassroom(title, |qs|, Some(form.formUrl), ClassName(subject), env.timestamp);
      (g, QuizRun(subject, chapter, content, Ok(Delivered(qs, form, delivery))))
  }

  // ---------------------------------------------------------------------------
  // POST /orchestrate
  // ---------------------------------------------------------------------------

  /** The `data` dict of each handler. */
  datatype HandlerData =
    | QuizData(formUrl: string, formId: string, questions: seq<QuizQuestion>,
               content: ContentAgent.ContentOutput, delivery: ClassroomAgent.Delivery, intent: IntentOutput)
    | PlanData(plan: LearningAgent.Plan)
    | AnalyticsData(analytics: AnalyticsAgent.Analytics)
    | ScheduleData(schedule: WorkflowAgent.Schedule, calendarEvents: Option<seq<CalendarService.CreatedEvent>>)

  /** The endpoint's answer: a response body, or an `HTTPException`. */
  datatype Reply =
    | Success(body: OrchestrateResponse<HandlerData>)
    | HttpError(status: nat, detail: string)

  /** `handle_learning_plan`: the prompt is the syllabus and no level is passed. */
  function HandleLearningPlan(prompt: string, intent: IntentOutput): (r: OrchestrateResponse<HandlerData>)
    ensures r.success && r.message == "Learning plan generated successfully" && r.intent == Some(intent)
    ensures r.data.Some? && r.data.value.PlanData?
    ensures r.data.value.plan.studentLevel == "intermediate" && |r.data.value.plan.topics| == 3
  {
    OrchestrateResponse(true, "Learning plan generated successfully",
                        Some(PlanData(LearningAgent.GenerateLearningPlan(prompt, None))), Some(intent))
  }

  /** `handle_analytics`: the rows come from the sheets service. */
  function HandleAnalytics(intent: IntentOutput, results: seq<AnalyticsAgent.ResultRow>): (r: OrchestrateResponse<HandlerData>)
    ensures r.success && r.message == "Analytics generated successfully" && r.intent == Some(intent)
    ensures r.data.Some? && r.data.value.AnalyticsData?
    ensures r.data.value.analytics.NoResults? <==> results == []
  {
    OrchestrateResponse(true, "Analytics generated successfully",
                        Some(AnalyticsData(AnalyticsAgent.AnalyzeQuizResults(results))), Some(intent))
  }

  /** The calendar event each schedule entry becomes: its task name as title, no times. */
  function CalendarEventsFor(s: WorkflowAgent.Schedule): (es: seq<CalendarService.EventSpec>)
    ensures |es| == |s.schedule|
  {
    seq(|s.schedule|, i requires 0 <= i < |s.schedule| =>
      CalendarService.EventSpec(Some(s.schedule[i].task), None, None, "Priority: " + s.schedule[i].priority))
  }

  /** `handle_scheduling`: the fixed two tasks, and calendar events only for a calendar target. */
  function HandleScheduling(intent: IntentOutput): (r: OrchestrateResponse<HandlerData>)
    ensures r.success && r.message == "Schedule optimized successfully" && r.intent == Some(intent)
    ensures r.data.Some? && r.data.value.ScheduleData?
    ensures r.data.value.calendarEvents.Some? <==> intent.target == ToCalendar
    ensures var d := r.data.value;
            d.calendarEvents.Some? ==>
              && |d.calendarEvents.value| == |d.schedule.schedule|
              && forall i :: 0 <= i < |d.schedule.schedule| ==>
                   && d.calendarEvents.value[i].title == d.schedule.schedule[i].task
                   && d.calendarEvents.value[i].eventId == CalendarService.EventId(i)
                   && d.calendarEvents.value[i].startTime.None?
  {
    var schedule := WorkflowAgent.OptimizeSchedule(WorkflowAgent.HandlerTasks, WorkflowAgent.HandlerDeadlines);
    var events := if intent.target == ToCalendar
                  then Some(CalendarService.CreateSchedule(CalendarEventsFor(schedule)))
                  else None;
    OrchestrateResponse(true, "Schedule optimized successfully", Some(ScheduleData(schedule, events)), Some(intent))
  }

  /** `handle_quiz_creation`: the pipeline's results, or the quiz step's exception. */
  function HandleQuizCreation(prompt: string, intent: IntentOutput, env: Env)
    : (r: (GeminiService.Gemini, Result<OrchestrateResponse<HandlerData>, string>))
    requires env.gemini.Valid()
    ensures r.0.Valid()
    ensures r.1.Ok? ==>
              var b := r.1.value;
              && b.success && b.intent.None? && b.data.Some? && b.data.value.QuizData?
              && b.data.value.intent == intent
              && |b.data.value.questions| == QuizAgent.ClampCount(intent.numQuestions)
              && b.message == "Quiz created and assigned: " + NatToString(|b.data.value.questions|)
                              + " questions on " + ExtractSubject(prompt) + " " + ExtractChapter(prompt)
  {
    var p := RunQuizPipeline(prompt, intent, env);
    (p.0, QuizResponse(p.1, intent))
  }

  /** The handler's response for a pipeline run, or the exception's message. */
  function QuizResponse(run: QuizRun, intent: IntentOutput): Result<OrchestrateResponse<HandlerData>, string> {
    match run.outcome
    case Err(msg) => Err(msg)
    case Ok(d) =>
      var message := "Quiz created and assigned: " + NatToString(|d.questions|)
                     + " questions on " + run.subject + " " + run.chapter;
      var data := QuizData(d.form.formUrl, d.form.formId, d.questions, run.content, d.delivery, intent);
      Ok(OrchestrateResponse(true, message, Some(data), None))
  }

  /**
   * `orchestrate(request)`: parse the intent, dispatch on its type, and turn
   * any exception into a 500 whose detail hides the exception text. The
   * unsupported-intent 400 cannot happen: the parser only yields the four types.
   */
  function Orchestrate(request: OrchestrateRequest, env: Env): (r: (GeminiService.Gemini, Reply))
    requires env.gemini.Valid()
    ensures r.0.Valid()
    ensures var intent := IntentAgent.ParseIntent(request.prompt);
            && (r.1.HttpError? ==>
                  intent.intentType == QuizCreation && r.1.status == 500
                  && (r.1.detail == Unavailable || r.1.detail == InternalError))
            && (r.1.Success? ==> r.1.body.success && r.1.body.data.Some?)
            && (intent.intentType != QuizCreation ==> r.1.Success? && r.1.body.intent == Some(intent) && r.0 == env.gemini)
            && (r.1.Success? ==>
                  match intent.intentType
                  case QuizCreation => r.1.body.data.value.QuizData?
                  case LearningPlan => r.1.body.data.value.PlanData?
                  case Analytics => r.1.body.data.value.AnalyticsData?
                  case Scheduling => r.1.body.data.value.ScheduleData?)
  {
    var intent := IntentAgent.ParseIntent(request.prompt);
    match intent.intentType
    case QuizCreation =>
      var (g, res) := HandleQuizCreation(request.prompt, intent, env);
      (match res
       case Ok(body) => (g, Success(body))
       case Err(msg) => var (status, detail) := ErrorFor(msg); (g, HttpError(status, detail)))
    case LearningPlan => (env.gemini, Success(HandleLearningPlan(request.prompt, intent)))
    case Analytics => (env.gemini, Success(HandleAnalytics(intent, env.sheetResults)))
    case Scheduling => (env.gemini, Success(HandleScheduling(intent)))
  }

  // ---------------------------------------------------------------------------
  // POST /orchestrate/stream
  // ---------------------------------------------------------------------------

  /** The rounded elapsed times, as the float texts `json.dumps` writes for them. */
  datatype Durations = Durations(intent: string, content: string, quiz: string, forms: string, classroom: string, total: string)

  /** One event of the stream. `complete` always carries `success: true`. */
  datatype StreamEvent =
    | AgentStart(agent: string, message: string)
    | AgentComplete(agent: string, duration: string, result: Json)
    | Complete(message: string, totalDuration: string, data: Json)
    | Failed(message: string)
  {
    predicate Terminal() {
      Complete? || Failed?
    }

    /** The SSE event type. */
    function Name(): string {
      match this
      case AgentStart(_, _) => "agent_start"
      case AgentComplete(_, _, _) => "agent_complete"
      case Complete(_, _, _) => "complete"
      case Failed(_) => "error"
    }

    /** The dict sent as the event's data. */
    function Payload(): Json {
      match this
      case AgentStart(a, m) => JObj([Field("agent", JStr(a)), Field("message", JStr(m))])
      case AgentComplete(a, d, res) => JObj([Field("agent", JStr(a)), Field("duration", JNum(d)), Field("result", res)])
      case Complete(m, t, data) =>
        JObj([Field("success", JBool(true)), Field("message", JStr(m)), Field("total_duration", JNum(t)), Field("data", data)])
      case Failed(m) => JObj([Field("message", JStr(m))])
    }
  }

  /** The agents of the quiz flow, in the order they run. */
  const Stages: seq<string> := ["intent", "content", "quiz", "forms", "classroom"]

  /** Position `i` of a trace holds the start (even `i`) or completion (odd `i`) of stage `i / 2`. */
  predicate AgentEventAt(e: StreamEvent, i: nat) {
    && i / 2 < |Stages|
    && (if i % 2 == 0 then e.AgentStart? && e.agent == Stages[i / 2]
        else e.AgentComplete? && e.agent == Stages[i / 2])
  }

  /** Start/completion pairs for a prefix of the stages (the last one possibly only
      started), then exactly one terminal event, which is the last. */
  predicate WellFormedTrace(t: seq<StreamEvent>) {
    && |t| >= 1
    && t[|t| - 1].Terminal()
    && forall i :: 0 <= i < |t| - 1 ==> AgentEventAt(t[i], i)
  }

  /** The `data` of the quiz flow's `complete` event. */
  function QuizDataJson(d: Delivered, content: ContentAgent.ContentOutput, intent: IntentOutput): Json
    requires ValidConfidence(intent.confidence)
  {
    JObj([
      Field("form_url", JStr(d.form.formUrl)),
      Field("form_id", JStr(d.form.formId)),
      Field("questions", QuestionsJson(d.questions)),
      Field("content", ContentAgent.ContentJson(content)),
      Field("delivery", ClassroomAgent.DeliveryJson(d.delivery)),
      Field("intent", IntentJson(intent))
    ])
  }

  /** The stream's first two events. */
  function IntentEvents(intent: IntentOutput, clock: Durations): (h: seq<StreamEvent>)
    requires ValidConfidence(intent.confidence)
    ensures |h| == 2 && AgentEventAt(h[0], 0) && AgentEventAt(h[1], 1)
  {
    [AgentStart("intent", "Analyzing your request..."), AgentComplete("intent", clock.intent, IntentJson(intent))]
  }

  /** The events of the quiz flow after the intent, given the pipeline's run. */
  function QuizEvents(run: QuizRun, intent: IntentOutput, clock: Durations): (q: seq<StreamEvent>)
    requires ValidConfidence(intent.confidence)
    ensures run.outcome.Ok? ==>
              && |q| == 9 && q[8].Complete?
              && q[3].AgentComplete? && q[3].result == JObj([Field("num_questions", JInt(|run.outcome.value.questions|))])
              && q[7].AgentComplete? && q[7].result == ClassroomAgent.DeliveryJson(run.outcome.value.delivery)
    ensures run.outcome.Err? ==> |q| == 4 && q[3] == Failed(run.outcome.error)
    ensures forall i :: 0 <= i < |q| - 1 ==> AgentEventAt(q[i], i + 2)
  {
    var contentEvents := [
      AgentStart("content", "Extracting key topics from " + run.subject + " " + run.chapter + "..."),
      AgentComplete("content", clock.content, ContentAgent.ContentJson(run.content))];
    var quizStart := AgentStart("quiz", "Generating quiz questions with AI...");
    match run.outcome
    case Err(msg) => contentEvents + [quizStart, Failed(msg)]
    case Ok(d) =>
      contentEvents + [
        quizStart,
        AgentComplete("quiz", clock.quiz, JObj([Field("num_questions", JInt(|d.questions|))])),
        AgentStart("forms", "Creating Google Form..."),
        AgentComplete("forms", clock.forms, JObj([Field("form_url", JStr(d.form.formUrl)), Field("form_id", JStr(d.form.formId))])),
        AgentStart("classroom", "Assigning to Google Classroom (Demo Mode)..."),
        AgentComplete("classroom", clock.classroom, ClassroomAgent.DeliveryJson(d.delivery)),
        Complete("Quiz created and assigned with " + NatToString(|d.questions|) + " questions", clock.total,
                 QuizDataJson(d, run.content, intent))]
  }

  /** The intent events followed by events that continue the stage order and end in a terminal one. */
  lemma TraceConcat(h: seq<StreamEvent>, q: seq<StreamEvent>)
    requires |h| == 2 && AgentEventAt(h[0], 0) && AgentEventAt(h[1], 1)
    requires |q| >= 1 && q[|q| - 1].Terminal()
    requires forall i :: 0 <= i < |q| - 1 ==> AgentEventAt(q[i], i + 2)
    ensures WellFormedTrace(h + q)
  {
    var t := h + q;
    forall i | 0 <= i < |t| - 1
      ensures AgentEventAt(t[i], i)
    {
      if i >= 2 {
        assert t[i] == q[i - 2];
      }
    }
  }

  /** The stream of the quiz flow: the intent events, then the pipeline's. */
  function QuizTrace(prompt: string, intent: IntentOutput, env: Env, clock: Durations)
    : (r: (GeminiService.Gemini, seq<StreamEvent>))
    requires env.gemini.Valid() && ValidConfidence(intent.confidence)
    ensures r.0.Valid()
    ensures WellFormedTrace(r.1)
    ensures || (|r.1| == 11 && r.1[10].Complete? && r.1[5].AgentComplete?
                && r.1[5].result == JObj([Field("num_questions", JInt(QuizAgent.ClampCount(intent.numQuestions)))]))
            || (|r.1| == 6 && r.1[5].Failed?)
  {
    var p := RunQuizPipeline(prompt, intent, env);
    EventsOfRun(p.1, intent, clock, QuizAgent.ClampCount(intent.numQuestions));
    (p.0, IntentEvents(intent, clock) + QuizEvents(p.1, intent, clock))
  }

  /** The shape of the quiz flow's trace, whatever the run produced. */
  lemma EventsOfRun(run: QuizRun, intent: IntentOutput, clock: Durations, n: nat)
    requires ValidConfidence(intent.confidence)
    requires run.outcome.Ok? ==> |run.outcome.value.questions| == n
    ensures var t := IntentEvents(intent, clock) + QuizEvents(run, intent, clock);
            && WellFormedTrace(t)
            && (|| (|t| == 11 && t[10].Complete? && t[5].AgentComplete?
                    && t[5].result == JObj([Field("num_questions", JInt(n))]))
                || (|t| == 6 && t[5].Failed?))
  {
    var head := IntentEvents(intent, clock);
    var tail := QuizEvents(run, intent, clock);
    TraceConcat(head, tail);
    assert (head + tail)[5] == tail[3];
  }

  /** The stream of every other intent: the intent events, then `complete` with the intent alone. */
  function OtherTrace(intent: IntentOutput, clock: Durations): (t: seq<StreamEvent>)
    requires ValidConfidence(intent.confidence)
    ensures WellFormedTrace(t) && |t| == 3
    ensures t[2] == Complete("Processed " + intent.intentType.Literal(), clock.total, JObj([Field("intent", IntentJson(intent))]))
  {
    var head := IntentEvents(intent, clock);
    var last := Complete("Processed " + intent.intentType.Literal(), clock.total, JObj([Field("intent", IntentJson(intent))]));
    TraceConcat(head, [last]);
    head + [last]
  }

  /**
   * `orchestrate_stream(request)`'s event generator: the new Gemini state and
   * the events in the order they are sent.
   */
  function OrchestrateStream(request: OrchestrateRequest, env: Env, clock: Durations)
    : (r: (GeminiService.Gemini, seq<StreamEvent>))
    requires env.gemini.Valid()
    ensures r.0.Valid()
    ensures WellFormedTrace(r.1)
    ensures var intent := IntentAgent.ParseIntent(request.prompt);
            intent.intentType != QuizCreation ==>
              && r.0 == env.gemini
              && |r.1| == 3
              && r.1[2] == Complete("Processed " + intent.intentType.Literal(), clock.total, JObj([Field("intent", IntentJson(intent))]))
    ensures var intent := IntentAgent.ParseIntent(request.prompt);
            intent.intentType == QuizCreation ==>
              || (|r.1| == 11 && r.1[10].Complete? && r.1[5].AgentComplete?
                  && r.1[5].result == JObj([Field("num_questions", JInt(QuizAgent.ClampCount(intent.numQuestions)))]))
              || (|r.1| == 6 && r.1[5].Failed?)
  {
    var intent := IntentAgent.ParseIntent(request.prompt);
    if intent.intentType != QuizCreation then
      (env.gemini, OtherTrace(intent, clock))
    else
      QuizTrace(request.prompt, intent, env, clock)
  }

  /** Each event of a trace as an event name and a payload. */
  function Frames(t: seq<StreamEvent>): (fs: seq<(string, Json)>)
    ensures |fs| == |t|
    ensures forall i :: 0 <= i < |t| ==> fs[i] == (t[i].Name(), t[i].Payload())
  {
    seq(|t|, i requires 0 <= i < |t| => (t[i].Name(), t[i].Payload()))
  }

  /** The text sent: one SSE frame per event. */
  function Render(t: seq<StreamEvent>): string {
    Stream(Frames(t))
  }

  /** A one-event trace renders as that event's frame alone. */
  lemma RenderOne(e: StreamEvent)
    ensures Render([e]) == Sse(e.Name(), e.Payload())
  {
    var frames := Frames([e]);
    assert frames == [(e.Name(), e.Payload())];
    assert Stream(frames[1..]) == "";
  }

  /** What a client should read back from a rendered trace: one block per event, its type and its JSON text. */
  function EventBlocks(t: seq<StreamEvent>): (bs: seq<Block>)
    ensures |bs| == |t|
    ensures forall i :: 0 <= i < |t| ==> bs[i] == Block(t[i].Name(), Dumps(t[i].Payload()))
  {
    seq(|t|, i requires 0 <= i < |t| => Block(t[i].Name(), Dumps(t[i].Payload())))
  }

  /**
   * Both endpoints run the same pipeline. That sharing is a modelling claim:
   * `handle_quiz_creation` (backend/main.py:413-474) and the stream's quiz
   * branch (backend/main.py:217-325) perform the same steps in the same
   * order, so both are modelled by one `RunQuizPipeline`. On top of it, this
   * lemma checks what each endpoint makes of the run: they leave the Gemini
   * service in the same state, the stream ends in an error exactly when
   * `/orchestrate` answers with an HTTP error, that error is the mapped form
   * of the very message the stream sends in the clear, and a successful quiz
   * answer carries the delivery the stream reports.
   */
  lemma StreamAgreesWithOrchestrate(request: OrchestrateRequest, env: Env, clock: Durations)
    requires env.gemini.Valid()
    ensures var (g1, reply) := Orchestrate(request, env);
            var (g2, t) := OrchestrateStream(request, env, clock);
            && g1 == g2
            && (reply.HttpError? <==> t[|t| - 1].Failed?)
            && (t[|t| - 1].Failed? ==> (reply.status, reply.detail) == ErrorFor(t[|t| - 1].message))
            && (reply.Success? && reply.body.data.value.QuizData? ==>
                  |t| == 11 && t[9].AgentComplete? && t[9].result == ClassroomAgent.DeliveryJson(reply.body.data.value.delivery))
  {
    var intent := IntentAgent.ParseIntent(request.prompt);
    if intent.intentType == QuizCreation {
      var p := RunQuizPipeline(request.prompt, intent, env);
      assert Orchestrate(request, env).0 == p.0;
      assert OrchestrateStream(request, env, clock).0 == p.0;
      RunAgreement(p.1, intent, clock);
    }
  }

  /** The handler's result and the stream's events agree on every pipeline run. */
  lemma RunAgreement(run: QuizRun, intent: IntentOutput, clock: Durations)
    requires ValidConfidence(intent.confidence)
    ensures var t := IntentEvents(intent, clock) + QuizEvents(run, intent, clock);
            var res := QuizResponse(run, intent);
            && (res.Err? <==> t[|t| - 1].Failed?)
            && (res.Err? ==> t[|t| - 1] == Failed(res.error))
            && (res.Ok? ==> |t| == 11 && t[9].AgentComplete? && t[9].result == ClassroomAgent.DeliveryJson(res.value.data.value.delivery))
  {
    var head := IntentEvents(intent, clock);
    var tail := QuizEvents(run, intent, clock);
    assert (head + tail)[|head + tail| - 1] == tail[|tail| - 1];
    if run.outcome.Ok? {
      assert (head + tail)[9] == tail[7];
    }
  }


  // ---------------------------------------------------------------------------
  // The stream text
  // ---------------------------------------------------------------------------

  predicate ClockPrintable(clock: Durations) {
    && AllPrintableAscii(clock.intent) && AllPrintableAscii(clock.content) && AllPrintableAscii(clock.quiz)
    && AllPrintableAscii(clock.forms) && AllPrintableAscii(clock.classroom) && AllPrintableAscii(clock.total)
  }

  lemma IntentJsonPrintable(i: IntentOutput)
    requires ValidConfidence(i.confidence)
    ensures NumbersPrintable(IntentJson(i))
  {
    var c := ConfidenceText(i.confidence);
    assert AllPrintableAscii(c);
    var fs := IntentJson(i).fields;
    assert fs[4].value == JNum(c);
  }

  lemma QuestionsJsonPrintable(qs: seq<QuizQuestion>)
    ensures NumbersPrintable(QuestionsJson(qs))
  {
    var items := QuestionsJson(qs).items;
    forall k | 0 <= k < |items|
      ensures NumbersPrintable(items[k])
    {
      var fs := items[k].fields;
      assert NumbersPrintable(fs[1].value);
    }
  }

  lemma ContentJsonPrintable(c: ContentAgent.ContentOutput)
    ensures NumbersPrintable(ContentAgent.ContentJson(c))
  {
    var fs := ContentAgent.ContentJson(c).fields;
    assert NumbersPrintable(fs[0].value);
  }

  lemma DeliveryJsonPrintable(d: ClassroomAgent.Delivery)
    ensures NumbersPrintable(ClassroomAgent.DeliveryJson(d))
  {
  }

  /** The float texts an event carries, and those inside its result or data, are printable. */
  predicate EventPrintable(e: StreamEvent) {
    match e
    case AgentStart(_, _) => true
    case AgentComplete(_, d, res) => AllPrintableAscii(d) && NumbersPrintable(res)
    case Complete(_, t, data) => AllPrintableAscii(t) && NumbersPrintable(data)
    case Failed(_) => true
  }

  lemma PayloadPrintable(e: StreamEvent)
    requires EventPrintable(e)
    ensures NumbersPrintable(e.Payload())
  {
    var fs := e.Payload().fields;
    if e.AgentComplete? {
      assert fs[1].value == JNum(e.duration) && fs[2].value == e.result;
    } else if e.Complete? {
      assert fs[2].value == JNum(e.totalDuration) && fs[3].value == e.data;
    }
  }

  lemma QuizDataPrintable(d: Delivered, content: ContentAgent.ContentOutput, intent: IntentOutput)
    requires ValidConfidence(intent.confidence)
    ensures NumbersPrintable(QuizDataJson(d, content, intent))
  {
    DeliveryJsonPrintable(d.delivery);
    QuestionsJsonPrintable(d.questions);
    IntentJsonPrintable(intent);
    ContentJsonPrintable(content);
    var fs := QuizDataJson(d, content, intent).fields;
    assert fs[2].value == QuestionsJson(d.questions);
    assert fs[3].value == ContentAgent.ContentJson(content);
    assert fs[4].value == ClassroomAgent.DeliveryJson(d.delivery);
    assert fs[5].value == IntentJson(intent);
  }

  /** Every event of the quiz flow has printable float texts. */
  lemma QuizEventsPrintable(run: QuizRun, intent: IntentOutput, clock: Durations)
    requires ValidConfidence(intent.confidence) && ClockPrintable(clock)
    ensures var q := QuizEvents(run, intent, clock);
            forall i :: 0 <= i < |q| ==> EventPrintable(q[i])
  {
    ContentJsonPrintable(run.content);
    if run.outcome.Ok? {
      var d := run.outcome.value;
      DeliveryJsonPrintable(d.delivery);
      QuizDataPrintable(d, run.content, intent);
      var forms := JObj([Field("form_url", JStr(d.form.formUrl)), Field("form_id", JStr(d.form.formId))]);
      assert NumbersPrintable(forms) by {
        assert forall k :: 0 <= k < |forms.fields| ==> forms.fields[k].value.JStr?;
      }
      var count := JObj([Field("num_questions", JInt(|d.questions|))]);
      assert NumbersPrintable(count) by {
        assert count.fields[0].value.JInt?;
      }
      var q := QuizEvents(run, intent, clock);
      assert q[3].result == count && q[5].result == forms;
      assert q[7].result == ClassroomAgent.DeliveryJson(d.delivery);
      assert q[8].data == QuizDataJson(d, run.content, intent);
      forall i | 0 <= i < |q|
        ensures EventPrintable(q[i])
      {
      }
    }
  }

  /** Every event of a stream has printable float texts. */
  lemma TracePrintable(request: OrchestrateRequest, env: Env, clock: Durations)
    requires env.gemini.Valid() && ClockPrintable(clock)
    ensures var t := OrchestrateStream(request, env, clock).1;
            forall i :: 0 <= i < |t| ==> EventPrintable(t[i])
  {
    if IntentAgent.ParseIntent(request.prompt).intentType == QuizCreation {
      QuizTracePrintable(request.prompt, IntentAgent.ParseIntent(request.prompt), env, clock);
    } else {
      OtherTracePrintable(IntentAgent.ParseIntent(request.prompt), clock);
    }
  }

  lemma QuizTracePrintable(prompt: string, intent: IntentOutput, env: Env, clock: Durations)
    requires env.gemini.Valid() && ValidConfidence(intent.confidence) && ClockPrintable(clock)
    ensures var t := QuizTrace(prompt, intent, env, clock).1;
            forall i :: 0 <= i < |t| ==> EventPrintable(t[i])
  {
    var p := RunQuizPipeline(prompt, intent, env);
    RunTracePrintable(p.1, intent, clock);
  }

  lemma RunTracePrintable(run: QuizRun, intent: IntentOutput, clock: Durations)
    requires ValidConfidence(intent.confidence) && ClockPrintable(clock)
    ensures var t := IntentEvents(intent, clock) + QuizEvents(run, intent, clock);
            forall i :: 0 <= i < |t| ==> EventPrintable(t[i])
  {
    IntentJsonPrintable(intent);
    var head := IntentEvents(intent, clock);
    assert EventPrintable(head[0]) && EventPrintable(head[1]);
    QuizEventsPrintable(run, intent, clock);
    ConcatPrintable(head, QuizEvents(run, intent, clock));
  }

  lemma OtherTracePrintable(intent: IntentOutput, clock: Durations)
    requires ValidConfidence(intent.confidence) && ClockPrintable(clock)
    ensures var t := OtherTrace(intent, clock);
            forall i :: 0 <= i < |t| ==> EventPrintable(t[i])
  {
    IntentJsonPrintable(intent);
    var head := IntentEvents(intent, clock);
    assert EventPrintable(head[0]) && EventPrintable(head[1]);
    var obj := JObj([Field("intent", IntentJson(intent))]);
    assert NumbersPrintable(obj) by {
      assert obj.fields[0].value == IntentJson(intent);
    }
    var last := Complete("Processed " + intent.intentType.Literal(), clock.total, obj);
    ConcatPrintable(head, [last]);
  }

  lemma ConcatPrintable(a: seq<StreamEvent>, b: seq<StreamEvent>)
    requires forall i :: 0 <= i < |a| ==> EventPrintable(a[i])
    requires forall i :: 0 <= i < |b| ==> EventPrintable(b[i])
    ensures forall i :: 0 <= i < |a + b| ==> EventPrintable((a + b)[i])
  {
  }

  /** Any trace with printable float texts reads back event by event. */
  lemma RenderReadsBack(t: seq<StreamEvent>)
    requires forall i :: 0 <= i < |t| ==> EventPrintable(t[i])
    ensures ReadBlocks(Render(t)) == EventBlocks(t)
  {
    var frames := Frames(t);
    forall i | 0 <= i < |frames|
      ensures SingleLine(frames[i].0) && NumbersPrintable(frames[i].1)
    {
      PayloadPrintable(t[i]);
    }
    ReadStream(frames);
    assert FrameBlocks(frames) == EventBlocks(t);
  }

  /**
   * A client reading the stream's text with the event-stream rules gets back,
   * in order, one event per trace entry with its type and its JSON data.
   */
  lemma StreamReadsBack(request: OrchestrateRequest, env: Env, clock: Durations)
    requires env.gemini.Valid() && ClockPrintable(clock)
    ensures var t := OrchestrateStream(request, env, clock).1;
            ReadBlocks(Render(t)) == EventBlocks(t)
  {
    TracePrintable(request, env, clock);
    RenderReadsBack(OrchestrateStream(request, env, clock).1);
  }
}
