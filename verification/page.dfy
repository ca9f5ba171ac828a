/**
 * The home page's pipeline view (frontend-next/src/app/page.tsx): a timeline
 * of the five agent stages, the run that posts the prompt to the one-shot
 * route and turns its answer into stage states, and the run history.
 *
 * React state is one immutable `PageState`; a run is a pure function from the
 * state before the click and the fetch outcome to the state after the run
 * has settled. The clock readings (`Date.now`, the rounded step and total
 * durations) are inputs. The 100 ms pauses between stage updates only delay
 * rendering and are not modelled.
 */
module Page {
  import opened Wrappers
  import opened Text
  import opened Schemas
  import opened ClientTypes
  import SyncRoute

  /** One row of the timeline. */
  datatype TimelineStep = TimelineStep(
    key: AgentKey, title: string, subtitle: string, status: AgentStatus, duration: Option<real>)

  function Title(k: AgentKey): string {
    match k
    case IntentStage => "Intent Agent"
    case ContentStage => "Content Agent"
    case QuizStage => "Quiz Agent"
    case FormsStage => "Forms Agent"
    case ClassroomStage => "Classroom Agent"
  }

  /** The subtitle a stage shows until a run says otherwise. */
  function DefaultSubtitle(k: AgentKey): string {
    match k
    case IntentStage => "Analyzing your request..."
    case ContentStage => "Extracting key academic topics..."
    case QuizStage => "Generating questions with AI..."
    case FormsStage => "Creating Google Form..."
    case ClassroomStage => "Assigning to Google Classroom..."
  }

  /** `initialSteps()`: every stage, in timeline order, pending, with its default subtitle. */
  function InitialSteps(): (r: seq<TimelineStep>)
    ensures |r| == |AgentKeys|
    ensures forall i :: 0 <= i < |r| ==>
              && r[i].key == AgentKeys[i]
              && r[i].status == Pending
              && r[i].title == Title(r[i].key)
              && r[i].subtitle == DefaultSubtitle(r[i].key)
              && r[i].duration.None?
  {
    seq(|AgentKeys|, i requires 0 <= i < |AgentKeys| =>
      TimelineStep(AgentKeys[i], Title(AgentKeys[i]), DefaultSubtitle(AgentKeys[i]), Pending, None))
  }

  /** Position of a stage in the timeline. */
  function Index(k: AgentKey): (i: nat)
    ensures i < |AgentKeys| && AgentKeys[i] == k
  {
    match k
    case IntentStage => 0
    case ContentStage => 1
    case QuizStage => 2
    case FormsStage => 3
    case ClassroomStage => 4
  }

  /** The steps are one per stage, in timeline order. */
  predicate KeyedInOrder(steps: seq<TimelineStep>) {
    |steps| == |AgentKeys| && forall i :: 0 <= i < |steps| ==> steps[i].key == AgentKeys[i]
  }

  /** A `Partial<TimelineStep>` as the page builds them: it never changes a key or a title. */
  datatype StepUpdate = StepUpdate(status: Option<AgentStatus>, subtitle: Option<string>, duration: Option<real>)

  /** `{ ...s, ...updates }`: a field the update carries replaces the step's. */
  function Merge(s: TimelineStep, u: StepUpdate): (r: TimelineStep)
    ensures r.key == s.key && r.title == s.title
    ensures r.status == (if u.status.Some? then u.status.value else s.status)
    ensures r.subtitle == (if u.subtitle.Some? then u.subtitle.value else s.subtitle)
    ensures r.duration == (if u.duration.Some? then u.duration else s.duration)
  {
    TimelineStep(
      s.key, s.title,
      if u.subtitle.Some? then u.subtitle.value else s.subtitle,
      if u.status.Some? then u.status.value else s.status,
      if u.duration.Some? then u.duration else s.duration)
  }

  /** `updateStep(key, updates)`: the steps with that key are merged, the others kept, the order too. */
  function UpdateStep(steps: seq<TimelineStep>, key: AgentKey, u: StepUpdate): (r: seq<TimelineStep>)
    ensures |r| == |steps|
    ensures forall i :: 0 <= i < |r| ==> r[i].key == steps[i].key && r[i].title == steps[i].title
    ensures forall i :: 0 <= i < |r| && steps[i].key != key ==> r[i] == steps[i]
    ensures forall i :: 0 <= i < |r| && steps[i].key == key ==> r[i] == Merge(steps[i], u)
  {
    seq(|steps|, i requires 0 <= i < |steps| => if steps[i].key == key then Merge(steps[i], u) else steps[i])
  }

  /** Applying the same update twice is applying it once. */
  lemma UpdateStepIdempotent(steps: seq<TimelineStep>, key: AgentKey, u: StepUpdate)
    ensures UpdateStep(UpdateStep(steps, key, u), key, u) == UpdateStep(steps, key, u)
  {
    var once := UpdateStep(steps, key, u);
    var twice := UpdateStep(once, key, u);
    forall i | 0 <= i < |steps|
      ensures twice[i] == once[i]
    {
      if steps[i].key == key {
        assert Merge(Merge(steps[i], u), u) == Merge(steps[i], u);
      }
    }
  }

  /** Updates of different stages commute. */
  lemma UpdatesCommute(steps: seq<TimelineStep>, k1: AgentKey, u1: StepUpdate, k2: AgentKey, u2: StepUpdate)
    requires k1 != k2
    ensures UpdateStep(UpdateStep(steps, k1, u1), k2, u2) == UpdateStep(UpdateStep(steps, k2, u2), k1, u1)
  {
    var a := UpdateStep(UpdateStep(steps, k1, u1), k2, u2);
    var b := UpdateStep(UpdateStep(steps, k2, u2), k1, u1);
    assert forall i | 0 <= i < |steps| :: a[i] == b[i];
  }

  /** `!!prompt.trim() && !loading`. */
  predicate CanRun(prompt: string, loading: bool) {
    JsTrim(prompt) != "" && !loading
  }

  /** A prompt of white space alone never runs. */
  lemma BlankPromptCannotRun(prompt: string, loading: bool)
    requires forall i :: 0 <= i < |prompt| ==> IsJsSpace(prompt[i])
    ensures !CanRun(prompt, loading)
  {
    TrimPadded(prompt, "", "", IsJsSpace);
    assert prompt + "" + "" == prompt;
  }

  /** Padding a prompt with white space does not change whether it can run. */
  lemma PaddingDoesNotMatter(a: string, x: string, b: string, loading: bool)
    requires forall i :: 0 <= i < |a| ==> IsJsSpace(a[i])
    requires forall i :: 0 <= i < |b| ==> IsJsSpace(b[i])
    requires IsTrimmed(x, IsJsSpace)
    ensures CanRun(a + x + b, loading) <==> x != "" && !loading
  {
    TrimPadded(a, x, b, IsJsSpace);
  }

  /** The page's state. */
  datatype PageState = PageState(
    prompt: string,
    loading: bool,
    steps: seq<TimelineStep>,
    response: Option<ClientResponse>,
    questions: seq<QuizQuestion>,
    content: Option<ClientContent>,
    delivery: Option<ClientDelivery>,
    formUrl: Option<string>,
    formId: Option<string>,
    confetti: bool,
    history: seq<HistoryItem>,
    totalDuration: Option<real>)

  /** The state on first render. */
  const Fresh: PageState :=
    PageState("", false, InitialSteps(), None, [], None, None, None, None, false, [], None)

  /** What `fetch('/api/orchestrate')` and `res.json()` come to: the parsed
      response, or an exception (a rejected fetch, a body that is not JSON, or
      a `null` body, on which `json.data` throws). */
  datatype FetchOutcome = Parsed(json: ClientResponse) | Threw

  /** The clock readings of one run: the id and timestamp of the history entry,
      each stage's rounded share of the elapsed time, and the rounded total. */
  datatype RunClock = RunClock(id: string, timestamp: string, stepDuration: real, total: real)

  const FailureMessage: string := "Failed to connect to backend"

  /** `key_topics?.length || 0`. */
  function TopicCount(c: ClientContent): nat {
    if c.keyTopics.Some? then |c.keyTopics.value| else 0
  }

  /** A truthy optional string. */
  predicate Truthy(s: Option<string>) {
    s.Some? && s.value != ""
  }

  /** The subtitle a successful run gives a stage, or `None` when it keeps its default. */
  function RunSubtitle(data: Option<ResponseData>, k: AgentKey): Option<string> {
    match k
    case IntentStage => Some("Request analyzed")
    case ContentStage =>
      if data.Some? && data.value.content.Some?
      then Some("Extracted " + NatToString(TopicCount(data.value.content.value)) + " key topics") else None
    case QuizStage =>
      if data.Some? && data.value.questions.Some?
      then Some("Generated " + NatToString(|data.value.questions.value|) + " questions") else None
    case FormsStage =>
      if data.Some? && Truthy(data.value.formUrl) then Some("Google Form created") else None
    case ClassroomStage =>
      if data.Some? && data.value.delivery.Some?
      then Some(data.value.delivery.value.deliveryStatus + " (" + data.value.delivery.value.mode + ")") else None
  }

  /** The update each stage receives once the response is in. */
  function Done(data: Option<ResponseData>, d: real, k: AgentKey): StepUpdate {
    StepUpdate(Some(Completed), RunSubtitle(data, k), Some(d))
  }

  /** The timeline once a response has arrived: every stage completed, with its run subtitle or its default. */
  function CompletedSteps(data: Option<ResponseData>, d: real): (r: seq<TimelineStep>)
    ensures KeyedInOrder(r)
    ensures forall i :: 0 <= i < |r| ==>
              && r[i].status == Completed
              && r[i].duration == Some(d)
              && r[i].title == Title(r[i].key)
              && r[i].subtitle == RunSubtitle(data, r[i].key).GetOr(DefaultSubtitle(r[i].key))
  {
    var s0 := InitialSteps();
    seq(|s0|, i requires 0 <= i < |s0| => Merge(s0[i], Done(data, d, s0[i].key)))
  }

  /** It is what the run's five `updateStep` calls, one per stage in timeline order, make of fresh steps. */
  lemma CompletedStepsAreTheUpdates(data: Option<ResponseData>, d: real)
    ensures var s1 := UpdateStep(InitialSteps(), IntentStage, Done(data, d, IntentStage));
            var s2 := UpdateStep(s1, ContentStage, Done(data, d, ContentStage));
            var s3 := UpdateStep(s2, QuizStage, Done(data, d, QuizStage));
            var s4 := UpdateStep(s3, FormsStage, Done(data, d, FormsStage));
            UpdateStep(s4, ClassroomStage, Done(data, d, ClassroomStage)) == CompletedSteps(data, d)
  {
    var s0 := InitialSteps();
    var s1 := UpdateStep(s0, IntentStage, Done(data, d, IntentStage));
    var s2 := UpdateStep(s1, ContentStage, Done(data, d, ContentStage));
    var s3 := UpdateStep(s2, QuizStage, Done(data, d, QuizStage));
    var s4 := UpdateStep(s3, FormsStage, Done(data, d, FormsStage));
    var s5 := UpdateStep(s4, ClassroomStage, Done(data, d, ClassroomStage));
    var c := CompletedSteps(data, d);
    forall i | 0 <= i < |s0|
      ensures s5[i] == c[i]
    {
      assert AgentKeys[i] == s0[i].key;
    }
  }

  /**
   * The subtitles after a response: "Request analyzed" for the intent stage,
   * and for each other stage its message exactly when its part of the data is
   * there (a truthy link for the forms stage), else the default.
   */
  lemma CompletedSubtitles(data: Option<ResponseData>, d: real)
    ensures var r := CompletedSteps(data, d);
            && r[Index(IntentStage)].subtitle == "Request analyzed"
            && r[Index(ContentStage)].subtitle ==
                 (if data.Some? && data.value.content.Some?
                  then "Extracted " + NatToString(TopicCount(data.value.content.value)) + " key topics"
                  else DefaultSubtitle(ContentStage))
            && r[Index(QuizStage)].subtitle ==
                 (if data.Some? && data.value.questions.Some?
                  then "Generated " + NatToString(|data.value.questions.value|) + " questions"
                  else DefaultSubtitle(QuizStage))
            && r[Index(FormsStage)].subtitle ==
                 (if data.Some? && Truthy(data.value.formUrl) then "Google Form created" else DefaultSubtitle(FormsStage))
            && r[Index(ClassroomStage)].subtitle ==
                 (if data.Some? && data.value.delivery.Some?
                  then data.value.delivery.value.deliveryStatus + " (" + data.value.delivery.value.mode + ")"
                  else DefaultSubtitle(ClassroomStage))
  {
    var r := CompletedSteps(data, d);
    assert r[0].key == IntentStage && r[1].key == ContentStage && r[2].key == QuizStage;
    assert r[3].key == FormsStage && r[4].key == ClassroomStage;
  }

  /** `[item, ...prev.slice(0, 9)]`. */
  function PushHistory(item: HistoryItem, prev: seq<HistoryItem>): (r: seq<HistoryItem>)
    ensures |r| <= 10 && |r| == 1 + (if |prev| < 9 then |prev| else 9)
    ensures r[0] == item && r[1..] <= prev
  {
    [item] + (if |prev| <= 9 then prev else prev[..9])
  }

  /** What the `finally` leaves of the state cleared at the start of a run. */
  function Cleared(st: PageState): PageState {
    st.(loading := false, response := None, questions := [], content := None, delivery := None,
        formUrl := None, formId := None, confetti := false, totalDuration := None, steps := InitialSteps())
  }

  /** The effects of a parsed response on the cleared state. */
  function Settle(st: PageState, json: ClientResponse, clock: RunClock): PageState {
    var data := json.data;
    var base := Cleared(st);
    base.(
      response := Some(json),
      steps := CompletedSteps(data, clock.stepDuration),
      content := if data.Some? then data.value.content else None,
      questions := if data.Some? && data.value.questions.Some? then data.value.questions.value else [],
      formUrl := if data.Some? && Truthy(data.value.formUrl) then data.value.formUrl else None,
      formId := if data.Some? && Truthy(data.value.formUrl)
                then Some(if Truthy(data.value.formId) then data.value.formId.value else "unknown") else None,
      delivery := if data.Some? then data.value.delivery else None,
      confetti := data.Some? && data.value.delivery.Some? && data.value.delivery.value.deliveryStatus == "assigned",
      totalDuration := Some(clock.total),
      history := PushHistory(
        HistoryItem(clock.id, st.prompt, clock.timestamp, json.success,
                    if data.Some? then data.value.formUrl else None,
                    if data.Some? && data.value.questions.Some? then Some(|data.value.questions.value|) else None),
        st.history))
  }

  /** `runAgents()`: the state once the run has settled. */
  function RunAgents(st: PageState, outcome: FetchOutcome, clock: RunClock): (r: PageState)
    ensures !CanRun(st.prompt, st.loading) ==> r == st
    ensures CanRun(st.prompt, st.loading) ==> !r.loading && r.prompt == st.prompt && KeyedInOrder(r.steps)
    // an exception: the failure message, fresh steps, and no history entry
    ensures CanRun(st.prompt, st.loading) && outcome.Threw? ==>
              && r.response == Some(ResponseWith(false, FailureMessage))
              && r.steps == InitialSteps()
              && r.history == st.history
              && r.questions == [] && r.content.None? && r.delivery.None?
              && r.formUrl.None? && r.formId.None? && !r.confetti && r.totalDuration.None?
    // a response: every stage completed whatever `success` says, and one history entry in front
    ensures CanRun(st.prompt, st.loading) && outcome.Parsed? ==>
              && r.response == Some(outcome.json)
              && r.steps == CompletedSteps(outcome.json.data, clock.stepDuration)
              && (forall i :: 0 <= i < |r.steps| ==> r.steps[i].status == Completed)
              && r.totalDuration == Some(clock.total)
              && 1 <= |r.history| <= 10
              && r.history[0].prompt == st.prompt && r.history[0].success == outcome.json.success
              && r.history[1..] <= st.history
              && r.questions == (if outcome.json.data.Some? && outcome.json.data.value.questions.Some?
                                 then outcome.json.data.value.questions.value else [])
              && r.content == (if outcome.json.data.Some? then outcome.json.data.value.content else None)
              && r.delivery == (if outcome.json.data.Some? then outcome.json.data.value.delivery else None)
  {
    if !CanRun(st.prompt, st.loading) then st
    else
      match outcome
      case Threw => Cleared(st).(response := Some(ResponseWith(false, FailureMessage)))
      case Parsed(json) => Settle(st, json, clock)
  }

  /**
   * The backend's error answer, a `{"detail": ...}` body with no `success`,
   * `message` or `data`: the run still completes every stage with its default
   * subtitle, shows nothing and no confetti, and logs an unsuccessful entry.
   */
  lemma ErrorBodyCompletesEveryStage(st: PageState, clock: RunClock)
    requires CanRun(st.prompt, st.loading)
    ensures var r := RunAgents(st, Parsed(ClientResponse(false, "", None, None, None)), clock);
            && (forall i :: 0 <= i < |r.steps| ==>
                  r.steps[i].status == Completed
                  && (r.steps[i].key != IntentStage ==> r.steps[i].subtitle == DefaultSubtitle(r.steps[i].key)))
            && r.questions == [] && r.content.None? && r.delivery.None?
            && r.formUrl.None? && r.formId.None? && !r.confetti
            && !r.history[0].success && r.history[0].formUrl.None? && r.history[0].questionCount.None?
  {
    var json := ClientResponse(false, "", None, None, None);
    var r := RunAgents(st, Parsed(json), clock);
    assert r == Settle(st, json, clock);
    assert r.steps == CompletedSteps(None, clock.stepDuration);
    forall i | 0 <= i < |r.steps| && r.steps[i].key != IntentStage
      ensures r.steps[i].subtitle == DefaultSubtitle(r.steps[i].key)
    {
      assert RunSubtitle(None, r.steps[i].key).None?;
    }
  }

  /** Confetti is shown exactly when the response carries a delivery whose status is "assigned". */
  lemma ConfettiIffAssigned(st: PageState, outcome: FetchOutcome, clock: RunClock)
    requires CanRun(st.prompt, st.loading)
    ensures RunAgents(st, outcome, clock).confetti <==>
              && outcome.Parsed? && outcome.json.data.Some?
              && outcome.json.data.value.delivery.Some?
              && outcome.json.data.value.delivery.value.deliveryStatus == "assigned"
  {
  }

  /** The form link is kept only when truthy, and then the id falls back to "unknown". */
  lemma FormLinkOfRun(st: PageState, json: ClientResponse, clock: RunClock)
    requires CanRun(st.prompt, st.loading)
    ensures var r := RunAgents(st, Parsed(json), clock);
            && (r.formUrl.Some? <==> json.data.Some? && Truthy(json.data.value.formUrl))
            && (r.formId.Some? <==> r.formUrl.Some?)
            && (r.formId.Some? ==> r.formId.value != "")
            && (r.formId.Some? && !Truthy(json.data.value.formId) ==> r.formId == Some("unknown"))
  {
  }

  /** The history entry of a run records what the response said, as the response said it. */
  lemma HistoryEntryOfRun(st: PageState, json: ClientResponse, clock: RunClock)
    requires CanRun(st.prompt, st.loading)
    ensures var h := RunAgents(st, Parsed(json), clock).history[0];
            && h.id == clock.id && h.timestamp == clock.timestamp
            && h.formUrl == (if json.data.Some? then json.data.value.formUrl else None)
            && (h.questionCount.Some? <==> json.data.Some? && json.data.value.questions.Some?)
            && (h.questionCount.Some? ==> h.questionCount.value == |json.data.value.questions.value|)
  {
  }

  /** Clearing the history empties it and touches nothing else. */
  function ClearHistory(st: PageState): (r: PageState)
    ensures r.history == []
    ensures r.(history := st.history) == st
  {
    st.(history := [])
  }

  /** What a user can do on the page. */
  datatype Action = EditPrompt(prompt: string) | Run(outcome: FetchOutcome, clock: RunClock) | Clear

  function Apply(st: PageState, a: Action): PageState {
    match a
    case EditPrompt(p) => st.(prompt := p)
    case Run(outcome, clock) => RunAgents(st, outcome, clock)
    case Clear => ClearHistory(st)
  }

  function ApplyAll(st: PageState, actions: seq<Action>): PageState
    decreases |actions|
  {
    if actions == [] then st else ApplyAll(Apply(st, actions[0]), actions[1..])
  }

  /**
   * What holds between runs: nothing is loading, the timeline has its five
   * stages in order and each is pending or completed, and the history keeps
   * at most ten entries.
   */
  predicate Settled(st: PageState) {
    && !st.loading
    && KeyedInOrder(st.steps)
    && (forall i :: 0 <= i < |st.steps| ==> st.steps[i].status == Pending || st.steps[i].status == Completed)
    && |st.history| <= 10
  }

  lemma FreshIsSettled()
    ensures Settled(Fresh)
  {
  }

  lemma ApplySettled(st: PageState, a: Action)
    requires Settled(st)
    ensures Settled(Apply(st, a))
  {
    match a
    case EditPrompt(p) =>
    case Clear =>
    case Run(outcome, clock) =>
      if CanRun(st.prompt, st.loading) && outcome.Threw? {
        assert RunAgents(st, outcome, clock).steps == InitialSteps();
      }
  }

  /**
   * Whatever the user does, no stage is ever shown running or failed, the
   * stages stay in timeline order, and the history never exceeds ten entries.
   */
  lemma {:induction false} AlwaysSettled(st: PageState, actions: seq<Action>)
    requires Settled(st)
    ensures Settled(ApplyAll(st, actions))
    decreases |actions|
  {
    if actions != [] {
      ApplySettled(st, actions[0]);
      AlwaysSettled(Apply(st, actions[0]), actions[1..]);
    }
  }

  /**
   * Against the one-shot route's fallback mock, a run shows one generated
   * question, keeps the default subtitles of the content, forms and classroom
   * stages, shows no confetti, and logs a successful entry with one question
   * and no form link.
   */
  lemma RunOnMock(st: PageState, clock: RunClock)
    requires CanRun(st.prompt, st.loading)
    ensures var r := RunAgents(st, Parsed(SyncRoute.Mock), clock);
            && r.steps[Index(QuizStage)].subtitle == "Generated 1 questions"
            && r.steps[Index(ContentStage)].subtitle == DefaultSubtitle(ContentStage)
            && r.steps[Index(FormsStage)].subtitle == DefaultSubtitle(FormsStage)
            && r.steps[Index(ClassroomStage)].subtitle == DefaultSubtitle(ClassroomStage)
            && !r.confetti
            && r.history[0].success && r.history[0].questionCount == Some(1) && r.history[0].formUrl.None?
  {
    SyncRoute.MockShape();
    OneQuestionSubtitles(SyncRoute.Mock.data, clock.stepDuration);
    HistoryEntryOfRun(st, SyncRoute.Mock, clock);
    ConfettiIffAssigned(st, Parsed(SyncRoute.Mock), clock);
  }

  /** A response whose data holds one question and nothing else the timeline looks at. */
  lemma OneQuestionSubtitles(data: Option<ResponseData>, d: real)
    requires data.Some? && data.value.questions.Some? && |data.value.questions.value| == 1
    requires data.value.content.None? && data.value.formUrl.None? && data.value.delivery.None?
    ensures var r := CompletedSteps(data, d);
            && r[Index(QuizStage)].subtitle == "Generated 1 questions"
            && r[Index(ContentStage)].subtitle == DefaultSubtitle(ContentStage)
            && r[Index(FormsStage)].subtitle == DefaultSubtitle(FormsStage)
            && r[Index(ClassroomStage)].subtitle == DefaultSubtitle(ClassroomStage)
  {
    CompletedSubtitles(data, d);
    OneQuestionText();
  }

  lemma OneQuestionText()
    ensures "Generated " + NatToString(1) + " questions" == "Generated 1 questions"
  {
    assert NatToString(1) == "1";
    assert "Generated " + "1" == "Generated 1";
  }
}
