/**
 * The Gemini text-generation wrapper (backend/services/gemini_service.py).
 *
 * The client library, the environment and the remote model are not part of
 * the model: whether the library is importable, whether configuring it
 * succeeds and what one generation call returns are parameters. What is
 * modelled is the service's own state machine: when it (re)initialises, when
 * it falls back to the mock generator, and which errors make it retry later.
 */
module GeminiService {
  import opened Wrappers
  import opened Text
  import opened Json
  import opened Schemas

  /**
   * The service object. `modelReady` stands for `self.model is not None`.
   * `mockMode` is kept as the source keeps it, although nothing reads it.
   */
  datatype Gemini = Gemini(
    apiKey: Option<string>,
    libAvailable: bool,
    modelReady: bool,
    initialized: bool,
    mockMode: bool)
  {
    /** The model object exists exactly when the service counts as initialised;
        that needs a key and the library, and mock mode is never on meanwhile. */
    ghost predicate Valid() {
      && initialized == modelReady
      && (initialized ==> Truthy(apiKey) && libAvailable)
      && (mockMode ==> !initialized)
    }
  }

  /** Python truthiness of an optional string. */
  predicate Truthy(s: Option<string>) {
    s.Some? && s.value != ""
  }

  /** What one `model.generate_content(prompt)` call does. */
  datatype CallOutcome =
    | HasText(text: string)   // a response carrying `.text`
    | NoText                  // a falsy response, or one without `.text`
    | Raised(message: string) // an exception, by its `str(e)`

  /** The errors after which the service drops its model and retries on the next request. */
  predicate IsConnectionError(message: string) {
    || Contains(message, "Request ID")
    || Contains(Lower(message), "connection")
    || Contains(Lower(message), "network")
  }

  /**
   * `_try_initialize()`: without a key or the library it only switches to mock
   * mode; otherwise `configureSucceeds` says whether configuring the library
   * and building the model raised.
   */
  function TryInitialize(g: Gemini, configureSucceeds: bool): (r: (Gemini, bool))
    requires g.Valid()
    ensures r.0.Valid()
    ensures r.1 <==> Truthy(g.apiKey) && g.libAvailable && configureSucceeds
    ensures r.1 <==> r.0.initialized
    ensures r.0.mockMode == !r.1
    ensures r.0.apiKey == g.apiKey && r.0.libAvailable == g.libAvailable
  {
    if !Truthy(g.apiKey) || !g.libAvailable then
      (g.(mockMode := true), false)
    else if configureSucceeds then
      (g.(modelReady := true, mockMode := false, initialized := true), true)
    else
      (g.(mockMode := true, modelReady := false, initialized := false), false)
  }

  /** `GeminiService(api_key)`: the argument, else the environment variable, then one attempt. */
  function Create(apiKey: Option<string>, envKey: Option<string>, libAvailable: bool, configureSucceeds: bool): (g: Gemini)
    ensures g.Valid()
    ensures g.apiKey == (if Truthy(apiKey) then apiKey else envKey)
    ensures g.initialized <==> Truthy(g.apiKey) && libAvailable && configureSucceeds
  {
    var key := if Truthy(apiKey) then apiKey else envKey;
    TryInitialize(Gemini(key, libAvailable, false, false, false), configureSucceeds).0
  }

  const MockOptions: seq<string> :=
    ["Option A is correct", "Option B is correct", "Option C is correct", "Option D is correct"]

  /** The `i`-th question of the mock generator (`i` counted from zero). */
  function MockQuestion(i: nat): (q: QuizQuestion)
    ensures WellFormedQuestion(q)
  {
    QuizQuestion(
      "Based on the content, which statement is most accurate? (Question " + NatToString(i + 1) + ")",
      MockOptions,
      MockOptions[0])
  }

  /** `_mock_quiz_generation(content, n)` before serialisation: `range(n)` is empty for `n <= 0`. */
  function MockQuestions(n: int): (qs: seq<QuizQuestion>)
    ensures |qs| == (if n < 0 then 0 else n)
    ensures forall i :: 0 <= i < |qs| ==> qs[i] == MockQuestion(i)
    ensures forall i :: 0 <= i < |qs| ==> WellFormedQuestion(qs[i])
  {
    var m := if n < 0 then 0 else n;
    seq(m, i requires 0 <= i < m => MockQuestion(i))
  }

  /** The mock generator's reply: `json.dumps` of the mock questions. */
  function MockQuizText(n: int): string {
    Dumps(QuestionsJson(MockQuestions(n)))
  }

  /**
   * `generate_quiz_questions(content, n)`. The prompt sent to the model is
   * not modelled; `retrySucceeds` is the outcome of the re-initialisation the
   * call attempts when no model is ready, and `call` the model's answer.
   * Returns the new service state and the reply text.
   */
  function GenerateQuizQuestions(g: Gemini, n: int, retrySucceeds: bool, call: CallOutcome): (r: (Gemini, string))
    requires g.Valid()
    ensures r.0.Valid()
    ensures r.0.apiKey == g.apiKey && r.0.libAvailable == g.libAvailable
    // no key or no library: mock text, and the state is not touched
    ensures !(Truthy(g.apiKey) && g.libAvailable) ==> r == (g, MockQuizText(n))
    // the model answers exactly when it was ready, or the retry made it ready
    ensures var ready := g.initialized || (Truthy(g.apiKey) && g.libAvailable && retrySucceeds);
            r.1 == (if ready && call.HasText? then PyStrip(call.text) else MockQuizText(n))
    // a connection error drops the model so that the next request retries
    ensures var ready := g.initialized || (Truthy(g.apiKey) && g.libAvailable && retrySucceeds);
            ready && call.Raised? ==> (r.0.initialized <==> !IsConnectionError(call.message))
    // a ready service stays ready unless the call raised a connection error
    ensures g.initialized && !(call.Raised? && IsConnectionError(call.message)) ==> r.0 == g
    // an unready service with key and library retries: mock mode ends exactly when the
    // retry succeeds, and the model stays ready unless the call then raises a connection error
    ensures !g.initialized && Truthy(g.apiKey) && g.libAvailable ==>
              && r.0.mockMode == !retrySucceeds
              && (r.0.initialized <==> retrySucceeds && !(call.Raised? && IsConnectionError(call.message)))
  {
    var (h, ready) :=
      if g.initialized then (g, true)
      else if Truthy(g.apiKey) && g.libAvailable then TryInitialize(g, retrySucceeds)
      else (g, false);
    if !ready then (h, MockQuizText(n))
    else
      match call
      case HasText(t) => (h, PyStrip(t))
      case NoText => (h, MockQuizText(n))
      case Raised(msg) =>
        if IsConnectionError(msg) then (h.(initialized := false, modelReady := false), MockQuizText(n))
        else (h, MockQuizText(n))
  }

  /** After a connection error, a request whose retry succeeds reaches the model again. */
  lemma ConnectionErrorRecovers(g: Gemini, n: int, msg: string, t: string)
    requires g.Valid() && g.initialized
    requires IsConnectionError(msg)
    ensures var after := GenerateQuizQuestions(g, n, false, Raised(msg)).0;
            && !after.initialized
            && GenerateQuizQuestions(after, n, true, HasText(t)).1 == PyStrip(t)
  {
  }

  /**
   * Any error that is not a connection error is handled like a reply without
   * text: the mock text for this request, and the service as the retry left it.
   */
  lemma OtherErrorIsLikeNoReply(g: Gemini, n: int, retrySucceeds: bool, msg: string)
    requires g.Valid() && !IsConnectionError(msg)
    ensures GenerateQuizQuestions(g, n, retrySucceeds, Raised(msg)) == GenerateQuizQuestions(g, n, retrySucceeds, NoText)
  {
  }

  /** A service built without any key stays in mock mode whatever happens later. */
  lemma NoKeyAlwaysMock(g: Gemini, n: int, retrySucceeds: bool, call: CallOutcome)
    requires g.Valid() && !Truthy(g.apiKey)
    ensures GenerateQuizQuestions(g, n, retrySucceeds, call).1 == MockQuizText(n)
  {
  }

  /** The mock reply is a JSON array: its text starts with `[` and ends with `]`. */
  lemma MockQuizTextIsArray(n: int)
    ensures var t := MockQuizText(n); |t| >= 2 && t[0] == '[' && t[|t| - 1] == ']'
  {
  }
}
