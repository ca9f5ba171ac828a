/**
 * The quiz agent (backend/agents/quiz_agent.py): clamps the requested count,
 * asks the Gemini service for questions, strips Markdown code fences from the
 * reply, and normalises what it parsed to exactly the requested number of
 * four-option questions.
 *
 * `json.loads` is a parameter: `decode` maps the cleaned reply text to what
 * parsing it yields, read as the loop over `quiz_data` reads it.
 */
module QuizAgent {
  import opened Wrappers
  import opened Text
  import opened Json
  import opened Schemas
  import opened GeminiService
  import opened Fences

  const DefaultCount: nat := 5
  const MaxCount: nat := 50

  /** The count actually requested: `None` or non-positive means 5, above 50 means 50. */
  function ClampCount(n: Option<int>): (r: nat)
    ensures 1 <= r <= MaxCount
    ensures n.Some? && 1 <= n.value <= MaxCount ==> r == n.value
    ensures (n.None? || n.value <= 0) ==> r == DefaultCount
    ensures n.Some? && n.value > MaxCount ==> r == MaxCount
  {
    if n.None? || n.value <= 0 then DefaultCount
    else if n.value > MaxCount then MaxCount
    else n.value
  }

  /**
   * One element of the parsed list, seen through the `"key" in item` tests:
   * `None` stands for a missing key.
   */
  datatype RawItem = RawItem(question: Option<string>, options: Option<seq<string>>, correctAnswer: Option<string>)

  /** What `json.loads` and the loop over its result come to. */
  datatype Decoded =
    | NotJson                    // `json.JSONDecodeError`
    | Items(items: seq<RawItem>) // a list of objects with string fields
    | ShapeError(message: string) // any other exception; it propagates to the caller

  /** "Option " followed by the letter for position `k` (A for 0). */
  function OptionLabel(k: nat): string
    requires k < 26
  {
    "Option " + [(65 + k) as char]
  }

  /** Pad with "Option <letter>" up to four entries, or keep only the first four. */
  function FourOptions(options: seq<string>): (r: seq<string>)
    ensures |r| == 4
    ensures forall k :: 0 <= k < 4 && k < |options| ==> r[k] == options[k]
    ensures forall k :: |options| <= k < 4 ==> r[k] == OptionLabel(k)
    decreases 4 - |options|
  {
    if |options| < 4 then FourOptions(options + [OptionLabel(|options|)])
    else options[..4]
  }

  /** The items that carry all three keys, each with its options normalised, in order. */
  function ValidItems(items: seq<RawItem>): (qs: seq<QuizQuestion>)
    ensures |qs| <= |items|
    ensures forall i :: 0 <= i < |qs| ==> |qs[i].options| == 4
  {
    if items == [] then []
    else
      var it := items[0];
      var rest := ValidItems(items[1..]);
      if it.question.Some? && it.options.Some? && it.correctAnswer.Some? then
        [QuizQuestion(it.question.value, FourOptions(it.options.value), it.correctAnswer.value)] + rest
      else rest
  }

  predicate Complete(it: RawItem) {
    it.question.Some? && it.options.Some? && it.correctAnswer.Some?
  }

  /** `ValidItems` keeps exactly the complete items, in their order. */
  lemma {:induction false} ValidItemsKeepsCompleteOnes(items: seq<RawItem>)
    ensures |ValidItems(items)| == |Filter(items)|
    ensures forall i :: 0 <= i < |ValidItems(items)| ==>
              var it := Filter(items)[i];
              ValidItems(items)[i] == QuizQuestion(it.question.value, FourOptions(it.options.value), it.correctAnswer.value)
  {
    if items != [] {
      ValidItemsKeepsCompleteOnes(items[1..]);
    }
  }

  /** The complete items, in order. */
  function Filter(items: seq<RawItem>): (r: seq<RawItem>)
    ensures |r| <= |items|
    ensures forall i :: 0 <= i < |r| ==> Complete(r[i]) && r[i] in items
    ensures forall i :: 0 <= i < |items| && Complete(items[i]) ==> items[i] in r
    ensures (forall i :: 0 <= i < |items| ==> Complete(items[i])) ==> r == items
  {
    if items == [] then []
    else if Complete(items[0]) then [items[0]] + Filter(items[1..])
    else Filter(items[1..])
  }

  /**
   * Filtering distributes over concatenation, so the kept items keep their
   * relative order: filtering is done item by item, left to right.
   */
  lemma {:induction false} FilterConcat(a: seq<RawItem>, b: seq<RawItem>)
    ensures Filter(a + b) == Filter(a) + Filter(b)
  {
    if a != [] {
      assert (a + b)[0] == a[0];
      assert (a + b)[1..] == a[1..] + b;
      FilterConcat(a[1..], b);
    } else {
      assert a + b == b;
    }
  }

  /** A single item is kept exactly when it is complete. */
  lemma FilterSingle(x: RawItem)
    ensures Filter([x]) == (if Complete(x) then [x] else [])
  {
    assert [x][1..] == [];
  }

  const StandardOptions: seq<string> := ["Option A", "Option B", "Option C", "Option D"]

  /** The padding question appended when the list has `k` questions. */
  function AdditionalQuestion(k: nat): (q: QuizQuestion)
    ensures WellFormedQuestion(q)
  {
    QuizQuestion("Additional question " + NatToString(k + 1) + "?", StandardOptions, StandardOptions[0])
  }

  /** Append padding questions up to `n`, then keep the first `n`. */
  function FitCount(qs: seq<QuizQuestion>, n: nat): (r: seq<QuizQuestion>)
    ensures |r| == n
    ensures forall i :: 0 <= i < n && i < |qs| ==> r[i] == qs[i]
    ensures forall i :: |qs| <= i < n ==> r[i] == AdditionalQuestion(i)
    decreases n - |qs|
  {
    if |qs| < n then FitCount(qs + [AdditionalQuestion(|qs|)], n) else qs[..n]
  }

  /** `_generate_fallback_quiz(n)`. */
  function FallbackQuiz(n: nat): (r: seq<QuizQuestion>)
    ensures |r| == n
    ensures forall i :: 0 <= i < n ==> WellFormedQuestion(r[i])
  {
    seq(n, i requires 0 <= i < n =>
      QuizQuestion("Sample question " + NatToString(i + 1) + "?", StandardOptions, StandardOptions[0]))
  }

  /** The questions built from a decoded reply, or the exception that escapes. */
  function QuestionsFrom(decoded: Decoded, n: nat): (r: Result<seq<QuizQuestion>, string>)
    ensures r.Ok? ==> |r.value| == n
    ensures r.Ok? ==> forall i :: 0 <= i < n ==> |r.value[i].options| == 4
    ensures r.Err? <==> decoded.ShapeError?
    ensures decoded.NotJson? ==> r == Ok(FallbackQuiz(n))
    ensures decoded.Items? ==> r == Ok(FitCount(ValidItems(decoded.items), n))
  {
    match decoded
    case NotJson => Ok(FallbackQuiz(n))
    case ShapeError(msg) => Err(msg)
    case Items(items) => Ok(FitCount(ValidItems(items), n))
  }

  /**
   * `generate_quiz(content, n, gemini)`: the new service state and either the
   * questions or the message of the exception the caller sees.
   */
  function GenerateQuiz(
    n: Option<int>, g: Gemini, retrySucceeds: bool, call: CallOutcome, decode: string -> Decoded)
    : (r: (Gemini, Result<seq<QuizQuestion>, string>))
    requires g.Valid()
    ensures r.0.Valid()
    ensures r.1.Ok? ==> 1 <= |r.1.value| <= MaxCount && |r.1.value| == ClampCount(n)
    ensures r.1.Ok? ==> forall i :: 0 <= i < |r.1.value| ==> |r.1.value[i].options| == 4
    // the service state is the one the call leaves behind
    ensures r.0 == GenerateQuizQuestions(g, ClampCount(n), retrySucceeds, call).0
    // only a reply of the wrong shape escapes; text that is not JSON falls back; parsed items come first
    ensures var decoded := decode(CleanFences(GenerateQuizQuestions(g, ClampCount(n), retrySucceeds, call).1));
            && (r.1.Err? <==> decoded.ShapeError?)
            && (decoded.NotJson? ==> r.1 == Ok(FallbackQuiz(ClampCount(n))))
            && (decoded.Items? ==> r.1 == Ok(FitCount(ValidItems(decoded.items), ClampCount(n))))
  {
    var count := ClampCount(n);
    var (h, reply) := GenerateQuizQuestions(g, count, retrySucceeds, call);
    (h, QuestionsFrom(decode(CleanFences(reply)), count))
  }

  /** The mock questions, complete and four-option each, come through as they are. */
  function AsRaw(qs: seq<QuizQuestion>): seq<RawItem> {
    seq(|qs|, i requires 0 <= i < |qs| => RawItem(Some(qs[i].question), Some(qs[i].options), Some(qs[i].correctAnswer)))
  }

  lemma {:induction false} ValidItemsOfAsRaw(qs: seq<QuizQuestion>)
    requires forall i :: 0 <= i < |qs| ==> |qs[i].options| == 4
    ensures ValidItems(AsRaw(qs)) == qs
  {
    if qs != [] {
      assert AsRaw(qs)[1..] == AsRaw(qs[1..]);
      ValidItemsOfAsRaw(qs[1..]);
      assert FourOptions(qs[0].options) == qs[0].options;
    }
  }

  /** Complete four-option questions decode back to themselves, padding nothing. */
  lemma QuestionsFromComplete(qs: seq<QuizQuestion>)
    requires forall i :: 0 <= i < |qs| ==> |qs[i].options| == 4
    ensures QuestionsFrom(Items(AsRaw(qs)), |qs|) == Ok(qs)
  {
    ValidItemsOfAsRaw(qs);
    assert FitCount(qs, |qs|) == qs;
  }

  /** Without a key the quiz is built from the mock generator's text. */
  lemma NoKeyQuizFromMockText(n: Option<int>, g: Gemini, retrySucceeds: bool, call: CallOutcome, decode: string -> Decoded)
    requires g.Valid() && !Truthy(g.apiKey)
    ensures GenerateQuiz(n, g, retrySucceeds, call, decode)
            == (g, QuestionsFrom(decode(MockQuizText(ClampCount(n))), ClampCount(n)))
  {
    var count := ClampCount(n);
    var text := MockQuizText(count);
    assert GenerateQuizQuestions(g, count, retrySucceeds, call) == (g, text);
    MockQuizTextIsArray(count);
    CleanFencesKeepsBareArray(text);
  }

  /**
   * In mock mode the quiz is exactly the mock generator's questions: the
   * mock text is a bare array that fence cleaning leaves alone, and, given that
   * `json.loads` inverts `json.dumps` on it, every question survives.
   */
  lemma MockModeQuiz(n: Option<int>, g: Gemini, retrySucceeds: bool, call: CallOutcome, decode: string -> Decoded)
    requires g.Valid() && !Truthy(g.apiKey)
    requires decode(MockQuizText(ClampCount(n))) == Items(AsRaw(MockQuestions(ClampCount(n))))
    ensures GenerateQuiz(n, g, retrySucceeds, call, decode) == (g, Ok(MockQuestions(ClampCount(n))))
  {
    NoKeyQuizFromMockText(n, g, retrySucceeds, call, decode);
    QuestionsFromMock(ClampCount(n), decode);
  }

  lemma QuestionsFromMock(count: nat, decode: string -> Decoded)
    requires decode(MockQuizText(count)) == Items(AsRaw(MockQuestions(count)))
    ensures QuestionsFrom(decode(MockQuizText(count)), count) == Ok(MockQuestions(count))
  {
    var qs := MockQuestions(count);
    QuestionsFromComplete(qs);
  }
}
