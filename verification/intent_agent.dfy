/**
 * The intent agent (backend/agents/intent_agent.py): keyword scoring of a
 * prompt into one of four intents, a confidence, the content source, the
 * output target and an optional requested question count.
 */
module IntentAgent {
  import opened Wrappers
  import opened Text
  import opened Patterns
  import opened Schemas

  const QuizKeywords: seq<string> := ["quiz", "test", "questions", "exam", "assessment", "mcq"]
  const LearningKeywords: seq<string> := ["plan", "learning path", "syllabus", "curriculum", "study plan"]
  const AnalyticsKeywords: seq<string> := ["analyze", "analysis", "results", "performance", "stats", "statistics"]
  const SchedulingKeywords: seq<string> := ["schedule", "calendar", "deadline", "timeline", "plan time"]

  /** The verbs of the fallback count pattern, in pattern order. */
  const CountVerbs: seq<string> := ["create", "make", "generate"]

  predicate Distinct(ws: seq<string>) {
    forall i, j :: 0 <= i < j < |ws| ==> ws[i] != ws[j]
  }

  /** `sum(1 for kw in kws if kw in s)`. */
  function Score(s: string, kws: seq<string>): (n: nat)
    ensures n <= |kws|
  {
    if kws == [] then 0 else (if Contains(s, kws[0]) then 1 else 0) + Score(s, kws[1..])
  }

  /** With a duplicate-free list, the score is the number of distinct keywords found. */
  lemma {:induction false} ScoreCountsKeywordsFound(s: string, kws: seq<string>)
    requires Distinct(kws)
    ensures Score(s, kws) == |set w | w in kws && Contains(s, w)|
  {
    if kws != [] {
      var rest := set w | w in kws[1..] && Contains(s, w);
      ScoreCountsKeywordsFound(s, kws[1..]);
      assert kws[0] !in kws[1..] by {
        forall k | 0 <= k < |kws[1..]|
          ensures kws[1..][k] != kws[0]
        {
          assert kws[1..][k] == kws[k + 1];
        }
      }
      if Contains(s, kws[0]) {
        assert (set w | w in kws && Contains(s, w)) == rest + {kws[0]};
      } else {
        assert (set w | w in kws && Contains(s, w)) == rest;
      }
    }
  }

  lemma KeywordListsDistinct()
    ensures Distinct(QuizKeywords) && Distinct(LearningKeywords)
    ensures Distinct(AnalyticsKeywords) && Distinct(SchedulingKeywords)
  {
  }

  /** The score of each category for an already lower-cased prompt. */
  function ScoreFor(s: string, t: IntentType): nat {
    match t
    case QuizCreation => Score(s, QuizKeywords)
    case LearningPlan => Score(s, LearningKeywords)
    case Analytics => Score(s, AnalyticsKeywords)
    case Scheduling => Score(s, SchedulingKeywords)
  }

  /** Position of a category in the `scores` dict (its insertion order). */
  function Rank(t: IntentType): nat {
    match t
    case QuizCreation => 0
    case LearningPlan => 1
    case Analytics => 2
    case Scheduling => 3
  }

  function MaxScore(s: string): (m: nat)
    ensures forall t: IntentType :: ScoreFor(s, t) <= m
    ensures exists t: IntentType :: ScoreFor(s, t) == m
  {
    var q := ScoreFor(s, QuizCreation);
    var l := ScoreFor(s, LearningPlan);
    var a := ScoreFor(s, Analytics);
    var c := ScoreFor(s, Scheduling);
    var m1 := if q >= l then q else l;
    var m2 := if a >= c then a else c;
    if m1 >= m2 then m1 else m2
  }

  /**
   * `max(scores, key=scores.get)`: a category of maximal score, and among
   * those the earliest in dict order (Python's `max` keeps the first maximum).
   */
  function PickIntent(s: string): (t: IntentType)
    ensures ScoreFor(s, t) == MaxScore(s)
    ensures forall u: IntentType :: Rank(u) < Rank(t) ==> ScoreFor(s, u) < ScoreFor(s, t)
  {
    var m := MaxScore(s);
    if ScoreFor(s, QuizCreation) == m then QuizCreation
    else if ScoreFor(s, LearningPlan) == m then LearningPlan
    else if ScoreFor(s, Analytics) == m then Analytics
    else Scheduling
  }

  /** `0.5` without any keyword, else `min(0.9, 0.6 + 0.1 * max)`, in hundredths. */
  function Confidence(s: string): (c: nat)
    ensures c == 50 || c == 70 || c == 80 || c == 90
    ensures c == 50 <==> MaxScore(s) == 0
    ensures MaxScore(s) == 1 ==> c == 70
    ensures MaxScore(s) == 2 ==> c == 80
    ensures MaxScore(s) >= 3 ==> c == 90
  {
    var m := MaxScore(s);
    if m > 0 then (if 60 + 10 * m < 90 then 60 + 10 * m else 90) else 50
  }

  /** The second test of each source pair is subsumed by the first. */
  lemma SourceTestsSubsumed(s: string)
    ensures Contains(s, "google classroom") ==> Contains(s, "classroom")
    ensures Contains(s, "document") ==> Contains(s, "doc")
  {
    assert "classroom" <= "google classroom"[7..];
    assert Contains("google classroom", "classroom");
    assert "doc" <= "document"[0..];
    assert Contains("document", "doc");
    if Contains(s, "google classroom") {
      ContainsTransitive(s, "google classroom", "classroom");
    }
    if Contains(s, "document") {
      ContainsTransitive(s, "document", "doc");
    }
  }

  /** More keyword hits never lower the confidence, and each hit below the cap adds 0.1. */
  lemma ConfidenceMonotone(s: string, t: string)
    requires MaxScore(s) <= MaxScore(t)
    ensures Confidence(s) <= Confidence(t)
    ensures 0 < MaxScore(s) && MaxScore(t) == MaxScore(s) + 1 && MaxScore(t) <= 3 ==> Confidence(t) == Confidence(s) + 10
  {
  }

  /** Where the content comes from. */
  function DetectSource(s: string): (r: Source)
    ensures r == FromClassroom <==> Contains(s, "classroom")
    ensures r == FromDocs <==> !Contains(s, "classroom") && Contains(s, "doc")
    ensures r == ManualText <==> !Contains(s, "classroom") && !Contains(s, "doc")
  {
    SourceTestsSubsumed(s);
    if Contains(s, "classroom") || Contains(s, "google classroom") then FromClassroom
    else if Contains(s, "doc") || Contains(s, "document") then FromDocs
    else ManualText
  }

  /** Where the output goes; `google_forms` both when "form" occurs and by default. */
  function DetectTarget(s: string): (r: Target)
    ensures Contains(s, "form") ==> r == ToForms
    ensures r == ToClassroom <==> !Contains(s, "form") && Contains(s, "classroom") && Contains(s, "assign")
    ensures r == ToCalendar <==>
              && !Contains(s, "form")
              && !(Contains(s, "classroom") && Contains(s, "assign"))
              && (Contains(s, "calendar") || Contains(s, "schedule"))
  {
    if Contains(s, "form") then ToForms
    else if Contains(s, "classroom") && Contains(s, "assign") then ToClassroom
    else if Contains(s, "calendar") || Contains(s, "schedule") then ToCalendar
    else ToForms
  }

  /** The requested question count: the count pattern first, then the verb pattern. */
  function ExtractCount(s: string): (r: Option<int>)
    ensures r.Some? ==> r.value >= 0
    ensures SearchCount(s).Some? ==> r == Some(DigitsValue(SearchCount(s).value))
    ensures SearchCount(s).None? && SearchKeywordNumber(s, CountVerbs).Some? ==>
              r == Some(DigitsValue(SearchKeywordNumber(s, CountVerbs).value))
    ensures r.None? <==> SearchCount(s).None? && SearchKeywordNumber(s, CountVerbs).None?
  {
    match SearchCount(s)
    case Some(d) => Some(DigitsValue(d))
    case None =>
      match SearchKeywordNumber(s, CountVerbs)
      case Some(d) => Some(DigitsValue(d))
      case None => None
  }

  /** `parse_intent(user_prompt)`: total, with every field inside the `IntentOutput` domains. */
  function ParseIntent(prompt: string): (r: IntentOutput)
    ensures var s := Lower(prompt);
            && ScoreFor(s, r.intentType) == MaxScore(s)
            && (forall u: IntentType :: Rank(u) < Rank(r.intentType) ==> ScoreFor(s, u) < MaxScore(s))
            && (r.confidence == 50 <==> MaxScore(s) == 0)
            && r.confidence == Confidence(s)
            && r.source == DetectSource(s)
            && r.target == DetectTarget(s)
            && r.numQuestions == ExtractCount(s)
    ensures ValidConfidence(r.confidence) && 50 <= r.confidence <= 90
    ensures r.numQuestions.Some? ==> r.numQuestions.value >= 0
  {
    var s := Lower(prompt);
    IntentOutput(PickIntent(s), DetectSource(s), DetectTarget(s), ExtractCount(s), Confidence(s))
  }

  /** Without any keyword hit the default intent wins every tie. */
  lemma NoKeywordMeansQuizCreation(prompt: string)
    requires MaxScore(Lower(prompt)) == 0
    ensures ParseIntent(prompt).intentType == QuizCreation
    ensures ParseIntent(prompt).confidence == 50
  {
  }
}
