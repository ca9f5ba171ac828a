/**
 * The analytics agent (backend/agents/analytics_agent.py): summary
 * statistics of quiz results and a banded performance level with canned
 * advice. Scores are whole numbers here; the average is an exact `real`.
 */
module AnalyticsAgent {
  import opened Wrappers

  /** One result row; `None` is a missing key. */
  datatype ResultRow = ResultRow(score: Option<int>, total: Option<int>)

  datatype Level = Excellent | Good | Fair | NeedsImprovement {
    function Literal(): string {
      match this
      case Excellent => "excellent"
      case Good => "good"
      case Fair => "fair"
      case NeedsImprovement => "needs_improvement"
    }

    /** Better levels have smaller ranks. */
    function Rank(): nat {
      match this
      case Excellent => 0
      case Good => 1
      case Fair => 2
      case NeedsImprovement => 3
    }
  }

  datatype Statistics = Statistics(
    averageScore: real, maxScore: int, minScore: int, totalStudents: nat, totalQuestions: int)

  datatype Analytics =
    | NoResults // `{"error": "No results to analyze"}`
    | Report(statistics: Statistics, level: Level, weakTopics: seq<string>, suggestions: seq<string>)

  /** `[r.get("score", 0) for r in results]`. */
  function Scores(results: seq<ResultRow>): (s: seq<int>)
    ensures |s| == |results|
    ensures forall i :: 0 <= i < |s| ==> s[i] == results[i].score.GetOr(0)
  {
    seq(|results|, i requires 0 <= i < |results| => results[i].score.GetOr(0))
  }

  function Sum(xs: seq<int>): int {
    if xs == [] then 0 else xs[0] + Sum(xs[1..])
  }

  function Max(xs: seq<int>): (m: int)
    requires xs != []
    ensures m in xs && forall i :: 0 <= i < |xs| ==> xs[i] <= m
  {
    if |xs| == 1 then xs[0]
    else var m := Max(xs[1..]); if xs[0] >= m then xs[0] else m
  }

  function Min(xs: seq<int>): (m: int)
    requires xs != []
    ensures m in xs && forall i :: 0 <= i < |xs| ==> m <= xs[i]
  {
    if |xs| == 1 then xs[0]
    else var m := Min(xs[1..]); if xs[0] <= m then xs[0] else m
  }

  /** Every element lies between `lo` and `hi`, so the sum lies between `n * lo` and `n * hi`. */
  lemma {:induction false} SumBounds(xs: seq<int>, lo: int, hi: int)
    requires forall i :: 0 <= i < |xs| ==> lo <= xs[i] <= hi
    ensures |xs| * lo <= Sum(xs) <= |xs| * hi
  {
    if xs != [] {
      var rest := xs[1..];
      assert forall i :: 0 <= i < |rest| ==> rest[i] == xs[i + 1];
      SumBounds(rest, lo, hi);
      MulSucc(|rest|, lo);
      MulSucc(|rest|, hi);
    }
  }

  lemma MulSucc(n: int, a: int)
    ensures (n + 1) * a == a + n * a
  {
  }

  function Average(xs: seq<int>): real
    requires xs != []
  {
    Sum(xs) as real / |xs| as real
  }

  lemma DivTimes(s: real, n: real)
    requires n > 0.0
    ensures (s / n) * n == s
  {
  }

  lemma CastMul(a: int, b: int)
    ensures (a * b) as real == a as real * b as real
  {
  }

  /** Dividing by a positive number keeps the bounds `n * lo <= s <= n * hi` as `lo <= s / n <= hi`. */
  lemma DivBetween(s: real, n: real, lo: real, hi: real)
    requires n > 0.0 && n * lo <= s <= n * hi
    ensures lo <= s / n <= hi
  {
    var q := s / n;
    DivTimes(s, n);
    assert (lo - q) * n == n * lo - s;
    assert (q - hi) * n == s - n * hi;
  }

  lemma AverageTimesCount(xs: seq<int>)
    requires xs != []
    ensures Average(xs) * |xs| as real == Sum(xs) as real
  {
    DivTimes(Sum(xs) as real, |xs| as real);
  }

  /** Whole-number bounds on a sum carry over to its quotient by the count. */
  lemma QuotientBetween(total: int, n: int, lo: int, hi: int)
    requires n > 0 && n * lo <= total <= n * hi
    ensures lo as real <= total as real / n as real <= hi as real
  {
    CastMul(n, lo);
    CastMul(n, hi);
    DivBetween(total as real, n as real, lo as real, hi as real);
  }

  /** The average lies between the smallest and the largest score. */
  lemma AverageBetweenMinAndMax(xs: seq<int>)
    requires xs != []
    ensures Min(xs) as real <= Average(xs) <= Max(xs) as real
  {
    SumBounds(xs, Min(xs), Max(xs));
    QuotientBetween(Sum(xs), |xs|, Min(xs), Max(xs));
  }

  /** An average clears a whole-number threshold exactly when the sum clears `threshold * count`. */
  lemma ThresholdOnSum(xs: seq<int>, threshold: int)
    requires xs != []
    ensures Average(xs) >= threshold as real <==> Sum(xs) >= threshold * |xs|
  {
    var n := |xs| as real;
    DivTimes(Sum(xs) as real, n);
    assert (threshold * |xs|) as real == threshold as real * n;
    if Average(xs) >= threshold as real {
      assert (Average(xs) - threshold as real) * n >= 0.0;
    } else {
      assert (threshold as real - Average(xs)) * n > 0.0;
    }
  }

  function LevelFor(avg: real): (l: Level)
    ensures l == Excellent <==> avg >= 90.0
    ensures l == Good <==> 75.0 <= avg < 90.0
    ensures l == Fair <==> 60.0 <= avg < 75.0
    ensures l == NeedsImprovement <==> avg < 60.0
  {
    if avg >= 90.0 then Excellent
    else if avg >= 75.0 then Good
    else if avg >= 60.0 then Fair
    else NeedsImprovement
  }

  /** A higher average never gives a worse level. */
  lemma LevelMonotone(a: real, b: real)
    requires a <= b
    ensures LevelFor(b).Rank() <= LevelFor(a).Rank()
  {
  }

  const WeakTopics: seq<string> := ["Topic A needs more practice", "Topic B requires additional review"]

  function SuggestionsFor(avg: real): (s: seq<string>)
    ensures |s| == (if avg < 75.0 then 2 else if avg >= 90.0 then 1 else 0)
  {
    if avg < 75.0 then ["Consider additional practice sessions", "Review foundational concepts"]
    else if avg >= 90.0 then ["Excellent performance! Consider advanced topics"]
    else []
  }

  /** The `statistics` block for a non-empty result list (the average before rounding). */
  function StatisticsOf(results: seq<ResultRow>): (s: Statistics)
    requires results != []
    ensures s.totalStudents == |results|
    ensures s.totalQuestions == results[0].total.GetOr(100)
    ensures s.minScore as real <= s.averageScore <= s.maxScore as real
    ensures s.averageScore == Average(Scores(results))
    ensures forall i :: 0 <= i < |results| ==> s.minScore <= results[i].score.GetOr(0) <= s.maxScore
    ensures exists i :: 0 <= i < |results| && results[i].score.GetOr(0) == s.minScore
    ensures exists i :: 0 <= i < |results| && results[i].score.GetOr(0) == s.maxScore
  {
    var scores := Scores(results);
    var avg := Average(scores);
    AverageBetweenMinAndMax(scores);
    Statistics(avg, Max(scores), Min(scores), |results|, results[0].total.GetOr(100))
  }

  /** `analyze_quiz_results(results)`. */
  function AnalyzeQuizResults(results: seq<ResultRow>): (r: Analytics)
    ensures r.NoResults? <==> results == []
    ensures r.Report? ==>
              && r.statistics == StatisticsOf(results)
              && r.level == LevelFor(r.statistics.averageScore)
              && r.weakTopics == (if r.statistics.averageScore < 80.0 then WeakTopics else [])
              && (r.weakTopics != [] <==> r.statistics.averageScore < 80.0)
              && r.suggestions == SuggestionsFor(r.statistics.averageScore)
  {
    if results == [] then NoResults
    else
      var s := StatisticsOf(results);
      Report(s, LevelFor(s.averageScore), if s.averageScore < 80.0 then WeakTopics else [], SuggestionsFor(s.averageScore))
  }

  /** The level bands, restated on whole numbers: the score total against the threshold per student. */
  lemma LevelOnTotals(results: seq<ResultRow>)
    requires results != []
    ensures var r := AnalyzeQuizResults(results);
            var total, n := Sum(Scores(results)), |results|;
            && (r.level == Excellent <==> total >= 90 * n)
            && (r.level == NeedsImprovement <==> total < 60 * n)
            && (r.weakTopics == [] <==> total >= 80 * n)
  {
    var scores := Scores(results);
    ThresholdOnSum(scores, 90);
    ThresholdOnSum(scores, 60);
    ThresholdOnSum(scores, 80);
  }
}
