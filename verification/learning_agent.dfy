/**
 * The learning agent (backend/agents/learning_agent.py): a fixed three-step
 * plan, whatever the syllabus says, tagged with the student's level.
 */
module LearningAgent {
  import opened Wrappers
  import opened Text

  datatype Difficulty = Beginner | Intermediate | Advanced {
    function Literal(): string {
      match this
      case Beginner => "beginner"
      case Intermediate => "intermediate"
      case Advanced => "advanced"
    }
  }

  /** One topic; the estimated time is `hours` written as "<n> hours". */
  datatype Topic = Topic(topic: string, difficulty: Difficulty, resources: seq<string>, hours: nat)

  datatype Plan = Plan(topics: seq<Topic>, totalEstimatedTime: string, studentLevel: string)

  function HoursText(h: nat): string {
    NatToString(h) + " hours"
  }

  const PlanTopics: seq<Topic> := [
    Topic("Introduction to Core Concepts", Beginner, ["Textbook Chapter 1", "Video Lecture 1"], 2),
    Topic("Intermediate Applications", Intermediate, ["Textbook Chapter 2", "Practice Problems Set 1"], 3),
    Topic("Advanced Topics", Advanced, ["Textbook Chapter 3", "Case Studies"], 4)
  ]

  function TotalHours(ts: seq<Topic>): nat {
    if ts == [] then 0 else ts[0].hours + TotalHours(ts[1..])
  }

  /** `generate_learning_plan(syllabus, student_level)`: the syllabus is not read. */
  function GenerateLearningPlan(syllabus: string, studentLevel: Option<string>): (p: Plan)
    ensures p.studentLevel == (if studentLevel.Some? && studentLevel.value != "" then studentLevel.value else "intermediate")
    ensures |p.topics| == 3
    ensures forall i, j :: 0 <= i < j < |p.topics| ==> p.topics[i].difficulty != p.topics[j].difficulty
  {
    Plan(PlanTopics, "9 hours",
         if studentLevel.Some? && studentLevel.value != "" then studentLevel.value else "intermediate")
  }

  /** The syllabus is never read: any two syllabi give the same plan for the same level. */
  lemma SyllabusIgnored(a: string, b: string, studentLevel: Option<string>)
    ensures GenerateLearningPlan(a, studentLevel) == GenerateLearningPlan(b, studentLevel)
  {
  }

  /** The advertised total is the sum of the topic estimates, and the plan goes from easy to hard. */
  lemma PlanTotalIsSum(syllabus: string, studentLevel: Option<string>)
    ensures var p := GenerateLearningPlan(syllabus, studentLevel);
            && p.totalEstimatedTime == HoursText(TotalHours(p.topics))
            && p.topics[0].difficulty == Beginner && p.topics[2].difficulty == Advanced
  {
    var ts := GenerateLearningPlan(syllabus, studentLevel).topics;
    assert ts[1..][1..][1..] == [];
    assert TotalHours(ts) == 9;
  }
}
