/**
 * The quiz preview's local state (frontend-next/src/components/QuizPreview.tsx):
 * the set of questions whose answer is shown, and the option picked for each
 * question. Rendering is not modelled.
 *
 * The page mounts the preview only while there are questions, and a run
 * clears them first, so the preview's state always belongs to the questions
 * on screen: every revealed index is a question's position.
 */
module QuizPreview {
  import opened Schemas
  import QuizAgent

  /** `toggleReveal(idx)`: shows the answer if hidden, hides it if shown. */
  function ToggleReveal(revealed: set<nat>, i: nat): (r: set<nat>)
    ensures i in r <==> i !in revealed
    ensures forall j :: j != i ==> (j in r <==> j in revealed)
  {
    if i in revealed then revealed - {i} else revealed + {i}
  }

  /** Toggling the same question twice changes nothing. */
  lemma ToggleTwice(revealed: set<nat>, i: nat)
    ensures ToggleReveal(ToggleReveal(revealed, i), i) == revealed
  {
  }

  /** The positions of `n` questions. */
  function AllIndices(n: nat): (r: set<nat>)
    ensures forall i: nat :: i in r <==> i < n
  {
    if n == 0 then {} else AllIndices(n - 1) + {n - 1}
  }

  lemma {:induction false} AllIndicesSize(n: nat)
    ensures |AllIndices(n)| == n
  {
    if n > 0 {
      AllIndicesSize(n - 1);
    }
  }

  /** Every revealed index is a question's position. */
  predicate InRange(revealed: set<nat>, n: nat) {
    forall i :: i in revealed ==> i < n
  }

  /** The reveal-all button: hides every answer when as many are shown as there are questions, else shows them all. */
  function RevealAll(revealed: set<nat>, n: nat): (r: set<nat>)
    ensures InRange(r, n)
    ensures |revealed| == n ==> r == {}
    ensures |revealed| != n ==> r == AllIndices(n)
  {
    if |revealed| == n then {} else AllIndices(n)
  }

  lemma {:induction false} SubsetOfSameSize(a: set<nat>, b: set<nat>)
    requires a <= b && |a| == |b|
    ensures a == b
  {
    if a != b {
      var x :| x in b && x !in a;
      assert a <= b - {x};
      assert |b - {x}| == |b| - 1;
      SubsetSize(a, b - {x});
    }
  }

  lemma {:induction false} SubsetSize(a: set<nat>, b: set<nat>)
    requires a <= b
    ensures |a| <= |b|
  {
    assert b == a + (b - a);
  }

  /**
   * Counting stands for checking: while every revealed index is a question's
   * position, as many revealed answers as questions means every answer is
   * shown. So the button hides everything exactly when everything is shown,
   * and otherwise shows everything.
   */
  lemma RevealAllMeaning(revealed: set<nat>, n: nat)
    requires InRange(revealed, n)
    ensures |revealed| == n <==> revealed == AllIndices(n)
    ensures RevealAll(revealed, n) == (if revealed == AllIndices(n) then {} else AllIndices(n))
  {
    AllIndicesSize(n);
    assert revealed <= AllIndices(n);
    if |revealed| == n {
      SubsetOfSameSize(revealed, AllIndices(n));
    }
  }

  /** Toggling a question on screen and pressing reveal-all keep every revealed index a question's position. */
  lemma InRangeKept(revealed: set<nat>, n: nat, i: nat)
    requires InRange(revealed, n) && i < n
    ensures InRange(ToggleReveal(revealed, i), n)
    ensures InRange(RevealAll(revealed, n), n)
  {
  }

  /** `selectOption(qIdx, option)`: records the choice for that question only. */
  function SelectOption(selected: map<nat, string>, q: nat, option: string): (r: map<nat, string>)
    ensures q in r && r[q] == option
    ensures forall k :: k != q ==> (k in r <==> k in selected)
    ensures forall k :: k != q && k in selected ==> r[k] == selected[k]
  {
    selected[q := option]
  }

  /** A later choice for the same question replaces the earlier one. */
  lemma SelectOverwrites(selected: map<nat, string>, q: nat, a: string, b: string)
    ensures SelectOption(SelectOption(selected, q, a), q, b) == SelectOption(selected, q, b)
  {
  }

  /** Choices for different questions do not interfere. */
  lemma SelectionsCommute(selected: map<nat, string>, q1: nat, a: string, q2: nat, b: string)
    requires q1 != q2
    ensures SelectOption(SelectOption(selected, q1, a), q2, b) == SelectOption(SelectOption(selected, q2, b), q1, a)
  {
  }

  /** `selected === q.correct_answer`: an unanswered question is never correct. */
  predicate IsCorrect(selected: map<nat, string>, q: nat, question: QuizQuestion) {
    q in selected && selected[q] == question.correctAnswer
  }

  /** Right after a choice, the question is correct exactly when the chosen option is the answer, and no other question changes. */
  lemma CorrectAfterSelect(selected: map<nat, string>, q: nat, option: string, questions: seq<QuizQuestion>)
    requires q < |questions|
    ensures IsCorrect(SelectOption(selected, q, option), q, questions[q]) <==> option == questions[q].correctAnswer
    ensures forall k :: 0 <= k < |questions| && k != q ==>
              (IsCorrect(SelectOption(selected, q, option), k, questions[k]) <==> IsCorrect(selected, k, questions[k]))
  {
  }

  /**
   * `String.fromCharCode(65 + k)`: A for the first option, B for the next.
   * Positions from which the code would leave the characters below the
   * surrogate range are not modelled.
   */
  function OptionLetter(k: nat): (c: char)
    requires 65 + k < 0xD800
    ensures c as int == 65 + k
  {
    (65 + k) as char
  }

  /** Four options are lettered A to D, each letter different. */
  lemma FourLetters()
    ensures [OptionLetter(0), OptionLetter(1), OptionLetter(2), OptionLetter(3)] == "ABCD"
    ensures forall j, k :: 0 <= j < k < 0xD800 - 65 ==> OptionLetter(j) != OptionLetter(k)
  {
  }

  /** The labels the quiz agent pads options with name the letter the preview shows at that position. */
  lemma PaddingLabelsMatchLetters(k: nat)
    requires k < 26
    ensures QuizAgent.OptionLabel(k) == "Option " + [OptionLetter(k)]
  {
  }
}
