/**
 * The clean-up both agents apply to a model reply before parsing it as JSON
 * (backend/agents/quiz_agent.py and backend/agents/content_agent.py): strip
 * whitespace, drop an opening "```json" or "```" fence and a closing "```"
 * fence, strip again.
 */
module Fences {
  import opened Text

  /**
   * Drops a leading "```json", then, independently, a leading "```": the two
   * tests run one after the other, so "```json```x" loses both fences.
   */
  function DropOpeningFence(s: string): (r: string)
    ensures |r| <= |s| && r == s[|s| - |r|..]
    ensures (s == [] || s[0] != '`') ==> r == s
    ensures !StartsWith(s, "```") ==> r == s
    ensures StartsWith(s, "```json") && StartsWith(s[7..], "```") ==> s == "```json```" + r
    ensures StartsWith(s, "```json") && !StartsWith(s[7..], "```") ==> s == "```json" + r
    ensures StartsWith(s, "```") && !StartsWith(s, "```json") ==> s == "```" + r
  {
    var s2 := if StartsWith(s, "```json") then s[7..] else s;
    if StartsWith(s2, "```") then s2[3..] else s2
  }

  /** Drops a trailing "```". */
  function DropClosingFence(s: string): (r: string)
    ensures EndsWith(s, "```") ==> s == r + "```"
    ensures !EndsWith(s, "```") ==> r == s
  {
    if EndsWith(s, "```") then s[..|s| - 3] else s
  }

  /** A closing fence is the only text removed: appending one and dropping it gives the text back. */
  lemma DropClosingFenceOfFenced(x: string)
    ensures DropClosingFence(x + "```") == x
  {
    EndsWithAppend(x, "```");
  }

  /** An opening "```json" fence followed by text that does not start a second fence is the only text removed. */
  lemma DropOpeningFenceOfJsonFenced(x: string)
    requires !StartsWith(x, "```")
    ensures DropOpeningFence("```json" + x) == x
  {
    assert ("```json" + x)[7..] == x;
  }

  /** Strips whitespace, the optional fences, then whitespace again. */
  function CleanFences(reply: string): (r: string)
    ensures IsTrimmed(r, IsPySpace)
  {
    var s := DropClosingFence(DropOpeningFence(PyStrip(reply)));
    TrimRightTrimmed(TrimLeft(s, IsPySpace), IsPySpace);
    PyStrip(s)
  }

  lemma TrimRightTrimmed(s: string, isSpace: char -> bool)
    requires s == [] || !isSpace(s[0])
    ensures IsTrimmed(TrimRight(s, isSpace), isSpace)
  {
  }

  /** A string whose ends are not whitespace is left alone by stripping. */
  lemma StripTrimmed(s: string)
    requires IsTrimmed(s, IsPySpace)
    ensures PyStrip(s) == s
  {
    assert s == [] + s + [];
    TrimPadded([], s, [], IsPySpace);
  }

  /** A fenced block "```json" newline body newline "```" gives back its (trimmed) body. */
  lemma CleanFencesUnwrapsJsonBlock(body: string)
    requires IsTrimmed(body, IsPySpace)
    ensures CleanFences("```json\n" + body + "\n```") == body
  {
    var inner := "\n" + body + "\n";
    var block := "```json" + inner + "```";
    assert block == "```json\n" + body + "\n```";
    StripTrimmed(block);
    assert block[..7] == "```json";
    var unfenced := inner + "```";
    assert block[7..] == unfenced;
    assert unfenced[0] == '\n';
    assert DropOpeningFence(block) == unfenced;
    assert unfenced[|unfenced| - 3..] == "```";
    assert unfenced[..|unfenced| - 3] == inner;
    assert DropClosingFence(unfenced) == inner;
    TrimPadded("\n", body, "\n", IsPySpace);
  }

  /** A trimmed reply that neither starts nor ends with a fence passes through unchanged. */
  lemma CleanFencesKeepsUnfenced(reply: string)
    requires IsTrimmed(reply, IsPySpace)
    requires !StartsWith(reply, "```") && !EndsWith(reply, "```")
    ensures CleanFences(reply) == reply
  {
    StripTrimmed(reply);
    assert !StartsWith(reply, "```json") by {
      assert "```" <= "```json";
    }
    assert DropOpeningFence(reply) == reply;
  }

  /** A bare reply that already starts with `[` and ends with `]` passes through unchanged. */
  lemma CleanFencesKeepsBareArray(reply: string)
    requires |reply| >= 2 && reply[0] == '[' && reply[|reply| - 1] == ']'
    ensures CleanFences(reply) == reply
  {
    assert !StartsWith(reply, "```") by {
      assert reply[0] != '`';
    }
    assert !EndsWith(reply, "```") by {
      if |reply| >= 3 {
        assert reply[|reply| - 3..][2] == reply[|reply| - 1];
      }
    }
    CleanFencesKeepsUnfenced(reply);
  }
}
