/**
 * The three regular expressions the backend applies to a lower-cased prompt,
 * each given twice: a declarative predicate saying where the pattern matches
 * (the meaning of `re.search`: the leftmost start position that admits a
 * match), and a left-to-right scanner that the rest of the model calls.
 * The lemmas here prove the scanners return exactly the group `re.search`
 * captures.
 *
 *   (\d+)\s*(?:question|q|quiz|test)          backend/agents/intent_agent.py:77
 *   (?:create|make|generate)\s*(\d+)          backend/agents/intent_agent.py:82
 *   chapter\s*(\d+)                           backend/main.py:173
 */
module Patterns {
  import opened Text
  import opened Wrappers

  /** End of the run of digits that starts at `i`. */
  function DigitRunEnd(s: string, i: nat): (j: nat)
    requires i <= |s|
    ensures i <= j <= |s|
    ensures forall k :: i <= k < j ==> IsDigit(s[k])
    ensures j == |s| || !IsDigit(s[j])
    decreases |s| - i
  {
    if i < |s| && IsDigit(s[i]) then DigitRunEnd(s, i + 1) else i
  }

  /** End of the run of `\s` characters that starts at `i`. */
  function SpaceRunEnd(s: string, i: nat): (j: nat)
    requires i <= |s|
    ensures i <= j <= |s|
    ensures forall k :: i <= k < j ==> IsPySpace(s[k])
    ensures j == |s| || !IsPySpace(s[j])
    decreases |s| - i
  {
    if i < |s| && IsPySpace(s[i]) then SpaceRunEnd(s, i + 1) else i
  }

  /** Every position inside a digit run ends at the same place. */
  lemma DigitRunEndInside(s: string, i: nat, p: nat)
    requires i <= |s|
    requires i <= p < DigitRunEnd(s, i)
    ensures DigitRunEnd(s, p) == DigitRunEnd(s, i)
  {
  }

  // ---------------------------------------------------------------------------
  // (\d+)\s*(?:question|q|quiz|test)
  // ---------------------------------------------------------------------------

  /** The alternatives after the count, in the order the pattern lists them. */
  const CountWords: seq<string> := ["question", "q", "quiz", "test"]

  /** Declarative: the count pattern matches with its digits at `s[i..j]`, then
      whitespace `s[j..k]`, then one of the alternatives at `k`. */
  ghost predicate CountMatchAt(s: string, i: nat) {
    exists j: nat, k: nat ::
      && i < j <= k <= |s|
      && AllDigits(s[i..j])
      && AllPySpaces(s[j..k])
      && (exists w :: w in CountWords && StartsWith(s[k..], w))
  }

  /** What the scanner tests at `i`: take the whole digit run and all whitespace
      after it, then look for `q` or `test` ("question" and "quiz" begin with `q`). */
  predicate CountGreedyAt(s: string, i: nat)
    requires i <= |s|
  {
    && i < |s|
    && IsDigit(s[i])
    && var k := SpaceRunEnd(s, DigitRunEnd(s, i));
       StartsWith(s[k..], "q") || StartsWith(s[k..], "test")
  }

  /** Backtracking cannot help: a match exists at `i` iff the greedy one does. */
  lemma CountMatchIffGreedy(s: string, i: nat)
    requires i <= |s|
    ensures CountMatchAt(s, i) <==> CountGreedyAt(s, i)
  {
    if CountMatchAt(s, i) {
      var j: nat, k: nat :| && i < j <= k <= |s|
                            && AllDigits(s[i..j])
                            && AllPySpaces(s[j..k])
                            && (exists w :: w in CountWords && StartsWith(s[k..], w));
      CountMatchIsGreedy(s, i, j, k);
    }
    if CountGreedyAt(s, i) {
      var jj := DigitRunEnd(s, i);
      var kk := SpaceRunEnd(s, jj);
      assert AllDigits(s[i..jj]);
      assert AllPySpaces(s[jj..kk]);
      if StartsWith(s[kk..], "q") {
        assert "q" in CountWords;
      } else {
        assert "test" in CountWords;
      }
    }
  }

  /** Any witness of the declarative match is the greedy one. */
  lemma CountMatchIsGreedy(s: string, i: nat, j: nat, k: nat)
    requires i < j <= k <= |s|
    requires AllDigits(s[i..j])
    requires AllPySpaces(s[j..k])
    requires exists w :: w in CountWords && StartsWith(s[k..], w)
    ensures j == DigitRunEnd(s, i) && k == SpaceRunEnd(s, j)
    ensures CountGreedyAt(s, i)
  {
    var w :| w in CountWords && StartsWith(s[k..], w);
    assert k < |s| && (s[k] == 'q' || s[k] == 't') by {
      assert |w| > 0 && s[k..][0] == w[0];
    }
    assert forall x :: i <= x < j ==> IsDigit(s[x]) by {
      forall x | i <= x < j
        ensures IsDigit(s[x])
      {
        assert s[i..j][x - i] == s[x];
      }
    }
    assert forall x :: j <= x < k ==> IsPySpace(s[x]) by {
      forall x | j <= x < k
        ensures IsPySpace(s[x])
      {
        assert s[j..k][x - j] == s[x];
      }
    }
    var jj := DigitRunEnd(s, i);
    assert jj >= j;
    assert forall c :: IsDigit(c) ==> !IsPySpace(c);
    assert j == |s| || !IsDigit(s[j]) by {
      if j < k {
        assert IsPySpace(s[j]);
      } else {
        assert s[j] == s[k];
      }
    }
    assert jj == j;
    assert StartsWith(s[k..], "q") || StartsWith(s[k..], "test");
  }

  /** Scan from `i` for the first start position the greedy test accepts;
      returns the start and the end of its digit run. */
  function FindCount(s: string, i: nat): (r: Option<(nat, nat)>)
    requires i <= |s|
    ensures r.Some? ==> i <= r.value.0 < r.value.1 <= |s|
    ensures r.Some? ==> CountGreedyAt(s, r.value.0) && r.value.1 == DigitRunEnd(s, r.value.0)
    ensures r.Some? ==> forall p :: i <= p < r.value.0 ==> !CountGreedyAt(s, p)
    ensures r.None? ==> forall p :: i <= p <= |s| ==> !CountGreedyAt(s, p)
    decreases |s| - i
  {
    if i >= |s| then None
    else if IsDigit(s[i]) then
      var j := DigitRunEnd(s, i);
      var k := SpaceRunEnd(s, j);
      if StartsWith(s[k..], "q") || StartsWith(s[k..], "test") then Some((i, j))
      else
        var r := FindCount(s, j);
        assert forall p :: i <= p < j ==> !CountGreedyAt(s, p) by {
          forall p | i <= p < j
            ensures !CountGreedyAt(s, p)
          {
            DigitRunEndInside(s, i, p);
          }
        }
        r
    else FindCount(s, i + 1)
  }

  /** `re.search(r'(\d+)\s*(?:question|q|quiz|test)', s).group(1)`, or `None` when there is no match. */
  function SearchCount(s: string): (r: Option<string>)
    ensures r.Some? ==> |r.value| > 0 && AllDigits(r.value)
    ensures r.Some? ==>
              exists a: nat :: && a < |s|
                               && CountMatchAt(s, a)
                               && (forall p: nat :: p < a ==> !CountMatchAt(s, p))
                               && r.value == s[a..DigitRunEnd(s, a)]
    ensures r.None? ==> forall p: nat :: p <= |s| ==> !CountMatchAt(s, p)
  {
    match FindCount(s, 0)
    case None =>
      assert forall p: nat :: p <= |s| ==> !CountMatchAt(s, p) by {
        forall p: nat | p <= |s|
          ensures !CountMatchAt(s, p)
        {
          CountMatchIffGreedy(s, p);
        }
      }
      None
    case Some((a, b)) =>
      CountMatchIffGreedy(s, a);
      assert forall p: nat :: p < a ==> !CountMatchAt(s, p) by {
        forall p: nat | p < a
          ensures !CountMatchAt(s, p)
        {
          CountMatchIffGreedy(s, p);
        }
      }
      Some(s[a..b])
  }

  // ---------------------------------------------------------------------------
  // (?:kw_1|...|kw_n)\s*(\d+)
  // ---------------------------------------------------------------------------

  /** Declarative: keyword `kw` at `i`, whitespace `s[i+|kw|..j]`, digits `s[j..m]`. */
  ghost predicate KeywordMatchAt(s: string, kw: string, i: nat) {
    exists j: nat, m: nat ::
      && i + |kw| <= j < m <= |s|
      && StartsWith(s[i..], kw)
      && AllPySpaces(s[i + |kw|..j])
      && AllDigits(s[j..m])
  }

  /** Where the digits start for keyword `kw` at `i`: after all following whitespace. */
  function KeywordDigitsStart(s: string, kw: string, i: nat): nat
    requires i + |kw| <= |s|
  {
    SpaceRunEnd(s, i + |kw|)
  }

  /** What the scanner tests: the keyword, all following whitespace, then a digit. */
  predicate KeywordGreedyAt(s: string, kw: string, i: nat) {
    && i + |kw| <= |s|
    && StartsWith(s[i..], kw)
    && KeywordDigitsStart(s, kw, i) < |s|
    && IsDigit(s[KeywordDigitsStart(s, kw, i)])
  }

  lemma {:induction false} KeywordMatchIffGreedy(s: string, kw: string, i: nat)
    ensures KeywordMatchAt(s, kw, i) <==> KeywordGreedyAt(s, kw, i)
  {
    if KeywordMatchAt(s, kw, i) {
      var j: nat, m: nat :| && i + |kw| <= j < m <= |s|
                            && StartsWith(s[i..], kw)
                            && AllPySpaces(s[i + |kw|..j])
                            && AllDigits(s[j..m]);
      var jj := KeywordDigitsStart(s, kw, i);
      assert IsDigit(s[j]) by {
        assert s[j..m][0] == s[j];
      }
      assert forall x :: i + |kw| <= x < j ==> IsPySpace(s[x]) by {
        forall x | i + |kw| <= x < j
          ensures IsPySpace(s[x])
        {
          assert s[i + |kw|..j][x - (i + |kw|)] == s[x];
        }
      }
      assert j == jj;
    }
    if KeywordGreedyAt(s, kw, i) {
      var jj := KeywordDigitsStart(s, kw, i);
      var mm := DigitRunEnd(s, jj);
      assert AllPySpaces(s[i + |kw|..jj]);
      assert AllDigits(s[jj..mm]);
    }
  }

  /** Declarative: some alternative of `kws` matches at `i`. */
  ghost predicate AnyKeywordMatchAt(s: string, kws: seq<string>, i: nat) {
    exists t :: 0 <= t < |kws| && KeywordMatchAt(s, kws[t], i)
  }

  /** The first alternative, in pattern order, that succeeds at `i`. */
  function FirstKeywordAt(s: string, kws: seq<string>, i: nat, t: nat): (r: Option<nat>)
    requires t <= |kws|
    ensures r.Some? ==> t <= r.value < |kws| && KeywordGreedyAt(s, kws[r.value], i)
    ensures r.Some? ==> forall u :: t <= u < r.value ==> !KeywordGreedyAt(s, kws[u], i)
    ensures r.None? ==> forall u :: t <= u < |kws| ==> !KeywordGreedyAt(s, kws[u], i)
    decreases |kws| - t
  {
    if t == |kws| then None
    else if KeywordGreedyAt(s, kws[t], i) then Some(t)
    else FirstKeywordAt(s, kws, i, t + 1)
  }

  /** Scan from `i` for the first position where an alternative succeeds. */
  function FindKeyword(s: string, kws: seq<string>, i: nat): (r: Option<(nat, nat)>)
    requires i <= |s|
    ensures r.Some? ==> i <= r.value.0 < |s| && FirstKeywordAt(s, kws, r.value.0, 0) == Some(r.value.1)
    ensures r.Some? ==> forall p :: i <= p < r.value.0 ==> FirstKeywordAt(s, kws, p, 0).None?
    ensures r.None? ==> forall p :: i <= p <= |s| ==> FirstKeywordAt(s, kws, p, 0).None?
    decreases |s| - i
  {
    match FirstKeywordAt(s, kws, i, 0)
    case Some(t) => Some((i, t))
    case None =>
      if i == |s| then None else FindKeyword(s, kws, i + 1)
  }

  /** `re.search(r'(?:kw_1|...|kw_n)\s*(\d+)', s).group(1)`, or `None` when there is no match. */
  function SearchKeywordNumber(s: string, kws: seq<string>): (r: Option<string>)
    ensures r.Some? ==> |r.value| > 0 && AllDigits(r.value)
    ensures r.Some? ==>
              exists a: nat, t: nat :: && a < |s| && t < |kws|
                                       && KeywordMatchAt(s, kws[t], a)
                                       && (forall u :: 0 <= u < t ==> !KeywordMatchAt(s, kws[u], a))
                                       && (forall p: nat :: p < a ==> !AnyKeywordMatchAt(s, kws, p))
                                       && var j := KeywordDigitsStart(s, kws[t], a);
                                          r.value == s[j..DigitRunEnd(s, j)]
    ensures r.None? ==> forall p: nat :: p <= |s| ==> !AnyKeywordMatchAt(s, kws, p)
  {
    match FindKeyword(s, kws, 0)
    case None =>
      assert forall p: nat :: p <= |s| ==> !AnyKeywordMatchAt(s, kws, p) by {
        forall p: nat, t | p <= |s| && 0 <= t < |kws|
          ensures !KeywordMatchAt(s, kws[t], p)
        {
          assert FirstKeywordAt(s, kws, p, 0).None?;
          KeywordMatchIffGreedy(s, kws[t], p);
        }
      }
      None
    case Some((a, t)) =>
      var j := KeywordDigitsStart(s, kws[t], a);
      KeywordMatchIffGreedy(s, kws[t], a);
      assert forall u :: 0 <= u < t ==> !KeywordMatchAt(s, kws[u], a) by {
        forall u | 0 <= u < t
          ensures !KeywordMatchAt(s, kws[u], a)
        {
          KeywordMatchIffGreedy(s, kws[u], a);
        }
      }
      assert forall p: nat :: p < a ==> !AnyKeywordMatchAt(s, kws, p) by {
        forall p: nat, u | p < a && 0 <= u < |kws|
          ensures !KeywordMatchAt(s, kws[u], p)
        {
          assert FirstKeywordAt(s, kws, p, 0).None?;
          KeywordMatchIffGreedy(s, kws[u], p);
        }
      }
      Some(s[j..DigitRunEnd(s, j)])
  }
}
