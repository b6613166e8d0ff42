/**
 * The pattern matcher of the single-axis polarity engine
 * (EmissionMiner::matchPattern).
 *
 * Unlike the emotion matcher it is indexed by position: `cur` is the next
 * pattern element to match and `offset` the next sentence position. A pattern
 * element is a literal (token, tag) member, a tag-only element ("_", T), the
 * skip-one element ("_", "*") or the multi-position wildcard ("*", T).
 *
 * Reading past the end of the sentence or the pattern yields PHP's null,
 * whose token and tag compare loosely equal to the empty string and to
 * nothing else; the model reads the empty member ("", "") there instead.
 */
module PolarityMatch {

  /** A (token, tag) member of a sentence or a pattern. */
  type Member = (string, string)

  /** The ordered members of one pattern. */
  type Pattern = seq<Member>

  /** What a read past the end of a list compares equal to. */
  const Dummy: Member := ("", "")

  /** Member k of a list, or the empty member past either end. */
  function At(s: seq<Member>, k: int): (m: Member)
    ensures 0 <= k < |s| ==> m == s[k]
    ensures !(0 <= k < |s|) ==> m == ("", "")
  {
    if 0 <= k < |s| then s[k] else Dummy
  }

  /** True for a member that is compared literally (no wildcard token). */
  predicate Literal(m: Member)
  {
    m.0 != "_" && m.0 != "*"
  }

  /**
   * Matches pattern members cur.. against the sentence from position offset
   * on; the result is (found, end) with `end` the last sentence position used,
   * or (false, -1).
   */
  function Match(sentence: seq<Member>, pattern: Pattern, cur: nat, offset: nat): (r: (bool, int))
    decreases |sentence| - offset
    ensures !r.0 ==> r.1 == -1
    ensures r.0 ==> offset - 1 <= r.1
    ensures r.0 && offset <= |sentence| + 1 ==> r.1 <= |sentence|
  {
    if cur >= |pattern| then (true, offset - 1)
    else if offset >= |sentence| then (false, -1)
    else
      var element := pattern[cur];
      var current := sentence[offset];
      if element.0 == "_" then
        if element.1 == "*" then
          if At(sentence, offset + 1) != At(pattern, cur + 1) then (false, -1)
          else Match(sentence, pattern, cur + 2, offset + 2)
        else if element.1 != current.1 then (false, -1)
        else Match(sentence, pattern, cur + 1, offset + 1)
      else if element.0 == "*" then
        var next := At(pattern, cur + 1);
        if current == next then Match(sentence, pattern, cur + 2, offset + 1)
        else if At(sentence, offset + 1) != next then Match(sentence, pattern, cur, offset + 1)
        else Match(sentence, pattern, cur + 2, offset + 2)
      else if current != element then (false, -1)
      else Match(sentence, pattern, cur + 1, offset + 1)
  }

  // ----- Base cases -----

  /** Past the last pattern member the match succeeds and ends just before offset. */
  lemma PatternExhausted(sentence: seq<Member>, pattern: Pattern, cur: nat, offset: nat)
    requires cur >= |pattern|
    ensures Match(sentence, pattern, cur, offset) == (true, offset - 1)
  {
  }

  /** With pattern members left but no sentence left, the match fails with end -1. */
  lemma SentenceExhausted(sentence: seq<Member>, pattern: Pattern, cur: nat, offset: nat)
    requires cur < |pattern| && offset >= |sentence|
    ensures Match(sentence, pattern, cur, offset) == (false, -1)
  {
  }

  // ----- Element rules -----

  /** A tag-only member consumes one position exactly when the tags agree. */
  lemma TagOnlyStep(sentence: seq<Member>, pattern: Pattern, cur: nat, offset: nat)
    requires cur < |pattern| && offset < |sentence|
    requires pattern[cur].0 == "_" && pattern[cur].1 != "*"
    ensures Match(sentence, pattern, cur, offset) ==
      if pattern[cur].1 == sentence[offset].1 then Match(sentence, pattern, cur + 1, offset + 1) else (false, -1)
  {
  }

  /**
   * The skip-one member ignores the current position and requires the next
   * sentence member to equal the next pattern member; both are then consumed.
   */
  lemma SkipOneStep(sentence: seq<Member>, pattern: Pattern, cur: nat, offset: nat)
    requires cur < |pattern| && offset < |sentence|
    requires pattern[cur] == ("_", "*")
    ensures Match(sentence, pattern, cur, offset) ==
      if At(sentence, offset + 1) == At(pattern, cur + 1) then Match(sentence, pattern, cur + 2, offset + 2) else (false, -1)
  {
  }

  /** The wildcard matches zero positions when the current member equals the member after it. */
  lemma StarMatchesNothing(sentence: seq<Member>, pattern: Pattern, cur: nat, offset: nat)
    requires cur < |pattern| && offset < |sentence|
    requires pattern[cur].0 == "*" && sentence[offset] == At(pattern, cur + 1)
    ensures Match(sentence, pattern, cur, offset) == Match(sentence, pattern, cur + 2, offset + 1)
  {
  }

  /** Otherwise, when the next sentence member equals it, the wildcard consumes one position. */
  lemma StarMatchesOne(sentence: seq<Member>, pattern: Pattern, cur: nat, offset: nat)
    requires cur < |pattern| && offset < |sentence|
    requires pattern[cur].0 == "*" && sentence[offset] != At(pattern, cur + 1)
    requires At(sentence, offset + 1) == At(pattern, cur + 1)
    ensures Match(sentence, pattern, cur, offset) == Match(sentence, pattern, cur + 2, offset + 2)
  {
  }

  /** Otherwise the wildcard absorbs the current member and retries one position further. */
  lemma StarAbsorbs(sentence: seq<Member>, pattern: Pattern, cur: nat, offset: nat)
    requires cur < |pattern| && offset < |sentence|
    requires pattern[cur].0 == "*" && sentence[offset] != At(pattern, cur + 1)
    requires At(sentence, offset + 1) != At(pattern, cur + 1)
    ensures Match(sentence, pattern, cur, offset) == Match(sentence, pattern, cur, offset + 1)
  {
  }

  /**
   * A run of literal members matches exactly when the sentence continues with
   * the same members, and then ends at the last of them.
   */
  lemma {:induction false} LiteralMatch(sentence: seq<Member>, pattern: Pattern, cur: nat, offset: nat)
    requires cur <= |pattern| && offset <= |sentence|
    requires forall k :: cur <= k < |pattern| ==> Literal(pattern[k])
    ensures Match(sentence, pattern, cur, offset).0 <==>
      offset + (|pattern| - cur) <= |sentence| && sentence[offset..offset + (|pattern| - cur)] == pattern[cur..]
    ensures Match(sentence, pattern, cur, offset).0 ==> Match(sentence, pattern, cur, offset).1 == offset + (|pattern| - cur) - 1
    decreases |pattern| - cur
  {
    if cur == |pattern| {
    } else if offset >= |sentence| {
    } else {
      LiteralMatch(sentence, pattern, cur + 1, offset + 1);
      var len := |pattern| - cur;
      if offset + len <= |sentence| {
        assert sentence[offset..offset + len] == [sentence[offset]] + sentence[offset + 1..offset + 1 + (len - 1)];
        assert pattern[cur..] == [pattern[cur]] + pattern[cur + 1..];
      }
    }
  }
}
