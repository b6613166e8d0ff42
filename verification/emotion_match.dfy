/**
 * The pattern matcher of the four-axis emotion engine (RBEMEmotion.matchPattern).
 *
 * A sentence and a pattern are both sequences of (token, tag) pairs. A pattern
 * element is a literal pair, the single-position wildcard ("_", "_"), a
 * tag-only element ("_", T), or the multi-position wildcard ("*", "*").
 * The matcher is a pure recursion over shrinking suffixes of both sequences.
 */
module EmotionMatch {

  /** A (token, tag) pair. */
  type Pair = (string, string)

  /** A lexicon entry: the ordered elements of one pattern. */
  type Pattern = seq<Pair>

  /** A located pattern: the pattern with its inclusive start and end positions. */
  datatype Hit = Hit(pattern: Pattern, start: int, end: int)

  /** Offsets beyond this cap count as a successful match. */
  const Cap := 500

  const Star: Pair := ("*", "*")
  const AnyPair: Pair := ("_", "_")

  /** True for a tag-only element ("_", T) other than the single wildcard. */
  predicate TagOnly(e: Pair)
  {
    e.0 == "_" && e != AnyPair
  }

  /** True for an element that the matcher compares literally. */
  predicate Literal(e: Pair)
  {
    e != Star && e.0 != "_"
  }

  /**
   * The one-step lookahead of the multi-position wildcard: the element after
   * "*" agrees with the next sentence pair or with the current one, either
   * literally or by tag when it is tag-only.
   */
  predicate Lookahead(next: Pair, nextInSentence: Pair, current: Pair)
  {
    || next == nextInSentence
    || (next.0 == "_" && next.1 == nextInSentence.1)
    || next == current
    || (next.0 == "_" && next.1 == current.1)
  }

  /**
   * Matches `p` against a prefix of `s`, where `s` starts at absolute position
   * `offset`. The result is (found, end) with `end` the inclusive end position,
   * or (false, -1).
   */
  function Match(s: seq<Pair>, p: Pattern, offset: int): (r: (bool, int))
    decreases |s|
    ensures !r.0 ==> r.1 == -1
    ensures r.0 ==> offset - 1 <= r.1 <= offset + |s| - 1
    ensures r.0 && p != [] && offset <= Cap ==> offset <= r.1
  {
    if p == [] || offset > Cap then (true, offset - 1)
    else if s == [] then (false, -1)
    else
      var member := p[0];
      if member == Star then
        if |s| > 1 then
          if |p| == 1 then (false, -1)
          else if Lookahead(p[1], s[1], s[0]) then Match(s[2..], p[2..], offset + 2)
          else Match(s[1..], p, offset + 1)
        else (false, -1)
      else if member == AnyPair then
        Match(s[1..], p[1..], offset + 1)
      else if member.0 == "_" then
        if s[0].1 == member.1 then Match(s[1..], p[1..], offset + 1) else (false, -1)
      else if s[0] == member then
        Match(s[1..], p[1..], offset + 1)
      else (false, -1)
  }

  /** An empty pattern, or an offset over the cap, matches at once and ends just before `offset`. */
  lemma MatchBase(s: seq<Pair>, p: Pattern, offset: int)
    requires p == [] || offset > Cap
    ensures Match(s, p, offset) == (true, offset - 1)
  {
  }

  /** A non-empty pattern never matches an empty sentence below the cap. */
  lemma MatchEmptySentence(p: Pattern, offset: int)
    requires p != [] && offset <= Cap
    ensures Match([], p, offset) == (false, -1)
  {
  }

  /** ("_", "_") consumes exactly one sentence position, whatever it holds. */
  lemma AnyPairConsumesOne(s: seq<Pair>, rest: Pattern, offset: int)
    requires s != [] && offset <= Cap
    ensures Match(s, [AnyPair] + rest, offset) == Match(s[1..], rest, offset + 1)
  {
    assert ([AnyPair] + rest)[1..] == rest;
  }

  /** ("_", T) succeeds on the current position iff the current tag equals T. */
  lemma TagOnlyStep(s: seq<Pair>, t: string, rest: Pattern, offset: int)
    requires s != [] && offset <= Cap && TagOnly(("_", t))
    ensures Match(s, [("_", t)] + rest, offset) ==
              if s[0].1 == t then Match(s[1..], rest, offset + 1) else (false, -1)
  {
    assert ([("_", t)] + rest)[1..] == rest;
  }

  /** A trailing multi-position wildcard never matches. */
  lemma StarLastFails(s: seq<Pair>, offset: int)
    requires offset <= Cap
    ensures Match(s, [Star], offset) == (false, -1)
  {
  }

  /** The multi-position wildcard needs at least two sentence positions. */
  lemma StarNeedsTwoPositions(s: seq<Pair>, p: Pattern, offset: int)
    requires |s| <= 1 && p != [] && p[0] == Star && offset <= Cap
    ensures Match(s, p, offset) == (false, -1)
  {
  }

  /**
   * A pattern made of literal elements only matches iff it equals the next
   * |p| pairs of the sentence, and then ends at offset + |p| - 1, as long as
   * the cap is not reached on the way.
   */
  lemma {:induction false} LiteralMatch(s: seq<Pair>, p: Pattern, offset: int)
    requires forall k :: 0 <= k < |p| ==> Literal(p[k])
    requires offset + |p| <= Cap + 1
    ensures Match(s, p, offset) ==
              if |p| <= |s| && s[..|p|] == p then (true, offset + |p| - 1) else (false, -1)
  {
    if p != [] && s != [] {
      assert p[0] != AnyPair && p[0].0 != "_";
      if s[0] == p[0] {
        LiteralMatch(s[1..], p[1..], offset + 1);
        if |p| <= |s| {
          assert s[..|p|] == p <==> s[1..][..|p| - 1] == p[1..] by {
            if s[1..][..|p| - 1] == p[1..] {
              assert s[..|p|] == [s[0]] + s[1..][..|p| - 1];
              assert p == [p[0]] + p[1..];
            }
          }
        }
      } else if |p| <= |s| {
        assert s[..|p|][0] != p[0];
      }
    }
  }

  /**
   * A successful match only inspects the sentence up to its end: appending
   * more pairs to the sentence keeps the same result.
   */
  lemma {:induction false} MatchExtends(s: seq<Pair>, t: seq<Pair>, p: Pattern, offset: int)
    requires Match(s, p, offset).0
    ensures Match(s + t, p, offset) == Match(s, p, offset)
    decreases |s|
  {
    if p == [] || offset > Cap {
    } else {
      assert s != [];
      assert (s + t)[0] == s[0];
      assert (s + t)[1..] == s[1..] + t;
      if p[0] == Star {
        assert |s| > 1;
        assert (s + t)[1] == s[1];
        assert (s + t)[2..] == s[2..] + t;
        if Lookahead(p[1], s[1], s[0]) {
          MatchExtends(s[2..], t, p[2..], offset + 2);
        } else {
          MatchExtends(s[1..], t, p, offset + 1);
        }
      } else {
        MatchExtends(s[1..], t, p[1..], offset + 1);
      }
    }
  }
}
