/**
 * The sentence scan of the polarity engine (EmissionMiner::matchPatterns).
 *
 * For every start position i the scan looks up the patterns filed under the
 * position's own key (token then tag) and then those filed under its tag-only
 * key ("_" then tag), tries each of them, and collects the ones that match
 * in an ordered array keyed by full index. Of these it keeps the first one
 * whose pattern is strictly longest, appends it to the result and records
 * its members in the hash index that the subsumption step compares.
 */
module PolarityScan {
  import opened Wrappers
  import opened Assoc
  import opened PolarityMatch
  import opened PolarityLexicon
  import opened PolaritySubsumption

  /** One match: the stored pattern, where it starts, its centre and where it ends. */
  datatype Found = Found(pattern: Pattern, start: int, center: real, end: int)

  /** The matches found at one start position, keyed by full index, in the order they were written. */
  type Candidates = Assoc<string, Found>

  /** The key a sentence position looks patterns up under: its token, then its tag. */
  function PositionKey(m: Member): string
  {
    m.0 + m.1
  }

  /** The tag-only key of a sentence position. */
  function TagKey(m: Member): string
  {
    "_" + m.1
  }

  /** The floor of a match's centre. */
  function Lo(f: Found): int
  {
    f.center.Floor
  }

  /** The ceiling of a match's centre. */
  function Hi(f: Found): int
  {
    if f.center.Floor as real == f.center then f.center.Floor else f.center.Floor + 1
  }

  /**
   * One stored pattern tried at start i. A one-member pattern matches by its
   * key alone; a longer one is matched from its second member on, needs a
   * next position and may span at most `range` positions past i.
   */
  function Try(sentence: seq<Member>, p: Pattern, i: nat, range: int): (r: Option<Found>)
    requires i < |sentence|
    ensures r.Some? ==> r.value.pattern == p && r.value.start == i && i <= r.value.end <= |sentence|
    ensures r.Some? && |p| != 1 ==> i + 1 < |sentence| && r.value.end - i <= range
  {
    if |p| == 1 then Some(Found(p, i, i as real, i))
    else if i + 1 < |sentence| then
      var m := Match(sentence, p, 1, i + 1);
      if m.0 && m.1 - i <= range then Some(Found(p, i, (i + m.1) as real / 2.0, m.1)) else None
    else None
  }

  /** The candidates after trying one group of patterns in order. */
  function TryGroup(sentence: seq<Member>, group: Group, i: nat, range: int, acc: Candidates): Candidates
    requires i < |sentence|
  {
    if group == [] then acc
    else
      var rest := TryGroup(sentence, group[..|group| - 1], i, range, acc);
      var entry := group[|group| - 1];
      match Try(sentence, entry.1, i, range)
      case None => rest
      case Some(f) => Put(rest, entry.0, f)
  }

  /** The candidates after trying every length group filed under one key, in order. */
  function TryLengths(sentence: seq<Member>, byLength: ByLength, i: nat, range: int, acc: Candidates): Candidates
    requires i < |sentence|
  {
    if byLength == [] then acc
    else TryGroup(sentence, byLength[|byLength| - 1].1, i, range, TryLengths(sentence, byLength[..|byLength| - 1], i, range, acc))
  }

  /** The patterns filed under a key, tried at i; nothing when the key is absent. */
  function TryKey(hay: Index, key: string, sentence: seq<Member>, i: nat, range: int, acc: Candidates): Candidates
    requires i < |sentence|
  {
    if Has(hay, key) then TryLengths(sentence, Get(hay, key), i, range, acc) else acc
  }

  /** Every match found at start i: the position's own key first, then its tag-only key. */
  function CandidatesAt(hay: Index, sentence: seq<Member>, i: nat, range: int): Candidates
    requires i < |sentence|
  {
    TryKey(hay, TagKey(sentence[i]), sentence, i, range, TryKey(hay, PositionKey(sentence[i]), sentence, i, range, []))
  }

  /** The length of an optional match; 0 for none, where the source's maximum starts. */
  function LengthOf(o: Option<Found>): int
  {
    if o.Some? then |o.value.pattern| else 0
  }

  /**
   * The position of the first candidate whose pattern is strictly longest,
   * or -1 when every candidate's pattern is empty.
   */
  function LongestAt(cands: Candidates): (t: int)
    ensures -1 <= t < |cands|
    ensures t == -1 <==> forall u :: 0 <= u < |cands| ==> |cands[u].1.pattern| == 0
    ensures t >= 0 ==> forall u :: 0 <= u < |cands| ==> |cands[u].1.pattern| <= |cands[t].1.pattern|
    ensures t >= 0 ==> forall u :: 0 <= u < t ==> |cands[u].1.pattern| < |cands[t].1.pattern|
  {
    if cands == [] then -1
    else
      var t := LongestAt(cands[..|cands| - 1]);
      var best := if t < 0 then 0 else |cands[t].1.pattern|;
      if |cands[|cands| - 1].1.pattern| > best then |cands| - 1 else t
  }

  /** The match kept for one start position, if any. */
  function Longest(cands: Candidates): Option<Found>
  {
    var t := LongestAt(cands);
    if t < 0 then None else Some(cands[t].1)
  }

  /**
   * One member's update of the hash index. The member's own key is compared
   * with the constant 4 (the size of the record the source's leftover loop
   * variable holds); the tag-only key with `length`, the pattern length of
   * the last candidate, read through the same leftover variable.
   */
  function RecordMember(h: HashIndex, m: Member, length: int, first: int): HashIndex
  {
    var k := m.0 + m.1;
    var h1 := if k in h && h[k].length > 4 then h else h[k := Count(length, first)];
    if m.0 == "_" then h1
    else
      var t := "_" + m.1;
      if t in h1 && h1[t].length > length then h1 else h1[t := Count(length, first)]
  }

  /** The hash index after recording every member of a kept pattern; only the first member is marked first. */
  function Record(h: HashIndex, members: seq<Member>, length: int): HashIndex
  {
    if members == [] then h
    else RecordMember(Record(h, members[..|members| - 1], length), members[|members| - 1], length, if |members| == 1 then 1 else 0)
  }

  /** The match kept at start i, if any: a match of its own pattern at i. */
  function KeptAt(hay: Index, sentence: seq<Member>, range: int, i: nat): (r: Option<Found>)
    requires i < |sentence|
    ensures r.Some? ==> r.value.start == i && Try(sentence, r.value.pattern, i, range) == r
  {
    var cands := CandidatesAt(hay, sentence, i, range);
    var t := LongestAt(cands);
    if t >= 0 then CandidatesSound(hay, sentence, i, range, t); Longest(cands) else Longest(cands)
  }

  /** The pattern length of the last candidate written at start i; 0 when there is none. */
  function LastLength(hay: Index, sentence: seq<Member>, range: int, i: nat): int
    requires i < |sentence|
  {
    var cands := CandidatesAt(hay, sentence, i, range);
    if cands == [] then 0 else |cands[|cands| - 1].1.pattern|
  }

  /** What the scan takes from one start position: the kept match, if any, and the length the hash index records. */
  type Choice = (Option<Found>, int)

  /** The pick of start position i. */
  function PickAt(hay: Index, sentence: seq<Member>, range: int, i: nat): Choice
    requires i < |sentence|
  {
    (KeptAt(hay, sentence, range, i), LastLength(hay, sentence, range, i))
  }

  /** The picks of start positions 0 .. n-1. */
  function Picks(hay: Index, sentence: seq<Member>, range: int, n: nat): (ps: seq<Choice>)
    requires n <= |sentence|
    ensures |ps| == n
  {
    seq(n, i requires 0 <= i < n => PickAt(hay, sentence, range, i))
  }

  /** The matches and the hash index after the picks in order: each kept match is appended and its members recorded. */
  function Fold(picks: seq<Choice>): (seq<Found>, HashIndex)
  {
    if picks == [] then ([], map[])
    else
      var prev := Fold(picks[..|picks| - 1]);
      var p := picks[|picks| - 1];
      match p.0
      case None => prev
      case Some(f) => (prev.0 + [f], Record(prev.1, f.pattern, p.1))
  }

  /** The matches and the hash index after scanning start positions 0 .. n-1. */
  function ScanTo(hay: Index, sentence: seq<Member>, range: int, n: nat): (seq<Found>, HashIndex)
    requires n <= |sentence|
  {
    Fold(Picks(hay, sentence, range, n))
  }

  // ----- The imperative scan -----

  /** Tries one group of patterns in order. */
  method CollectGroup(sentence: seq<Member>, group: Group, i: nat, range: int, acc: Candidates) returns (cands: Candidates)
    requires i < |sentence|
    ensures cands == TryGroup(sentence, group, i, range, acc)
  {
    cands := acc;
    for c := 0 to |group|
      invariant cands == TryGroup(sentence, group[..c], i, range, acc)
    {
      assert group[..c + 1][..c] == group[..c];
      var found := Try(sentence, group[c].1, i, range);
      if found.Some? {
        cands := Put(cands, group[c].0, found.value);
      }
    }
    assert group[..|group|] == group;
  }

  /** Tries every length group filed under one key, in order. */
  method CollectLengths(sentence: seq<Member>, byLength: ByLength, i: nat, range: int, acc: Candidates) returns (cands: Candidates)
    requires i < |sentence|
    ensures cands == TryLengths(sentence, byLength, i, range, acc)
  {
    cands := acc;
    for b := 0 to |byLength|
      invariant cands == TryLengths(sentence, byLength[..b], i, range, acc)
    {
      assert byLength[..b + 1][..b] == byLength[..b];
      cands := CollectGroup(sentence, byLength[b].1, i, range, cands);
    }
    assert byLength[..|byLength|] == byLength;
  }

  /** The first candidate with a strictly longer pattern than all before it, starting from length 0. */
  method SelectLongest(cands: Candidates) returns (best: Option<Found>)
    ensures best == Longest(cands)
  {
    var maxLength := 0;
    best := None;
    for u := 0 to |cands|
      invariant best == Longest(cands[..u]) && maxLength == LengthOf(best)
    {
      assert cands[..u + 1][..u] == cands[..u];
      var n := |cands[u].1.pattern|;
      if n > maxLength {
        maxLength := n;
        best := Some(cands[u].1);
      }
    }
    assert cands[..|cands|] == cands;
  }

  /** Records the members of a kept pattern, the first one marked first. */
  method RecordMembers(h0: HashIndex, members: seq<Member>, length: int) returns (h: HashIndex)
    ensures h == Record(h0, members, length)
  {
    h := h0;
    var first := 1;
    for c := 0 to |members|
      invariant first == if c == 0 then 1 else 0
      invariant h == Record(h0, members[..c], length)
    {
      assert members[..c + 1][..c] == members[..c];
      h := RecordMember(h, members[c], length, first);
      first := 0;
    }
    assert members[..|members|] == members;
  }

  /** Every match at start i: the patterns under the position's own key, then those under its tag-only key. */
  method CollectAt(sentence: seq<Member>, hay: Index, i: nat, range: int) returns (cands: Candidates)
    requires i < |sentence|
    ensures cands == CandidatesAt(hay, sentence, i, range)
  {
    cands := [];
    if Has(hay, PositionKey(sentence[i])) {
      cands := CollectLengths(sentence, Get(hay, PositionKey(sentence[i])), i, range, cands);
    }
    if Has(hay, TagKey(sentence[i])) {
      cands := CollectLengths(sentence, Get(hay, TagKey(sentence[i])), i, range, cands);
    }
  }

  /** The pick of start position i: the candidates collected in order, then the first longest of them. */
  method PickMatch(sentence: seq<Member>, hay: Index, i: nat, range: int) returns (best: Option<Found>, length: int)
    requires i < |sentence|
    ensures (best, length) == PickAt(hay, sentence, range, i)
  {
    var cands := CollectAt(sentence, hay, i, range);
    best := SelectLongest(cands);
    length := if cands == [] then 0 else |cands[|cands| - 1].1.pattern|;
  }

  /** One more start position: its kept match, if any, is appended and its members recorded. */
  lemma ScanNext(hay: Index, sentence: seq<Member>, range: int, n: nat)
    requires n < |sentence|
    ensures var p := PickAt(hay, sentence, range, n);
      var prev := ScanTo(hay, sentence, range, n);
      ScanTo(hay, sentence, range, n + 1) ==
        if p.0.Some? then (prev.0 + [p.0.value], Record(prev.1, p.0.value.pattern, p.1)) else prev
  {
    var ps := Picks(hay, sentence, range, n + 1);
    assert ps[..n] == Picks(hay, sentence, range, n);
  }

  /** The scan: at most one match per start position, and the hash index of what was kept. */
  method MatchPatterns(sentence: seq<Member>, hay: Index, range: int) returns (matches: seq<Found>, hashIndex: HashIndex)
    ensures (matches, hashIndex) == ScanTo(hay, sentence, range, |sentence|)
  {
    matches := [];
    hashIndex := map[];
    for i := 0 to |sentence|
      invariant (matches, hashIndex) == ScanTo(hay, sentence, range, i)
    {
      var best, length := PickMatch(sentence, hay, i, range);
      ScanNext(hay, sentence, range, i);
      if best.Some? {
        matches := matches + [best.value];
        hashIndex := RecordMembers(hashIndex, best.value.pattern, length);
      }
    }
  }

  // ----- Properties -----

  /** The pattern is in some group of the lengths filed under a key. */
  ghost predicate Listed(byLength: ByLength, p: Pattern)
  {
    exists b, c :: 0 <= b < |byLength| && 0 <= c < |byLength[b].1| && byLength[b].1[c].1 == p
  }

  /** A candidate is a match of its own pattern at i, and that pattern is filed under one of the two keys. */
  ghost predicate Sound(hay: Index, sentence: seq<Member>, i: nat, range: int, f: Found)
    requires i < |sentence|
  {
    && Try(sentence, f.pattern, i, range) == Some(f)
    && ((Has(hay, PositionKey(sentence[i])) && Listed(Get(hay, PositionKey(sentence[i])), f.pattern))
        || (Has(hay, TagKey(sentence[i])) && Listed(Get(hay, TagKey(sentence[i])), f.pattern)))
  }

  /** Every candidate of one group fold came from the accumulator or is a match of a pattern of the group. */
  lemma {:induction false} TryGroupFrom(sentence: seq<Member>, group: Group, i: nat, range: int, acc: Candidates, f: Found)
    requires i < |sentence|
    requires exists t :: 0 <= t < |TryGroup(sentence, group, i, range, acc)| && TryGroup(sentence, group, i, range, acc)[t].1 == f
    ensures (exists t :: 0 <= t < |acc| && acc[t].1 == f)
            || (Try(sentence, f.pattern, i, range) == Some(f) && exists c :: 0 <= c < |group| && group[c].1 == f.pattern)
  {
    if group != [] {
      var init := group[..|group| - 1];
      var rest := TryGroup(sentence, init, i, range, acc);
      var entry := group[|group| - 1];
      var found := Try(sentence, entry.1, i, range);
      if found.Some? && f == found.value {
        assert group[|group| - 1].1 == f.pattern;
      } else {
        if found.Some? {
          PutKeeps(rest, entry.0, found.value);
        }
        assert exists t :: 0 <= t < |rest| && rest[t].1 == f;
        TryGroupFrom(sentence, init, i, range, acc, f);
        if !(exists t :: 0 <= t < |acc| && acc[t].1 == f) {
          var c :| 0 <= c < |init| && init[c].1 == f.pattern;
          assert group[c].1 == f.pattern;
        }
      }
    }
  }

  /** The same for a fold over the length groups filed under one key. */
  lemma {:induction false} TryLengthsFrom(sentence: seq<Member>, byLength: ByLength, i: nat, range: int, acc: Candidates, f: Found)
    requires i < |sentence|
    requires exists t :: 0 <= t < |TryLengths(sentence, byLength, i, range, acc)| && TryLengths(sentence, byLength, i, range, acc)[t].1 == f
    ensures (exists t :: 0 <= t < |acc| && acc[t].1 == f)
            || (Try(sentence, f.pattern, i, range) == Some(f) && Listed(byLength, f.pattern))
  {
    if byLength != [] {
      var init := byLength[..|byLength| - 1];
      var last := byLength[|byLength| - 1].1;
      var mid := TryLengths(sentence, init, i, range, acc);
      TryGroupFrom(sentence, last, i, range, mid, f);
      if exists c :: 0 <= c < |last| && last[c].1 == f.pattern && Try(sentence, f.pattern, i, range) == Some(f) {
        var c :| 0 <= c < |last| && last[c].1 == f.pattern;
        assert byLength[|byLength| - 1].1[c].1 == f.pattern;
      } else {
        TryLengthsFrom(sentence, init, i, range, acc, f);
        if !(exists t :: 0 <= t < |acc| && acc[t].1 == f) {
          var b, c :| 0 <= b < |init| && 0 <= c < |init[b].1| && init[b].1[c].1 == f.pattern;
          assert byLength[b].1[c].1 == f.pattern;
        }
      }
    }
  }

  /** Every candidate at i is sound. */
  lemma CandidatesSound(hay: Index, sentence: seq<Member>, i: nat, range: int, t: int)
    requires i < |sentence| && 0 <= t < |CandidatesAt(hay, sentence, i, range)|
    ensures Sound(hay, sentence, i, range, CandidatesAt(hay, sentence, i, range)[t].1)
  {
    var own := PositionKey(sentence[i]);
    var tagOnly := TagKey(sentence[i]);
    var first := TryKey(hay, own, sentence, i, range, []);
    var f := CandidatesAt(hay, sentence, i, range)[t].1;
    if Has(hay, tagOnly) {
      TryLengthsFrom(sentence, Get(hay, tagOnly), i, range, first, f);
    }
    if exists u :: 0 <= u < |first| && first[u].1 == f {
      assert Has(hay, own);
      TryLengthsFrom(sentence, Get(hay, own), i, range, [], f);
    }
  }

  /**
   * The match kept at a start position is a sound candidate with a
   * non-empty pattern at least as long as every other candidate's, and
   * strictly longer than every candidate written before it; there is none
   * exactly when every candidate's pattern is empty.
   */
  lemma LongestIsFirstMaximal(hay: Index, sentence: seq<Member>, i: nat, range: int)
    requires i < |sentence|
    ensures var cands := CandidatesAt(hay, sentence, i, range);
      Longest(cands).None? <==> forall u :: 0 <= u < |cands| ==> |cands[u].1.pattern| == 0
    ensures var cands := CandidatesAt(hay, sentence, i, range);
      var t := LongestAt(cands);
      t >= 0 ==>
        && Sound(hay, sentence, i, range, cands[t].1)
        && |cands[t].1.pattern| > 0
        && (forall u :: 0 <= u < |cands| ==> |cands[u].1.pattern| <= |cands[t].1.pattern|)
        && (forall u :: 0 <= u < t ==> |cands[u].1.pattern| < |cands[t].1.pattern|)
  {
    var cands := CandidatesAt(hay, sentence, i, range);
    var t := LongestAt(cands);
    if t >= 0 {
      CandidatesSound(hay, sentence, i, range, t);
    }
  }

  /** A match kept by the scan. */
  ghost predicate Kept(hay: Index, sentence: seq<Member>, range: int, f: Found)
  {
    0 <= f.start < |sentence| && KeptAt(hay, sentence, range, f.start) == Some(f)
  }

  /** Every kept match of a list of picks starts at its own position. */
  ghost predicate AtOwnStart(picks: seq<Choice>)
  {
    forall i :: 0 <= i < |picks| && picks[i].0.Some? ==> picks[i].0.value.start == i
  }

  /** Every match of a fold is the pick of its own start position. */
  lemma {:induction false} FoldKept(picks: seq<Choice>, a: int)
    requires AtOwnStart(picks) && 0 <= a < |Fold(picks).0|
    ensures var f := Fold(picks).0[a]; 0 <= f.start < |picks| && picks[f.start].0 == Some(f)
  {
    var init := picks[..|picks| - 1];
    var prev := Fold(init).0;
    assert AtOwnStart(init);
    if a < |prev| {
      assert Fold(picks).0[a] == prev[a];
      FoldKept(init, a);
    }
  }

  /** A fold keeps at most one match per position, in increasing order of start. */
  lemma {:induction false} FoldOrdered(picks: seq<Choice>, a: int, b: int)
    requires AtOwnStart(picks) && 0 <= a < b < |Fold(picks).0|
    ensures Fold(picks).0[a].start < Fold(picks).0[b].start
  {
    var init := picks[..|picks| - 1];
    var prev := Fold(init).0;
    assert AtOwnStart(init);
    if b < |prev| {
      assert Fold(picks).0[a] == prev[a] && Fold(picks).0[b] == prev[b];
      FoldOrdered(init, a, b);
    } else {
      assert Fold(picks).0[a] == prev[a];
      FoldKept(init, a);
    }
  }

  /** The picks of a scan each start at their own position. */
  lemma PicksAtOwnStart(hay: Index, sentence: seq<Member>, range: int, n: nat)
    requires n <= |sentence|
    ensures AtOwnStart(Picks(hay, sentence, range, n))
  {
    var ps := Picks(hay, sentence, range, n);
    forall i | 0 <= i < n && ps[i].0.Some? ensures ps[i].0.value.start == i {
      assert ps[i].0 == KeptAt(hay, sentence, range, i);
    }
  }

  /** Every match of the scan was kept at its own start position, which lies before n. */
  lemma ScanKept(hay: Index, sentence: seq<Member>, range: int, n: nat, a: int)
    requires n <= |sentence| && 0 <= a < |ScanTo(hay, sentence, range, n).0|
    ensures ScanTo(hay, sentence, range, n).0[a].start < n
    ensures Kept(hay, sentence, range, ScanTo(hay, sentence, range, n).0[a])
  {
    var ps := Picks(hay, sentence, range, n);
    PicksAtOwnStart(hay, sentence, range, n);
    FoldKept(ps, a);
    var f := Fold(ps).0[a];
    assert ps[f.start] == PickAt(hay, sentence, range, f.start);
  }

  /** The scan keeps at most one match per start position, in increasing order of start. */
  lemma ScanOrdered(hay: Index, sentence: seq<Member>, range: int, n: nat, a: int, b: int)
    requires n <= |sentence| && 0 <= a < b < |ScanTo(hay, sentence, range, n).0|
    ensures ScanTo(hay, sentence, range, n).0[a].start < ScanTo(hay, sentence, range, n).0[b].start
  {
    PicksAtOwnStart(hay, sentence, range, n);
    FoldOrdered(Picks(hay, sentence, range, n), a, b);
  }

  /** floor(s / 2) and ceil(s / 2) of a natural number. */
  lemma HalfBounds(s: nat)
    ensures (s as real / 2.0).Floor == s / 2
    ensures (s as real / 2.0).Floor as real == s as real / 2.0 <==> s % 2 == 0
  {
    var q := s / 2;
    assert s == 2 * q + s % 2;
    assert s as real / 2.0 == q as real + (s % 2) as real / 2.0;
  }

  /**
   * A one-member match starts, ends and is centred at its start; a longer
   * one needs a next position and ends at most `range` past its start. Every
   * centre lies inside the sentence, rounded down or up.
   */
  lemma MatchShape(sentence: seq<Member>, p: Pattern, i: nat, range: int)
    requires i < |sentence| && Try(sentence, p, i, range).Some?
    ensures var f := Try(sentence, p, i, range).value;
      && (|p| == 1 ==> f.start == i && f.end == i && f.center == i as real)
      && (|p| != 1 ==> i + 1 < |sentence| && f.end - f.start <= range && Match(sentence, p, 1, i + 1) == (true, f.end))
      && 0 <= Lo(f) <= Hi(f) < |sentence|
      && i <= Lo(f)
  {
    var f := Try(sentence, p, i, range).value;
    if |p| != 1 {
      HalfBounds(i + f.end);
      assert Lo(f) == (i + f.end) / 2;
    }
  }
}
