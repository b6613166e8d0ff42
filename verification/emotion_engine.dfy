/**
 * The four-axis emotion engine itself (class RBEMEmotion): the in-memory
 * lexicon, pattern insertion, the sentence scanner and classify.
 *
 * The lexicon is indexed four levels deep: category name, then the first
 * index of a pattern (its first token, trimmed and lower-cased, followed by
 * its first tag, trimmed), then the pattern length, then the total index
 * (the same concatenation over every element), and finally the pattern.
 */
module EmotionEngine {
  import opened Wrappers
  import opened Text
  import opened EmotionMatch
  import opened EmotionSubsumption
  import opened EmotionScoring

  /** One category's index: first index, then length, then total index, then pattern. */
  type Lexicon = map<string, map<int, map<string, Pattern>>>

  /** The pattern types addPattern accepts, in the order it checks them. */
  const AllowedPatterns: seq<string> := [
    "amplifiers", "attenuators", "continuators", "leftflips", "neutrals", "objectives",
    "rightflips", "stops", "joy", "sadness", "fear", "anger",
    "trust", "disgust", "surprise", "anticipation"]

  /** The lexicon key of one element: trimmed lower-cased token, then trimmed tag. */
  function ElementKey(e: Pair): string
  {
    ToLower(JavaTrim(e.0)) + JavaTrim(e.1)
  }

  /** The first index of a pattern: the key of its first element. */
  function FirstIndex(p: Pattern): string
    requires p != []
  {
    ElementKey(p[0])
  }

  /** The total index of a pattern: the keys of all its elements, concatenated in order. */
  function TotalIndex(p: Pattern): string
  {
    if p == [] then "" else TotalIndex(p[..|p| - 1]) + ElementKey(p[|p| - 1])
  }

  /** A pattern is stored under its own first index, length and total index. */
  predicate StoredAt(p: Pattern, k: string, len: int, full: string)
  {
    |p| == len && len >= 1 && k == FirstIndex(p) && full == TotalIndex(p)
  }

  /** Every entry of one category's index sits under its own keys. */
  predicate LexiconValid(lex: Lexicon)
  {
    forall k, len, full :: k in lex && len in lex[k] && full in lex[k][len] ==> StoredAt(lex[k][len][full], k, len, full)
  }

  /** The index with one more pattern, creating the intermediate levels when they are missing. */
  function Insert(lex: Lexicon, p: Pattern): (r: Lexicon)
    requires p != []
    ensures FirstIndex(p) in r && |p| in r[FirstIndex(p)] && TotalIndex(p) in r[FirstIndex(p)][|p|]
    ensures r[FirstIndex(p)][|p|][TotalIndex(p)] == p
  {
    var fi := FirstIndex(p);
    var byLength := if fi in lex then lex[fi] else map[];
    var group := if |p| in byLength then byLength[|p|] else map[];
    lex[fi := byLength[|p| := group[TotalIndex(p) := p]]]
  }

  /** Insertion keeps every other entry, with its value. */
  lemma InsertKeeps(lex: Lexicon, p: Pattern, k: string, len: int, full: string)
    requires p != []
    requires k in lex && len in lex[k] && full in lex[k][len]
    requires (k, len, full) != (FirstIndex(p), |p|, TotalIndex(p))
    ensures var r := Insert(lex, p); k in r && len in r[k] && full in r[k][len] && r[k][len][full] == lex[k][len][full]
  {
  }

  /** Insertion adds no entry besides the new pattern's. */
  lemma InsertAddsOne(lex: Lexicon, p: Pattern, k: string, len: int, full: string)
    requires p != []
    requires var r := Insert(lex, p); k in r && len in r[k] && full in r[k][len]
    ensures (k, len, full) == (FirstIndex(p), |p|, TotalIndex(p)) || (k in lex && len in lex[k] && full in lex[k][len])
  {
  }

  /** Insertion keeps every entry under its own keys. */
  lemma InsertValid(lex: Lexicon, p: Pattern)
    requires p != [] && LexiconValid(lex)
    ensures LexiconValid(Insert(lex, p))
  {
    var r := Insert(lex, p);
    forall k, len, full | k in r && len in r[k] && full in r[k][len]
      ensures StoredAt(r[k][len][full], k, len, full)
    {
      InsertAddsOne(lex, p, k, len, full);
      if (k, len, full) != (FirstIndex(p), |p|, TotalIndex(p)) {
        InsertKeeps(lex, p, k, len, full);
      }
    }
  }

  /** The patterns of a length group stored under the given lengths. */
  ghost function Patterns(group: map<int, map<string, Pattern>>, lengths: set<int>): set<Pattern>
  {
    set len, full | len in lengths && len in group && full in group[len] :: group[len][full]
  }

  /** The patterns stored under one first index, of every length. */
  ghost function Group(lex: Lexicon, key: string): set<Pattern>
  {
    if key in lex then Patterns(lex[key], lex[key].Keys) else {}
  }

  /** The matches at position i of the patterns stored under `key`. */
  ghost function HitsAt(lex: Lexicon, key: string, sentence: seq<Pair>, i: int): set<Hit>
    requires 0 <= i <= |sentence|
  {
    set p | p in Group(lex, key) && Match(sentence[i..], p, i).0 :: Hit(p, i, Match(sentence[i..], p, i).1)
  }

  /** The key the scanner looks up for a sentence pair, and its wildcard form. */
  function ScanKey(e: Pair): string { e.0 + e.1 }
  function WildcardKey(e: Pair): string { "_" + e.1 }

  /**
   * How often the scanner reports a hit: once for each of the two keys of its
   * start position under which it is a successful candidate (twice when the
   * token is "_" itself, since both keys are then the same).
   */
  ghost function Expected(lex: Lexicon, sentence: seq<Pair>, h: Hit): nat
  {
    if 0 <= h.start < |sentence| then
      (if h in HitsAt(lex, ScanKey(sentence[h.start]), sentence, h.start) then 1 else 0)
      + (if h in HitsAt(lex, WildcardKey(sentence[h.start]), sentence, h.start) then 1 else 0)
    else 0
  }

  /** What a scan of one category reports: starts in order, each successful candidate as often as it is looked up. */
  ghost predicate Scanned(lex: Lexicon, sentence: seq<Pair>, found: seq<Hit>)
  {
    && (forall a, b :: 0 <= a < b < |found| ==> found[a].start <= found[b].start)
    && (forall h :: multiset(found)[h] == Expected(lex, sentence, h))
  }

  /** No element twice. */
  predicate Distinct(xs: seq<Hit>)
  {
    forall a, b :: 0 <= a < b < |xs| ==> xs[a] != xs[b]
  }

  /** In a sequence without repetitions every element occurs once. */
  lemma {:induction false} DistinctCount(xs: seq<Hit>, h: Hit)
    requires Distinct(xs)
    ensures multiset(xs)[h] == if h in xs then 1 else 0
  {
    if xs != [] {
      var init := xs[..|xs| - 1];
      assert xs == init + [xs[|xs| - 1]];
      DistinctCount(init, h);
      assert xs[|xs| - 1] !in init;
    }
  }

  /**
   * Soundness and completeness of a scan: every reported hit starts inside
   * the sentence, its pattern is stored under one of the two keys of that
   * position and matches there with the reported end; and every such
   * successful candidate is reported.
   */
  lemma ScannedMeans(lex: Lexicon, sentence: seq<Pair>, found: seq<Hit>, h: Hit)
    requires Scanned(lex, sentence, found)
    ensures h in found <==>
              0 <= h.start < |sentence|
              && (h.pattern in Group(lex, ScanKey(sentence[h.start])) || h.pattern in Group(lex, WildcardKey(sentence[h.start])))
              && Match(sentence[h.start..], h.pattern, h.start) == (true, h.end)
  {
    assert h in found <==> multiset(found)[h] > 0;
  }

  /** A successful match of a non-empty pattern inside the sentence has its centre inside the sentence. */
  lemma HitCentred(sentence: seq<Pair>, h: Hit)
    requires 0 <= h.start < |sentence| && h.pattern != []
    requires Match(sentence[h.start..], h.pattern, h.start) == (true, h.end)
    ensures 0 <= Center(h) < |sentence|
  {
  }

  /** `hits` holds exactly the successful matches at position i of the patterns in `ps`. */
  ghost predicate Reports(hits: seq<Hit>, running: seq<Pair>, i: int, ps: set<Pattern>)
  {
    forall h :: h in hits <==> h.start == i && h.pattern in ps && Match(running, h.pattern, i) == (true, h.end)
  }

  /** The patterns of one length group stored under the given total indexes. */
  ghost function Members(patterns: map<string, Pattern>, fulls: set<string>): set<Pattern>
  {
    set full | full in fulls && full in patterns :: patterns[full]
  }

  /** The patterns of one length, tried in map order; each success is reported once. */
  method ScanLength(running: seq<Pair>, i: int, patterns: map<string, Pattern>, ghost len: int)
    returns (hits: seq<Hit>)
    requires forall full :: full in patterns ==> |patterns[full]| == len
    requires forall f1, f2 :: f1 in patterns && f2 in patterns && f1 != f2 ==> patterns[f1] != patterns[f2]
    ensures Distinct(hits)
    ensures forall h :: h in hits ==> |h.pattern| == len
    ensures Reports(hits, running, i, Members(patterns, patterns.Keys))
  {
    hits := [];
    var fulls := patterns.Keys;
    ghost var done: set<string> := {};
    while fulls != {}
      invariant fulls <= patterns.Keys && done == patterns.Keys - fulls
      invariant Distinct(hits)
      invariant Reports(hits, running, i, Members(patterns, done))
      decreases |fulls|
    {
      ghost var someFull := Pick(fulls);
      var full :| full in fulls;
      hits := TryPattern(running, i, patterns, full, hits, done);
      fulls := fulls - {full};
      done := done + {full};
    }
    forall h | h in hits ensures |h.pattern| == len {
      var f :| f in done && f in patterns && patterns[f] == h.pattern;
    }
  }

  /** One pattern of a length group tried at position i, its success appended to the hits so far. */
  method TryPattern(running: seq<Pair>, i: int, patterns: map<string, Pattern>, full: string, hits0: seq<Hit>, ghost done: set<string>)
    returns (hits: seq<Hit>)
    requires full in patterns && full !in done
    requires forall f1, f2 :: f1 in patterns && f2 in patterns && f1 != f2 ==> patterns[f1] != patterns[f2]
    requires Distinct(hits0)
    requires Reports(hits0, running, i, Members(patterns, done))
    ensures Distinct(hits)
    ensures Reports(hits, running, i, Members(patterns, done + {full}))
  {
    hits := hits0;
    var pattern := patterns[full];
    var pFound := Match(running, pattern, i);
    ghost var members := Members(patterns, done);
    ghost var members' := Members(patterns, done + {full});
    assert members' == members + {pattern};
    if pFound.0 {
      forall h | h in hits ensures h != Hit(pattern, i, pFound.1) {
        assert h.pattern in members;
        var f :| f in done && f in patterns && patterns[f] == h.pattern;
        assert f != full;
      }
      hits := hits + [Hit(pattern, i, pFound.1)];
    }
    assert Reports(hits, running, i, members') by {
      forall h ensures h in hits <==> h.start == i && h.pattern in members' && Match(running, h.pattern, i) == (true, h.end) {
        assert h in hits <==> h in hits0 || (pFound.0 && h == Hit(pattern, i, pFound.1));
      }
    }
  }

  /**
   * One lookup group of the scanner: every pattern of every length stored
   * under one first index is tried at position i, and the successful ones are
   * reported once each (in map order, which is unspecified).
   */
  method ScanGroup(running: seq<Pair>, i: int, group: map<int, map<string, Pattern>>, ghost k: string)
    returns (hits: seq<Hit>)
    requires forall len, full :: len in group && full in group[len] ==> StoredAt(group[len][full], k, len, full)
    ensures Distinct(hits)
    ensures Reports(hits, running, i, Patterns(group, group.Keys))
  {
    hits := [];
    var lengths := group.Keys;
    while lengths != {}
      invariant lengths <= group.Keys
      invariant Distinct(hits)
      invariant forall h :: h in hits ==> |h.pattern| in group.Keys - lengths
      invariant Reports(hits, running, i, Patterns(group, group.Keys - lengths))
      decreases |lengths|
    {
      ghost var someLength := Pick(lengths);
      var len :| len in lengths;
      ghost var done := group.Keys - lengths;
      hits := ScanOneLength(running, i, group, k, len, hits, done);
      lengths := lengths - {len};
      assert group.Keys - lengths == done + {len};
    }
  }

  /** One length of a lookup group: its patterns' successes appended to the hits of the lengths done so far. */
  method ScanOneLength(running: seq<Pair>, i: int, group: map<int, map<string, Pattern>>, ghost k: string, len: int,
                       hits0: seq<Hit>, ghost done: set<int>)
    returns (hits: seq<Hit>)
    requires forall len, full :: len in group && full in group[len] ==> StoredAt(group[len][full], k, len, full)
    requires len in group && len !in done
    requires Distinct(hits0)
    requires forall h :: h in hits0 ==> |h.pattern| in done
    requires Reports(hits0, running, i, Patterns(group, done))
    ensures Distinct(hits)
    ensures forall h :: h in hits ==> |h.pattern| in done + {len}
    ensures Reports(hits, running, i, Patterns(group, done + {len}))
  {
    forall f1, f2 | f1 in group[len] && f2 in group[len] && f1 != f2 ensures group[len][f1] != group[len][f2] {
      assert StoredAt(group[len][f1], k, len, f1) && StoredAt(group[len][f2], k, len, f2);
    }
    var more := ScanLength(running, i, group[len], len);
    assert Patterns(group, done + {len}) == Patterns(group, done) + Members(group[len], group[len].Keys);
    forall a, b | 0 <= a < |hits0| && 0 <= b < |more| ensures hits0[a] != more[b] {
      assert hits0[a] in hits0 && more[b] in more;
    }
    hits := hits0 + more;
  }

  /** The check of a pattern type against the allowed names, one by one. */
  method IsAllowed(patternType: string) returns (found: bool)
    ensures found <==> patternType in AllowedPatterns
  {
    found := false;
    for a := 0 to |AllowedPatterns|
      invariant found <==> patternType in AllowedPatterns[..a]
    {
      assert AllowedPatterns[..a + 1] == AllowedPatterns[..a] + [AllowedPatterns[a]];
      if patternType == AllowedPatterns[a] {
        found := true;
      }
    }
    assert AllowedPatterns[..|AllowedPatterns|] == AllowedPatterns;
  }

  /** The total index, built element by element. */
  method ComputeTotalIndex(pattern: Pattern) returns (totalIndex: string)
    ensures totalIndex == TotalIndex(pattern)
  {
    totalIndex := "";
    for m := 0 to |pattern|
      invariant totalIndex == TotalIndex(pattern[..m])
    {
      ghost var prefix := pattern[..m + 1];
      assert prefix[..m] == pattern[..m] && prefix[m] == pattern[m];
      assert TotalIndex(prefix) == TotalIndex(pattern[..m]) + ElementKey(pattern[m]);
      totalIndex := totalIndex + (ToLower(JavaTrim(pattern[m].0)) + JavaTrim(pattern[m].1));
    }
    assert pattern[..|pattern|] == pattern;
  }

  /**
   * The insertion step of addPattern on one category's index: both indexes
   * are computed, then the length and total-index levels are created when
   * missing and the pattern is put.
   */
  method Store(lex: Lexicon, pattern: Pattern) returns (r: Lexicon)
    requires pattern != []
    ensures r == Insert(lex, pattern)
  {
    var firstIndex := ToLower(JavaTrim(pattern[0].0)) + JavaTrim(pattern[0].1);
    var totalIndex := ComputeTotalIndex(pattern);
    var byLength := if firstIndex in lex then lex[firstIndex] else map[];
    var patterns := if |pattern| in byLength then byLength[|pattern|] else map[];
    r := lex[firstIndex := byLength[|pattern| := patterns[totalIndex := pattern]]];
  }

  /** A lexicon for exactly the sixteen categories, every index valid. */
  ghost predicate ModelValid(m: map<string, Lexicon>)
  {
    && (forall t :: t in m <==> t in AllowedPatterns)
    && (forall t :: t in m ==> LexiconValid(m[t]))
  }

  /** Replacing one category's index by a valid one keeps the lexicon valid. */
  lemma ReplaceValid(m: map<string, Lexicon>, t: string, lex: Lexicon)
    requires ModelValid(m) && t in m && LexiconValid(lex)
    ensures ModelValid(m[t := lex])
  {
    assert m[t := lex].Keys == m.Keys;
  }

  class RBEMEmotion {
    /** The lexicon: category name to that category's index. */
    var model: map<string, Lexicon>
    /** How far amplifiers, attenuators and flips reach from their centre. */
    var emissionRange: int

    /** The sixteen categories are present and every stored pattern sits under its own keys. */
    ghost predicate Valid()
      reads this
    {
      ModelValid(model)
    }

    /** An empty index for each of the sixteen categories, and an emission range of 3. */
    constructor ()
      ensures Valid()
      ensures forall t :: t in model ==> model[t] == map[]
      ensures emissionRange == 3
    {
      model := map t | t in AllowedPatterns :: map[];
      emissionRange := 3;
    }

    /**
     * Adds a pattern under a known category. Returns false, changing nothing,
     * for an unknown category or an empty pattern; otherwise stores the pattern
     * as given under its first index, length and total index, replacing a
     * pattern with the same total index.
     */
    method AddPattern(patternType: string, pattern: Pattern) returns (added: bool)
      requires Valid()
      modifies this
      ensures Valid()
      ensures added <==> patternType in AllowedPatterns && pattern != []
      ensures added ==> model == old(model)[patternType := Insert(old(model)[patternType], pattern)]
      ensures !added ==> model == old(model)
      ensures emissionRange == old(emissionRange)
    {
      var found := IsAllowed(patternType);
      if !found {
        return false;
      }
      if |pattern| > 0 {
        var lex := Store(model[patternType], pattern);
        InsertValid(model[patternType], pattern);
        ReplaceValid(model, patternType, lex);
        model := model[patternType := lex];
        assert Valid();
        return true;
      }
      return false;
    }

    /**
     * Pairs each token, lower-cased, with its tag, kept as given; fails when
     * the two lists differ in length.
     */
    method MakeVector(words: seq<string>, tags: seq<string>) returns (r: Result<seq<Pair>>)
      ensures r.Failure? <==> |words| != |tags|
      ensures r.Success? ==>
                |r.value| == |words| && forall i :: 0 <= i < |words| ==> r.value[i] == (ToLower(words[i]), tags[i])
    {
      if |words| != |tags| {
        return Failure("The number of words is unequal to the number of POS-tags");
      }
      var vector: seq<Pair> := [];
      for i := 0 to |words|
        invariant |vector| == i
        invariant forall k :: 0 <= k < i ==> vector[k] == (ToLower(words[k]), tags[k])
      {
        vector := vector + [(ToLower(words[i]), tags[i])];
      }
      return Success(vector);
    }

    /**
     * Scans a sentence for the patterns of one category: at every position the
     * groups under the exact key and under the wildcard key are tried.
     */
    method MatchPatterns(sentence: seq<Pair>, patternType: string) returns (found: seq<Hit>)
      requires Valid() && patternType in model
      ensures Scanned(model[patternType], sentence, found)
      ensures forall h :: h in found ==> 0 <= Center(h) < |sentence|
    {
      var lex := model[patternType];
      assert LexiconValid(lex);
      found := [];
      var runningSentence := sentence;
      for i := 0 to |sentence|
        invariant runningSentence == sentence[i..]
        invariant forall a, b :: 0 <= a < b < |found| ==> found[a].start <= found[b].start
        invariant forall h :: h in found ==> h.start < i
        invariant forall h :: multiset(found)[h] == if h.start < i then Expected(lex, sentence, h) else 0
        invariant forall h :: h in found ==> 0 <= Center(h) < |sentence|
      {
        var tuple := sentence[i];
        var firstIndex := tuple.0 + tuple.1;
        var firstIndexWildcard := "_" + tuple.1;
        var regular: seq<Hit> := [];
        if firstIndex in lex {
          regular := ScanGroup(runningSentence, i, lex[firstIndex], firstIndex);
        }
        var wildcard: seq<Hit> := [];
        if firstIndexWildcard in lex {
          wildcard := ScanGroup(runningSentence, i, lex[firstIndexWildcard], firstIndexWildcard);
        }
        CountsAt(lex, sentence, i, firstIndex, regular);
        CountsAt(lex, sentence, i, firstIndexWildcard, wildcard);
        ScanStep(lex, sentence, i, found, regular, wildcard);
        found := found + regular + wildcard;
        runningSentence := runningSentence[1..];
      }
    }

    /**
     * Classifies a sentence given as tokens and their tags: scans the sixteen
     * categories, removes subsumed matches, derives the stops, applies the
     * continuators, walks the thirteen emission stages over four all-zero
     * axis arrays and sums (and optionally normalises) each axis.
     */
    method Classify(tokens: seq<string>, tags: seq<string>, normalize: bool, decay: nat -> real)
      returns (r: Result<map<string, real>>, ghost sentence: seq<Pair>, ghost raw: Lists)
      requires Valid()
      ensures r.Failure? <==> |tokens| != |tags|
      ensures r.Success? ==>
                && |sentence| == |tokens|
                && (forall i :: 0 <= i < |tokens| ==> sentence[i] == (ToLower(tokens[i]), tags[i]))
                && ScannedAll(model, sentence, raw)
                && r.value == Classification(raw, |sentence|, emissionRange, decay, normalize)
    {
      var vector := MakeVector(tokens, tags);
      if vector.Failure? {
        raw := Lists([], [], [], [], [], [], [], [], [], [], [], [], [], [], [], []);
        return Failure(vector.error), [], raw;
      }
      var words := vector.value;
      sentence := words;
      var matched := MatchAll(words);
      raw := matched;
      var scores := ScoreMatches(matched, |words|, emissionRange, decay, normalize);
      r := Success(scores);
    }

    /** Scans the sentence for the patterns of one category. */
    method MatchCategory(sentence: seq<Pair>, c: Category) returns (found: seq<Hit>)
      requires Valid()
      ensures Name(c) in model && Scanned(model[Name(c)], sentence, found)
      ensures forall h :: h in found ==> 0 <= Center(h) < |sentence|
    {
      NameAllowed(c);
      found := MatchPatterns(sentence, Name(c));
    }

    /** Scans the sentence once per category, in the order classify passes them on. */
    method MatchAll(sentence: seq<Pair>) returns (raw: Lists)
      requires Valid()
      ensures ScannedAll(model, sentence, raw)
      ensures forall c :: Centred(raw.Get(c), |sentence|)
    {
      var amplifiers := MatchCategory(sentence, Amplifiers);
      var attenuators := MatchCategory(sentence, Attenuators);
      var continuators := MatchCategory(sentence, Continuators);
      var leftflips := MatchCategory(sentence, Leftflips);
      var neutrals := MatchCategory(sentence, Neutrals);
      var objectives := MatchCategory(sentence, Objectives);
      var rightflips := MatchCategory(sentence, Rightflips);
      var stops := MatchCategory(sentence, Stops);
      var joy := MatchCategory(sentence, Joy);
      var sadness := MatchCategory(sentence, Sadness);
      var fear := MatchCategory(sentence, Fear);
      var anger := MatchCategory(sentence, Anger);
      var trust := MatchCategory(sentence, Trust);
      var disgust := MatchCategory(sentence, Disgust);
      var surprise := MatchCategory(sentence, Surprise);
      var anticipation := MatchCategory(sentence, Anticipation);
      raw := Lists(amplifiers, attenuators, continuators, leftflips, neutrals, objectives, rightflips, stops,
                   joy, sadness, fear, anger, trust, disgust, surprise, anticipation);
      forall c ensures Name(c) in model && Scanned(model[Name(c)], sentence, raw.Get(c))
                    && Centred(raw.Get(c), |sentence|)
      {
        match c
        case Amplifiers =>
        case Attenuators =>
        case Continuators =>
        case Leftflips =>
        case Neutrals =>
        case Objectives =>
        case Rightflips =>
        case Stops =>
        case Joy =>
        case Sadness =>
        case Fear =>
        case Anger =>
        case Trust =>
        case Disgust =>
        case Surprise =>
        case Anticipation =>
      }
    }
  }

  /**
   * One position of the scan: appending the two group scans of position i to
   * a scan of the positions before i gives a scan of the positions up to i.
   */
  lemma ScanStep(lex: Lexicon, sentence: seq<Pair>, i: int, found: seq<Hit>, regular: seq<Hit>, wildcard: seq<Hit>)
    requires 0 <= i < |sentence| && LexiconValid(lex)
    requires forall a, b :: 0 <= a < b < |found| ==> found[a].start <= found[b].start
    requires forall h :: h in found ==> h.start < i
    requires forall h :: multiset(found)[h] == if h.start < i then Expected(lex, sentence, h) else 0
    requires forall h :: multiset(regular)[h] == if h in HitsAt(lex, ScanKey(sentence[i]), sentence, i) then 1 else 0
    requires forall h :: multiset(wildcard)[h] == if h in HitsAt(lex, WildcardKey(sentence[i]), sentence, i) then 1 else 0
    requires forall h :: h in found ==> 0 <= Center(h) < |sentence|
    ensures var all := found + regular + wildcard;
      && (forall a, b :: 0 <= a < b < |all| ==> all[a].start <= all[b].start)
      && (forall h :: h in all ==> h.start < i + 1)
      && (forall h :: multiset(all)[h] == if h.start < i + 1 then Expected(lex, sentence, h) else 0)
      && (forall h :: h in all ==> 0 <= Center(h) < |sentence|)
  {
    var all := found + regular + wildcard;
    var added := regular + wildcard;
    forall h | h in added ensures h.start == i && 0 <= Center(h) < |sentence| {
      assert multiset(added)[h] > 0;
      var key := if multiset(regular)[h] > 0 then ScanKey(sentence[i]) else WildcardKey(sentence[i]);
      assert h in HitsAt(lex, key, sentence, i);
      GroupNonEmpty(lex, key, h.pattern);
      HitCentred(sentence, h);
    }
    forall a, b | 0 <= a < b < |all| ensures all[a].start <= all[b].start {
      if b >= |found| {
        assert all[b] in added;
        if a < |found| {
          assert all[a] in found;
        } else {
          assert all[a] in added;
        }
      }
    }
    forall h ensures multiset(all)[h] == if h.start < i + 1 then Expected(lex, sentence, h) else 0 {
      assert multiset(all)[h] == multiset(found)[h] + multiset(regular)[h] + multiset(wildcard)[h];
    }
  }

  /** Every pattern stored under a key is non-empty. */
  lemma GroupNonEmpty(lex: Lexicon, key: string, p: Pattern)
    requires LexiconValid(lex) && p in Group(lex, key)
    ensures p != []
  {
    var len, full :| len in lex[key] && full in lex[key][len] && lex[key][len][full] == p;
  }

  /** A group scan at position i reports exactly HitsAt, once each. */
  lemma CountsAt(lex: Lexicon, sentence: seq<Pair>, i: int, key: string, hits: seq<Hit>)
    requires 0 <= i < |sentence|
    requires Distinct(hits)
    requires key in lex ==> Reports(hits, sentence[i..], i, Patterns(lex[key], lex[key].Keys))
    requires key !in lex ==> hits == []
    ensures forall h :: multiset(hits)[h] == if h in HitsAt(lex, key, sentence, i) then 1 else 0
  {
    forall h ensures multiset(hits)[h] == if h in HitsAt(lex, key, sentence, i) then 1 else 0 {
      DistinctCount(hits, h);
    }
  }

  /** Every category's name is an accepted pattern type. */
  lemma NameAllowed(c: Category)
    ensures Name(c) in AllowedPatterns
  {
    match c
    case Amplifiers => assert AllowedPatterns[0] == Name(c);
    case Attenuators => assert AllowedPatterns[1] == Name(c);
    case Continuators => assert AllowedPatterns[2] == Name(c);
    case Leftflips => assert AllowedPatterns[3] == Name(c);
    case Neutrals => assert AllowedPatterns[4] == Name(c);
    case Objectives => assert AllowedPatterns[5] == Name(c);
    case Rightflips => assert AllowedPatterns[6] == Name(c);
    case Stops => assert AllowedPatterns[7] == Name(c);
    case Joy => assert AllowedPatterns[8] == Name(c);
    case Sadness => assert AllowedPatterns[9] == Name(c);
    case Fear => assert AllowedPatterns[10] == Name(c);
    case Anger => assert AllowedPatterns[11] == Name(c);
    case Trust => assert AllowedPatterns[12] == Name(c);
    case Disgust => assert AllowedPatterns[13] == Name(c);
    case Surprise => assert AllowedPatterns[14] == Name(c);
    case Anticipation => assert AllowedPatterns[15] == Name(c);
  }

  /** Every category's scan of the sentence, under that category's index. */
  ghost predicate ScannedAll(model: map<string, Lexicon>, sentence: seq<Pair>, raw: Lists)
  {
    forall c :: Name(c) in model && Scanned(model[Name(c)], sentence, raw.Get(c))
  }

  /** Filtering keeps every list's matches centred inside the sentence. */
  lemma FilteredCentred(raw: Lists, n: nat)
    requires forall c :: Centred(raw.Get(c), n)
    ensures forall c :: Centred(Filtered(raw).Get(c), n)
  {
    forall c, h | h in Filtered(raw).Get(c) ensures 0 <= Center(h) < n {
      FilteredWithinAll(raw, c, h);
      var d := CategoryOf(raw, h);
      assert Centred(raw.Get(d), n);
    }
  }

  /** The stages of classify after pattern matching: filtering, the stop table, the emissions and the scores. */
  method ScoreMatches(matched: Lists, n: nat, range: int, decay: nat -> real, normalize: bool) returns (scores: map<string, real>)
    requires forall c :: Centred(matched.Get(c), n)
    ensures scores == Classification(matched, n, range, decay, normalize)
  {
    var emissions := ZeroEmissions(n);
    var patterns, _, _ := RemoveSubsumed(matched);
    FilteredCentred(matched, n);
    var stops := DeriveStops(patterns.leftflips, patterns.stops);
    stops := ApplyContinuators(stops, patterns.continuators, range);
    EmitAll(emissions, patterns, Frame(n, stops, decay), range);
    scores := Aggregate(emissions, normalize);
  }

  /**
   * The scores classify returns for the matches `raw` of a sentence of
   * length n: subsumed matches removed, the stops of the surviving leftflips
   * and stop patterns thinned by the continuators, the thirteen emission
   * stages walked, and the four axes summed.
   */
  function Classification(raw: Lists, n: nat, range: int, decay: nat -> real, normalize: bool): (r: map<string, real>)
    ensures r.Keys == set a | a in Axes
  {
    var f := Filtered(raw);
    var stops := AfterContinuators(Starts(f.leftflips + f.stops), f.continuators, range);
    Scores(Emissions(f, Frame(n, stops, decay), range), normalize)
  }
}
