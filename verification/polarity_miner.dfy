/**
 * The polarity engine EmissionMiner: the eight pattern indexes, pattern
 * insertion, the emission range, sentence vectors, and polarizeSentence,
 * which matches every index against a sentence, resolves subsumption
 * between the types, places stops and continues, runs the six emission
 * stages and reads off the label, the sentiment score and the normalised
 * polarity of every token.
 */
module PolarityMiner {
  import opened Wrappers
  import opened Text
  import opened PolarityMatch
  import opened PolarityLexicon
  import opened PolaritySubsumption
  import opened PolarityScan
  import opened PolarityWalk
  import EmotionScoring

  /** What polarizeSentence returns and writes back through its reference parameters. */
  datatype Outcome = Outcome(polarity: string, sentiment: real, polarized: Option<seq<real>>, patternsFound: bool)

  // ----- Sentence vectors -----

  /** makeVector's member for tag i: the token trimmed and lower-cased (empty when missing), the tag trimmed. */
  function VectorMember(tokens: seq<string>, tags: seq<string>, i: nat): Member
    requires i < |tags|
  {
    (PhpNormalize(if i < |tokens| then tokens[i] else ""), PhpTrim(tags[i]))
  }

  /** makeVector: one member per tag. */
  function Vector(tokens: seq<string>, tags: seq<string>): (v: seq<Member>)
    ensures |v| == |tags|
  {
    seq(|tags|, i requires 0 <= i < |tags| => VectorMember(tokens, tags, i))
  }

  /** makeVector, one tag at a time. */
  method MakeVector(tokens: seq<string>, tags: seq<string>) returns (v: seq<Member>)
    ensures v == Vector(tokens, tags)
  {
    v := [];
    for i := 0 to |tags|
      invariant |v| == i
      invariant forall k :: 0 <= k < i ==> v[k] == VectorMember(tokens, tags, k)
    {
      v := v + [VectorMember(tokens, tags, i)];
    }
  }

  /** polarizeSentence's own normalisation: every token trimmed and lower-cased, tags as given. */
  function Normalized(tokens: seq<Member>): (s: seq<Member>)
    ensures |s| == |tokens|
  {
    seq(|tokens|, i requires 0 <= i < |tokens| => StoredMember(tokens[i]))
  }

  /**
   * Normalisation is idempotent, and a vector from makeVector is already
   * normalised: polarizeSentence reads it unchanged.
   */
  lemma NormalizedIdempotent(tokens: seq<Member>, words: seq<string>, tags: seq<string>)
    ensures Normalized(Normalized(tokens)) == Normalized(tokens)
    ensures Normalized(Vector(words, tags)) == Vector(words, tags)
  {
    forall i | 0 <= i < |tokens| ensures Normalized(Normalized(tokens))[i] == Normalized(tokens)[i] {
      PhpNormalizeIdempotent(tokens[i].0);
    }
    var v := Vector(words, tags);
    forall i | 0 <= i < |v| ensures Normalized(v)[i] == v[i] {
      assert v[i] == VectorMember(words, tags, i);
      PhpNormalizeIdempotent(if i < |words| then words[i] else "");
    }
  }

  // ----- The specification of polarizeSentence -----

  /** The eight types in the order removeSubsumed takes their indexes. */
  const LeftflipAt := 0
  const StopAt := 1
  const ContinuatorAt := 2
  const PositiveAt := 3
  const NegativeAt := 4
  const AmplifierAt := 5
  const AttenuatorAt := 6
  const RightflipAt := 7

  /** Every scan of an index keeps only matches inside the sentence. */
  lemma ScansPlaced(ixs: seq<Index>, sentence: seq<Member>, range: int)
    ensures forall k :: 0 <= k < |ixs| ==> Placed(ScanTo(ixs[k], sentence, range, |sentence|).0, |sentence|)
  {
    forall k | 0 <= k < |ixs| ensures Placed(ScanTo(ixs[k], sentence, range, |sentence|).0, |sentence|) {
      ScanPlaced(ixs[k], sentence, range);
    }
  }

  /** The matches of the eight indexes, in removeSubsumed's order. */
  function Matches(sentence: seq<Member>, ixs: seq<Index>, range: int): (ms: seq<seq<Found>>)
    requires |ixs| == 8
    ensures |ms| == 8 && forall k :: 0 <= k < 8 ==> Placed(ms[k], |sentence|)
  {
    ScansPlaced(ixs, sentence, range);
    seq(8, k requires 0 <= k < 8 => ScanTo(ixs[k], sentence, range, |sentence|).0)
  }

  /** The hash indexes of the eight scans. */
  function HashIndexes(sentence: seq<Member>, ixs: seq<Index>, range: int): (hs: seq<HashIndex>)
    requires |ixs| == 8
    ensures |hs| == 8
  {
    seq(8, k requires 0 <= k < 8 => ScanTo(ixs[k], sentence, range, |sentence|).1)
  }

  /** The hash indexes of the eight scans after subsumption. */
  function Surviving(sentence: seq<Member>, ixs: seq<Index>, range: int): (idx: seq<HashIndex>)
    requires |ixs| == 8
    ensures |idx| == 8
  {
    Survivors(HashIndexes(sentence, ixs, range))
  }

  /** Stops at active leftflips and stops, then the continuators' changes. */
  function TablesOf(ms: seq<seq<Found>>, idx: seq<HashIndex>, range: int, decay: nat -> real): Tables
    requires |ms| == 8 && |idx| == 8
  {
    var stops := ActiveStarts(ms[LeftflipAt], idx[LeftflipAt]) + ActiveStarts(ms[StopAt], idx[StopAt]);
    var tables := Continued(stops, {}, ms[ContinuatorAt], idx[ContinuatorAt], range);
    Tables(tables.0, tables.1, decay)
  }

  /** The six stages, from all-zero emissions: positives, negatives, amplifiers, attenuators, rightflips, leftflips. */
  function Emissions(n: nat, ms: seq<seq<Found>>, idx: seq<HashIndex>, tb: Tables, range: int): (em: seq<real>)
    requires |ms| == 8 && |idx| == 8 && forall k :: 0 <= k < 8 ==> Placed(ms[k], n)
    ensures |em| == n
  {
    var e1 := Stage(Zeros(n), Emit(1.0), ms[PositiveAt], idx[PositiveAt], tb, range);
    var e2 := Stage(e1, Emit(-1.0), ms[NegativeAt], idx[NegativeAt], tb, range);
    var e3 := Stage(e2, Amplify, ms[AmplifierAt], idx[AmplifierAt], tb, range);
    var e4 := Stage(e3, Attenuate, ms[AttenuatorAt], idx[AttenuatorAt], tb, range);
    var e5 := Stage(e4, RightFlip, ms[RightflipAt], idx[RightflipAt], tb, range);
    Stage(e5, LeftFlip, ms[LeftflipAt], idx[LeftflipAt], tb, range)
  }

  /** Some match of the list takes part. */
  predicate AnyActive(fs: seq<Found>, idx: HashIndex)
  {
    exists f :: f in fs && Active(f, idx)
  }

  /** The outcome of polarizeSentence on a normalised sentence. */
  function Polarization(sentence: seq<Member>, ixs: seq<Index>, range: int, decay: nat -> real, wantPolarized: bool): Outcome
    requires |ixs| == 8
  {
    var ms := Matches(sentence, ixs, range);
    var idx := Surviving(sentence, ixs, range);
    var em := Emissions(|sentence|, ms, idx, TablesOf(ms, idx, range, decay), range);
    Summary(em, wantPolarized, AnyActive(ms[PositiveAt], idx[PositiveAt]) || AnyActive(ms[NegativeAt], idx[NegativeAt]))
  }

  /** The result read off the final emissions: label, sum, and the normalised polarities when asked for. */
  function Summary(em: seq<real>, wantPolarized: bool, patternsFound: bool): Outcome
  {
    var sentiment := EmotionScoring.Sum(em);
    Outcome(
      Label(sentiment),
      sentiment,
      if wantPolarized then Some(Polarized(em, EmotionScoring.MaxAbs(em))) else None,
      patternsFound)
  }

  /** The emission sum of an all-zero sentence. */
  lemma {:induction false} SumZeros(n: nat)
    ensures EmotionScoring.Sum(Zeros(n)) == 0.0
  {
    if n > 0 {
      assert Zeros(n)[..n - 1] == Zeros(n - 1);
      SumZeros(n - 1);
    }
  }

  /**
   * The label is the sign of the sentiment score; the normalised polarities
   * are there exactly when asked for, one per token, each in [-1, 1]; and a
   * sentence in which no positive or negative pattern takes part is neutral
   * with score 0 and all polarities 0, whatever its other patterns.
   */
  lemma PolarizationFacts(sentence: seq<Member>, ixs: seq<Index>, range: int, decay: nat -> real, wantPolarized: bool)
    requires |ixs| == 8
    ensures var r := Polarization(sentence, ixs, range, decay, wantPolarized);
      && (r.polarity == "negative" <==> r.sentiment < 0.0)
      && (r.polarity == "positive" <==> r.sentiment > 0.0)
      && (r.polarity == "neutral" <==> r.sentiment == 0.0)
      && (r.polarized.Some? <==> wantPolarized)
      && (r.polarized.Some? ==>
            && |r.polarized.value| == |sentence|
            && (forall i :: 0 <= i < |sentence| ==> -1.0 <= r.polarized.value[i] <= 1.0))
    ensures var r := Polarization(sentence, ixs, range, decay, wantPolarized);
      !r.patternsFound ==>
        && r.polarity == "neutral"
        && r.sentiment == 0.0
        && (r.polarized.Some? ==> forall i :: 0 <= i < |sentence| ==> r.polarized.value[i] == 0.0)
  {
    var n := |sentence|;
    var ms := Matches(sentence, ixs, range);
    var idx := Surviving(sentence, ixs, range);
    var tb := TablesOf(ms, idx, range, decay);
    var em := Emissions(n, ms, idx, tb, range);
    PolarizedBounded(em);
    var r := Polarization(sentence, ixs, range, decay, wantPolarized);
    if !r.patternsFound {
      StageIdle(Zeros(n), Emit(1.0), ms[PositiveAt], idx[PositiveAt], tb, range);
      StageIdle(Zeros(n), Emit(-1.0), ms[NegativeAt], idx[NegativeAt], tb, range);
      StageKeepsZeros(n, Amplify, ms[AmplifierAt], idx[AmplifierAt], tb, range);
      StageKeepsZeros(n, Attenuate, ms[AttenuatorAt], idx[AttenuatorAt], tb, range);
      StageKeepsZeros(n, RightFlip, ms[RightflipAt], idx[RightflipAt], tb, range);
      StageKeepsZeros(n, LeftFlip, ms[LeftflipAt], idx[LeftflipAt], tb, range);
      assert em == Zeros(n);
      SumZeros(n);
    }
  }

  /** The index of type t after addPattern(pattern, typeName). */
  function Filed(ix: Index, t: PatternType, pattern: Pattern, typeName: string): Index
  {
    if TypeOf(typeName) == Some(t)
    then Insert(ix, FirstKey(pattern), |pattern|, FullIndex(pattern), Normalized(pattern))
    else ix
  }

  /**
   * After addPattern, the slot the pattern names holds it with its tokens
   * normalised, every other slot is as it was, and no level repeats a key.
   */
  lemma FiledLookup(ix: Index, t: PatternType, pattern: Pattern, typeName: string, key: string, len: int, full: string)
    requires IndexValid(ix)
    ensures IndexValid(Filed(ix, t, pattern, typeName))
    ensures Lookup(Filed(ix, t, pattern, typeName), key, len, full) ==
      if TypeOf(typeName) == Some(t) && key == FirstKey(pattern) && len == |pattern| && full == FullIndex(pattern)
      then Some(Normalized(pattern))
      else Lookup(ix, key, len, full)
  {
    if TypeOf(typeName) == Some(t) {
      InsertValid(ix, FirstKey(pattern), |pattern|, FullIndex(pattern), Normalized(pattern));
      InsertLookup(ix, FirstKey(pattern), |pattern|, FullIndex(pattern), Normalized(pattern), key, len, full);
    }
  }

  /** polarizeSentence's normalisation loop. */
  method NormalizeTokens(tokens: seq<Member>) returns (sentence: seq<Member>)
    ensures sentence == Normalized(tokens)
  {
    sentence := tokens;
    for i := 0 to |tokens|
      invariant |sentence| == |tokens|
      invariant forall k :: 0 <= k < i ==> sentence[k] == StoredMember(tokens[k])
      invariant forall k :: i <= k < |tokens| ==> sentence[k] == tokens[k]
    {
      sentence := sentence[i := (PhpNormalize(sentence[i].0), sentence[i].1)];
    }
  }

  /** The eight calls of matchPatterns, in removeSubsumed's order. */
  method ScanAll(sentence: seq<Member>, ixs: seq<Index>, range: int) returns (ms: seq<seq<Found>>, hashIndexes: seq<HashIndex>)
    requires |ixs| == 8
    ensures ms == Matches(sentence, ixs, range)
    ensures hashIndexes == HashIndexes(sentence, ixs, range)
  {
    ms, hashIndexes := [], [];
    for k := 0 to 8
      invariant |ms| == k && |hashIndexes| == k
      invariant forall u :: 0 <= u < k ==> (ms[u], hashIndexes[u]) == ScanTo(ixs[u], sentence, range, |sentence|)
    {
      var matches, hashIndex := MatchPatterns(sentence, ixs[k], range);
      ms, hashIndexes := ms + [matches], hashIndexes + [hashIndex];
    }
    ScansAre(sentence, ixs, range, ms, hashIndexes);
  }

  /** Eight scans, each the one of its index, are the scans of the specification. */
  lemma ScansAre(sentence: seq<Member>, ixs: seq<Index>, range: int, ms: seq<seq<Found>>, hashIndexes: seq<HashIndex>)
    requires |ixs| == 8 && |ms| == 8 && |hashIndexes| == 8
    requires forall u :: 0 <= u < 8 ==> (ms[u], hashIndexes[u]) == ScanTo(ixs[u], sentence, range, |sentence|)
    ensures ms == Matches(sentence, ixs, range)
    ensures hashIndexes == HashIndexes(sentence, ixs, range)
  {
  }

  /** The stops of active leftflips and stops, then the continuators. */
  method MakeTables(ms: seq<seq<Found>>, idx: seq<HashIndex>, range: int, decay: nat -> real) returns (tb: Tables)
    requires |ms| == 8 && |idx| == 8
    ensures tb == TablesOf(ms, idx, range, decay)
  {
    var stops := AddStops({}, ms[LeftflipAt], idx[LeftflipAt]);
    stops := AddStops(stops, ms[StopAt], idx[StopAt]);
    assert stops == ActiveStarts(ms[LeftflipAt], idx[LeftflipAt]) + ActiveStarts(ms[StopAt], idx[StopAt]);
    var continues;
    stops, continues := ApplyContinues(stops, ms[ContinuatorAt], idx[ContinuatorAt], range);
    tb := Tables(stops, continues, decay);
  }

  /** The six emission stages on the emission array; reports whether a positive or negative pattern took part. */
  method RunStages(em: array<real>, ms: seq<seq<Found>>, idx: seq<HashIndex>, tb: Tables, range: int) returns (found: bool)
    requires |ms| == 8 && |idx| == 8 && forall k :: 0 <= k < 8 ==> Placed(ms[k], em.Length)
    requires em[..] == Zeros(em.Length)
    modifies em
    ensures em[..] == Emissions(em.Length, ms, idx, tb, range)
    ensures found <==> AnyActive(ms[PositiveAt], idx[PositiveAt]) || AnyActive(ms[NegativeAt], idx[NegativeAt])
  {
    var positiveFound := RunStage(em, Emit(1.0), ms[PositiveAt], idx[PositiveAt], tb, range);
    var negativeFound := RunStage(em, Emit(-1.0), ms[NegativeAt], idx[NegativeAt], tb, range);
    var any := RunStage(em, Amplify, ms[AmplifierAt], idx[AmplifierAt], tb, range);
    any := RunStage(em, Attenuate, ms[AttenuatorAt], idx[AttenuatorAt], tb, range);
    any := RunStage(em, RightFlip, ms[RightflipAt], idx[RightflipAt], tb, range);
    any := RunStage(em, LeftFlip, ms[LeftflipAt], idx[LeftflipAt], tb, range);
    found := positiveFound || negativeFound;
  }

  /** The totals and, when asked for, the normalised polarities. */
  method Summarize(em: array<real>, wantPolarized: bool, patternsFound: bool) returns (result: Outcome)
    ensures result == Summary(em[..], wantPolarized, patternsFound)
  {
    var sentiment, max := Totals(em);
    var polarized := None;
    if wantPolarized {
      var values := PolarizeAll(em, max);
      polarized := Some(values);
    }
    result := Outcome(Label(sentiment), sentiment, polarized, patternsFound);
  }

  // ----- The engine -----

  /** The pattern model and the emission range, which the source keeps as static fields. */
  class EmissionMiner {
    var positives: Index
    var negatives: Index
    var amplifiers: Index
    var attenuators: Index
    var rightflips: Index
    var leftflips: Index
    var continuators: Index
    var stops: Index
    var emissionRange: int

    /** No index repeats a key at any level. */
    ghost predicate Valid()
      reads this
    {
      forall t :: IndexValid(IndexOf(t))
    }

    /** The index of one type. */
    function IndexOf(t: PatternType): Index
      reads this
    {
      match t
      case Positive => positives
      case Negative => negatives
      case Amplifier => amplifiers
      case Attenuator => attenuators
      case Rightflip => rightflips
      case Leftflip => leftflips
      case Continuator => continuators
      case Stop => stops
    }

    /** The eight indexes in removeSubsumed's order. */
    function Indexes(): (ixs: seq<Index>)
      reads this
      ensures |ixs| == 8
    {
      [leftflips, stops, continuators, positives, negatives, amplifiers, attenuators, rightflips]
    }

    /** An empty model with the default emission range of 4. */
    constructor()
      ensures Valid() && emissionRange == 4
      ensures forall t :: IndexOf(t) == []
    {
      positives, negatives, amplifiers, attenuators := [], [], [], [];
      rightflips, leftflips, continuators, stops := [], [], [], [];
      emissionRange := 4;
    }

    /** setEmissionRange: the patterns stay as they are. */
    method SetEmissionRange(range: int)
      modifies this
      ensures emissionRange == range
      ensures forall t :: IndexOf(t) == old(IndexOf(t))
    {
      emissionRange := range;
    }

    /**
     * addPattern: files the pattern, tokens normalised, under its first
     * member's key, its length and its full index in the index its type
     * names; a name that is no type changes nothing.
     */
    method AddPattern(pattern: Pattern, typeName: string)
      requires Valid() && Accepted(pattern)
      modifies this
      ensures Valid() && emissionRange == old(emissionRange)
      ensures forall t :: IndexOf(t) == Filed(old(IndexOf(t)), t, pattern, typeName)
    {
      var stored, key, full := Prepare(pattern);
      assert stored == Normalized(pattern);
      if TypeOf(typeName).Some? {
        var t := TypeOf(typeName).value;
        FiledLookup(IndexOf(t), t, pattern, typeName, key, |pattern|, full);
        ghost var filed := Filed(IndexOf(t), t, pattern, typeName);
        Store(t, Insert(IndexOf(t), key, |pattern|, full, stored));
        assert IndexOf(t) == filed;
      }
    }

    /** Replaces the index of one type. */
    method Store(t: PatternType, ix: Index)
      modifies this
      ensures IndexOf(t) == ix && emissionRange == old(emissionRange)
      ensures forall u :: u != t ==> IndexOf(u) == old(IndexOf(u))
    {
      match t {
        case Positive => positives := ix;
        case Negative => negatives := ix;
        case Amplifier => amplifiers := ix;
        case Attenuator => attenuators := ix;
        case Rightflip => rightflips := ix;
        case Leftflip => leftflips := ix;
        case Continuator => continuators := ix;
        case Stop => stops := ix;
      }
    }

    /**
     * polarizeSentence: the label, the sentiment score, the normalised
     * polarities when asked for (the source's reference parameter being
     * set) and whether a positive or negative pattern took part. The decay
     * e^(-j) is a parameter.
     */
    method PolarizeSentence(tokens: seq<Member>, wantPolarized: bool, decay: nat -> real) returns (result: Outcome)
      ensures result == Polarization(Normalized(tokens), Indexes(), emissionRange, decay, wantPolarized)
    {
      var sentence := NormalizeTokens(tokens);
      var range := emissionRange;
      var ms, hashIndexes := ScanAll(sentence, Indexes(), range);
      var idx := RemoveSubsumed(hashIndexes);
      var tb := MakeTables(ms, idx, range, decay);
      var emissions := new real[|sentence|](_ => 0.0);
      assert emissions[..] == Zeros(|sentence|);
      var found := RunStages(emissions, ms, idx, tb, range);
      result := Summarize(emissions, wantPolarized, found);
    }
  }
}
