/**
 * The subsumption filter of the four-axis emotion engine
 * (RBEMEmotion.isNotSubsumed and RBEMEmotion.removeSubsumed).
 *
 * A hit is dropped when some hit in the comparison list starts no later and
 * ends strictly later. removeSubsumed builds each comparison list by
 * appending to the list object it was handed for the amplifiers (or, in the
 * first block, the attenuators) instead of to a copy, so those two argument
 * lists keep growing from block to block. The model threads them as sequence
 * variables and states exactly what each block compares against.
 */
module EmotionSubsumption {
  import opened EmotionMatch

  /** The sixteen pattern categories, in the order the filter's parameters take them. */
  datatype Category =
    | Amplifiers | Attenuators | Continuators | Leftflips | Neutrals | Objectives
    | Rightflips | Stops | Joy | Sadness | Fear | Anger | Trust | Disgust | Surprise | Anticipation

  /** The category name used as the first key of the lexicon. */
  function Name(c: Category): string
  {
    match c
    case Amplifiers => "amplifiers"
    case Attenuators => "attenuators"
    case Continuators => "continuators"
    case Leftflips => "leftflips"
    case Neutrals => "neutrals"
    case Objectives => "objectives"
    case Rightflips => "rightflips"
    case Stops => "stops"
    case Joy => "joy"
    case Sadness => "sadness"
    case Fear => "fear"
    case Anger => "anger"
    case Trust => "trust"
    case Disgust => "disgust"
    case Surprise => "surprise"
    case Anticipation => "anticipation"
  }

  /** Distinct categories have distinct names. */
  lemma NameInjective(c: Category, d: Category)
    ensures Name(c) == Name(d) ==> c == d
  {
  }

  /** Position of a category in the parameter (and block) order. */
  function CategoryIndex(c: Category): (k: nat)
    ensures k < 16
    ensures c == Amplifiers <==> k == 0
    ensures c == Attenuators <==> k == 1
  {
    match c
    case Amplifiers => 0
    case Attenuators => 1
    case Continuators => 2
    case Leftflips => 3
    case Neutrals => 4
    case Objectives => 5
    case Rightflips => 6
    case Stops => 7
    case Joy => 8
    case Sadness => 9
    case Fear => 10
    case Anger => 11
    case Trust => 12
    case Disgust => 13
    case Surprise => 14
    case Anticipation => 15
  }

  /** One hit list per category. */
  datatype Lists = Lists(
    amplifiers: seq<Hit>, attenuators: seq<Hit>, continuators: seq<Hit>, leftflips: seq<Hit>,
    neutrals: seq<Hit>, objectives: seq<Hit>, rightflips: seq<Hit>, stops: seq<Hit>,
    joy: seq<Hit>, sadness: seq<Hit>, fear: seq<Hit>, anger: seq<Hit>,
    trust: seq<Hit>, disgust: seq<Hit>, surprise: seq<Hit>, anticipation: seq<Hit>)
  {
    function Get(c: Category): seq<Hit>
    {
      match c
      case Amplifiers => amplifiers
      case Attenuators => attenuators
      case Continuators => continuators
      case Leftflips => leftflips
      case Neutrals => neutrals
      case Objectives => objectives
      case Rightflips => rightflips
      case Stops => stops
      case Joy => joy
      case Sadness => sadness
      case Fear => fear
      case Anger => anger
      case Trust => trust
      case Disgust => disgust
      case Surprise => surprise
      case Anticipation => anticipation
    }

    /** The lists of the fourteen categories from continuators to anticipation, in parameter order. */
    function Tail(): seq<Hit>
    {
      continuators + leftflips + neutrals + objectives + rightflips + stops
      + joy + sadness + fear + anger + trust + disgust + surprise + anticipation
    }

    /** Every hit of every category. */
    function All(): seq<Hit>
    {
      amplifiers + attenuators + Tail()
    }
  }

  /** No hit of `list` starts at or before `start` and ends after `end`. */
  predicate NotSubsumed(start: int, end: int, list: seq<Hit>)
  {
    forall h :: h in list ==> !(h.start <= start && h.end > end)
  }

  /** The read-only scan of isNotSubsumed: false iff some hit starts no later and ends later. */
  method IsNotSubsumed(start: int, end: int, list: seq<Hit>) returns (r: bool)
    ensures !r <==> exists k :: 0 <= k < |list| && list[k].start <= start && list[k].end > end
  {
    if |list| == 0 {
      return true;
    }
    r := true;
    var i := 0;
    while i < |list|
      invariant 0 <= i <= |list|
      invariant r
      invariant forall k :: 0 <= k < i ==> !(list[k].start <= start && list[k].end > end)
    {
      if list[i].start <= start && list[i].end > end {
        r := false;
        break;
      }
      i := i + 1;
    }
  }

  /** The hits of `xs` that no hit of `others` subsumes, in their original order. */
  function Keep(xs: seq<Hit>, others: seq<Hit>): seq<Hit>
  {
    if xs == [] then []
    else
      var last := xs[|xs| - 1];
      Keep(xs[..|xs| - 1], others)
      + (if NotSubsumed(last.start, last.end, others) then [last] else [])
  }

  /** One filtering block: keeps, in order, the hits of `xs` that `others` does not subsume. */
  method KeepNotSubsumed(xs: seq<Hit>, others: seq<Hit>) returns (kept: seq<Hit>)
    ensures kept == Keep(xs, others)
  {
    kept := [];
    var i := 0;
    while i < |xs|
      invariant 0 <= i <= |xs|
      invariant kept == Keep(xs[..i], others)
    {
      var elem := xs[i];
      var keep := IsNotSubsumed(elem.start, elem.end, others);
      assert keep <==> NotSubsumed(elem.start, elem.end, others) by {
        if !keep {
          var k :| 0 <= k < |others| && others[k].start <= elem.start && others[k].end > elem.end;
          assert others[k] in others;
        }
      }
      if keep {
        kept := kept + [elem];
      }
      assert xs[..i + 1][..i] == xs[..i];
      i := i + 1;
    }
    assert xs[..|xs|] == xs;
  }

  /** Membership in a kept list: exactly the unsubsumed hits of the iterated list. */
  lemma {:induction false} KeepMembers(xs: seq<Hit>, others: seq<Hit>, x: Hit)
    ensures x in Keep(xs, others) <==> x in xs && NotSubsumed(x.start, x.end, others)
  {
    if xs != [] {
      KeepMembers(xs[..|xs| - 1], others, x);
      assert xs == xs[..|xs| - 1] + [xs[|xs| - 1]];
    }
  }

  /** A kept list is an order-preserving sub-list of the iterated list: `idx` gives the positions. */
  lemma {:induction false} KeepIsSublist(xs: seq<Hit>, others: seq<Hit>) returns (idx: seq<nat>)
    ensures |idx| == |Keep(xs, others)|
    ensures forall k :: 0 <= k < |idx| ==> idx[k] < |xs| && Keep(xs, others)[k] == xs[idx[k]]
    ensures forall k, l :: 0 <= k < l < |idx| ==> idx[k] < idx[l]
  {
    if xs == [] {
      idx := [];
    } else {
      var n := |xs| - 1;
      idx := KeepIsSublist(xs[..n], others);
      if NotSubsumed(xs[n].start, xs[n].end, others) {
        idx := idx + [n];
      }
    }
  }

  /** The comparison list of the first block: the attenuators list after its 14 appends. */
  function GrownAttenuators(raw: Lists): seq<Hit>
  {
    raw.attenuators + raw.Tail()
  }

  /**
   * What block k (k >= 2) appends to the amplifiers list: the grown attenuators
   * list, then the raw lists of the other categories from the continuators on,
   * in parameter order, with the block's own category left out and, in the
   * emotion blocks, the stops list written in the own category's place.
   */
  function Appendix(raw: Lists, k: nat): seq<Hit>
    requires 2 <= k < 16
  {
    var t1 := GrownAttenuators(raw);
    var c := raw.continuators;
    var l := raw.leftflips;
    var n := raw.neutrals;
    var o := raw.objectives;
    var r := raw.rightflips;
    var s := raw.stops;
    var j := raw.joy;
    var sa := raw.sadness;
    var f := raw.fear;
    var an := raw.anger;
    var tr := raw.trust;
    var d := raw.disgust;
    var su := raw.surprise;
    var at := raw.anticipation;
    match k
    case 2 => t1 + l + n + o + r + s + j + sa + f + an + tr + d + su + at
    case 3 => t1 + c + n + o + r + s + j + sa + f + an + tr + d + su + at
    case 4 => t1 + c + l + o + r + s + j + sa + f + an + tr + d + su + at
    case 5 => t1 + c + l + n + r + s + j + sa + f + an + tr + d + su + at
    case 6 => t1 + c + l + n + o + s + j + sa + f + an + tr + d + su + at
    case 7 => t1 + c + l + n + o + r + j + sa + f + an + tr + d + su + at
    case 8 => t1 + c + l + n + o + r + s + sa + f + an + tr + d + su + at
    case 9 => t1 + c + l + n + o + r + j + s + f + an + tr + d + su + at
    case 10 => t1 + c + l + n + o + r + j + sa + s + an + tr + d + su + at
    case 11 => t1 + c + l + n + o + r + j + sa + f + s + tr + d + su + at
    case 12 => t1 + c + l + n + o + r + j + sa + f + an + s + d + su + at
    case 13 => t1 + c + l + n + o + r + j + sa + f + an + tr + s + su + at
    case 14 => t1 + c + l + n + o + r + j + sa + f + an + tr + d + s + at
    case 15 => t1 + c + l + n + o + r + j + sa + f + an + tr + d + su + s
  }

  /**
   * The comparison list of block k, in block order. Block 0 (amplifiers)
   * compares against the grown attenuators list; block 1 appends the fourteen
   * later categories to the amplifiers list, and every later block appends
   * its Appendix to that same list, so block k sees the amplifiers list after
   * k rounds of appends.
   */
  function Cmp(raw: Lists, k: nat): seq<Hit>
    requires k < 16
  {
    if k == 0 then GrownAttenuators(raw)
    else if k == 1 then raw.amplifiers + raw.Tail()
    else Cmp(raw, k - 1) + Appendix(raw, k)
  }

  /** The amplifiers list as the filter leaves it: grown by the appends of blocks 1 to 15. */
  function GrownAmplifiers(raw: Lists): seq<Hit>
  {
    Cmp(raw, 15)
  }

  /** What removeSubsumed returns: each category's iterated list, filtered against its block's comparison list. */
  function Filtered(raw: Lists): Lists
  {
    Lists(
      Keep(raw.amplifiers, Cmp(raw, 0)), Keep(GrownAttenuators(raw), Cmp(raw, 1)),
      Keep(raw.continuators, Cmp(raw, 2)), Keep(raw.leftflips, Cmp(raw, 3)),
      Keep(raw.neutrals, Cmp(raw, 4)), Keep(raw.objectives, Cmp(raw, 5)),
      Keep(raw.rightflips, Cmp(raw, 6)), Keep(raw.stops, Cmp(raw, 7)),
      Keep(raw.joy, Cmp(raw, 8)), Keep(raw.sadness, Cmp(raw, 9)),
      Keep(raw.fear, Cmp(raw, 10)), Keep(raw.anger, Cmp(raw, 11)),
      Keep(raw.trust, Cmp(raw, 12)), Keep(raw.disgust, Cmp(raw, 13)),
      Keep(raw.surprise, Cmp(raw, 14)), Keep(raw.anticipation, Cmp(raw, 15)))
  }

  /** The list a block iterates: its own argument, except that block 1 iterates the grown attenuators list. */
  function Iterated(raw: Lists, c: Category): seq<Hit>
  {
    if c == Attenuators then GrownAttenuators(raw) else raw.Get(c)
  }

  /**
   * removeSubsumed: sixteen filtering blocks; the amplifiers and attenuators
   * lists are extended in place, and their final contents are returned beside
   * the filtered lists.
   */
  method RemoveSubsumed(raw: Lists) returns (filtered: Lists, amplifiersAfter: seq<Hit>, attenuatorsAfter: seq<Hit>)
    ensures filtered == Filtered(raw)
    ensures amplifiersAfter == GrownAmplifiers(raw) && attenuatorsAfter == GrownAttenuators(raw)
  {
    var amplifierPatterns, attenuatorPatterns := raw.amplifiers, raw.attenuators;
    var c := raw.continuators;
    var l := raw.leftflips;
    var n := raw.neutrals;
    var o := raw.objectives;
    var r := raw.rightflips;
    var s := raw.stops;
    var j := raw.joy;
    var sa := raw.sadness;
    var f := raw.fear;
    var an := raw.anger;
    var tr := raw.trust;
    var d := raw.disgust;
    var su := raw.surprise;
    var at := raw.anticipation;

    attenuatorPatterns := attenuatorPatterns + (c + l + n + o + r + s + j + sa + f + an + tr + d + su + at);
    assert attenuatorPatterns == Cmp(raw, 0);
    var newAmplifiers := KeepNotSubsumed(amplifierPatterns, attenuatorPatterns);

    amplifierPatterns := amplifierPatterns + (c + l + n + o + r + s + j + sa + f + an + tr + d + su + at);
    assert amplifierPatterns == Cmp(raw, 1);
    var newAttenuators := KeepNotSubsumed(attenuatorPatterns, amplifierPatterns);

    amplifierPatterns := amplifierPatterns + (attenuatorPatterns + l + n + o + r + s + j + sa + f + an + tr + d + su + at);
    assert amplifierPatterns == Cmp(raw, 2);
    var newContinuators := KeepNotSubsumed(c, amplifierPatterns);

    amplifierPatterns := amplifierPatterns + (attenuatorPatterns + c + n + o + r + s + j + sa + f + an + tr + d + su + at);
    assert amplifierPatterns == Cmp(raw, 3);
    var newLeftflips := KeepNotSubsumed(l, amplifierPatterns);

    amplifierPatterns := amplifierPatterns + (attenuatorPatterns + c + l + o + r + s + j + sa + f + an + tr + d + su + at);
    assert amplifierPatterns == Cmp(raw, 4);
    var newNeutrals := KeepNotSubsumed(n, amplifierPatterns);

    amplifierPatterns := amplifierPatterns + (attenuatorPatterns + c + l + n + r + s + j + sa + f + an + tr + d + su + at);
    assert amplifierPatterns == Cmp(raw, 5);
    var newObjectives := KeepNotSubsumed(o, amplifierPatterns);

    amplifierPatterns := amplifierPatterns + (attenuatorPatterns + c + l + n + o + s + j + sa + f + an + tr + d + su + at);
    assert amplifierPatterns == Cmp(raw, 6);
    var newRightflips := KeepNotSubsumed(r, amplifierPatterns);

    amplifierPatterns := amplifierPatterns + (attenuatorPatterns + c + l + n + o + r + j + sa + f + an + tr + d + su + at);
    assert amplifierPatterns == Cmp(raw, 7);
    var newStops := KeepNotSubsumed(s, amplifierPatterns);

    amplifierPatterns := amplifierPatterns + (attenuatorPatterns + c + l + n + o + r + s + sa + f + an + tr + d + su + at);
    assert amplifierPatterns == Cmp(raw, 8);
    var newJoy := KeepNotSubsumed(j, amplifierPatterns);

    amplifierPatterns := amplifierPatterns + (attenuatorPatterns + c + l + n + o + r + j + s + f + an + tr + d + su + at);
    assert amplifierPatterns == Cmp(raw, 9);
    var newSadness := KeepNotSubsumed(sa, amplifierPatterns);

    amplifierPatterns := amplifierPatterns + (attenuatorPatterns + c + l + n + o + r + j + sa + s + an + tr + d + su + at);
    assert amplifierPatterns == Cmp(raw, 10);
    var newFear := KeepNotSubsumed(f, amplifierPatterns);

    amplifierPatterns := amplifierPatterns + (attenuatorPatterns + c + l + n + o + r + j + sa + f + s + tr + d + su + at);
    assert amplifierPatterns == Cmp(raw, 11);
    var newAnger := KeepNotSubsumed(an, amplifierPatterns);

    amplifierPatterns := amplifierPatterns + (attenuatorPatterns + c + l + n + o + r + j + sa + f + an + s + d + su + at);
    assert amplifierPatterns == Cmp(raw, 12);
    var newTrust := KeepNotSubsumed(tr, amplifierPatterns);

    amplifierPatterns := amplifierPatterns + (attenuatorPatterns + c + l + n + o + r + j + sa + f + an + tr + s + su + at);
    assert amplifierPatterns == Cmp(raw, 13);
    var newDisgust := KeepNotSubsumed(d, amplifierPatterns);

    amplifierPatterns := amplifierPatterns + (attenuatorPatterns + c + l + n + o + r + j + sa + f + an + tr + d + s + at);
    assert amplifierPatterns == Cmp(raw, 14);
    var newSurprise := KeepNotSubsumed(su, amplifierPatterns);

    amplifierPatterns := amplifierPatterns + (attenuatorPatterns + c + l + n + o + r + j + sa + f + an + tr + d + su + s);
    assert amplifierPatterns == Cmp(raw, 15);
    var newAnticipation := KeepNotSubsumed(at, amplifierPatterns);

    filtered := Lists(newAmplifiers, newAttenuators, newContinuators, newLeftflips, newNeutrals,
      newObjectives, newRightflips, newStops, newJoy, newSadness, newFear, newAnger, newTrust,
      newDisgust, newSurprise, newAnticipation);
    amplifiersAfter, attenuatorsAfter := amplifierPatterns, attenuatorPatterns;
  }

  /** NotSubsumed depends only on which hits a list holds. */
  lemma NotSubsumedSameMembers(start: int, end: int, a: seq<Hit>, b: seq<Hit>)
    requires forall y :: y in a <==> y in b
    ensures NotSubsumed(start, end, a) <==> NotSubsumed(start, end, b)
  {
  }

  /** Every appendix holds only hits of the sixteen categories. */
  lemma AppendixWithinAll(raw: Lists, k: nat, y: Hit)
    requires 2 <= k < 16 && y in Appendix(raw, k)
    ensures y in raw.All()
  {
    if k < 9 {
      EarlyAppendixWithinAll(raw, k, y);
    } else {
      LateAppendixWithinAll(raw, k, y);
    }
  }

  /** The appendices of the blocks for continuators to joy. */
  lemma EarlyAppendixWithinAll(raw: Lists, k: nat, y: Hit)
    requires 2 <= k < 9 && y in Appendix(raw, k)
    ensures y in raw.All()
  {
  }

  /** The appendices of the blocks for sadness to anticipation. */
  lemma LateAppendixWithinAll(raw: Lists, k: nat, y: Hit)
    requires 9 <= k < 16 && y in Appendix(raw, k)
    ensures y in raw.All()
  {
  }

  /** Every comparison list from block 2 on holds exactly the hits of all sixteen categories. */
  lemma {:induction false} ComparisonsCoverAll(raw: Lists, k: nat, y: Hit)
    requires 2 <= k < 16
    ensures y in Cmp(raw, k) <==> y in raw.All()
    decreases k
  {
    if k == 2 {
      assert y in raw.All() <==> y in raw.amplifiers + raw.Tail() || y in raw.attenuators;
    } else {
      ComparisonsCoverAll(raw, k - 1, y);
      if y in Appendix(raw, k) {
        AppendixWithinAll(raw, k, y);
      }
    }
  }

  /** The grown amplifiers list holds exactly the hits of all sixteen categories. */
  lemma GrownAmplifiersIsAll(raw: Lists, y: Hit)
    ensures y in GrownAmplifiers(raw) <==> y in raw.All()
  {
    ComparisonsCoverAll(raw, 15, y);
  }

  /** An amplifier survives iff no attenuator and no hit of the fourteen later categories strictly contains it. */
  lemma FilteredAmplifiers(raw: Lists, h: Hit)
    ensures h in Filtered(raw).amplifiers <==>
      h in raw.amplifiers && NotSubsumed(h.start, h.end, raw.attenuators + raw.Tail())
  {
    KeepMembers(raw.amplifiers, Cmp(raw, 0), h);
  }

  /**
   * Block 1 iterates the grown attenuators list, so hits of the fourteen later
   * categories reach the attenuators output unless an amplifier or another
   * later-category hit strictly contains them.
   */
  lemma FilteredAttenuators(raw: Lists, h: Hit)
    ensures h in Filtered(raw).attenuators <==>
      (h in raw.attenuators || h in raw.Tail()) && NotSubsumed(h.start, h.end, raw.amplifiers + raw.Tail())
  {
    KeepMembers(GrownAttenuators(raw), Cmp(raw, 1), h);
  }

  /** From the continuators on, a hit survives iff no hit of any category strictly contains it. */
  lemma FilteredLater(raw: Lists, c: Category, h: Hit)
    requires c != Amplifiers && c != Attenuators
    ensures h in Filtered(raw).Get(c) <==> h in raw.Get(c) && NotSubsumed(h.start, h.end, raw.All())
  {
    var k := CategoryIndex(c);
    assert Filtered(raw).Get(c) == Keep(raw.Get(c), Cmp(raw, k));
    KeepMembers(raw.Get(c), Cmp(raw, k), h);
    forall y ensures y in Cmp(raw, k) <==> y in raw.All() {
      ComparisonsCoverAll(raw, k, y);
    }
    NotSubsumedSameMembers(h.start, h.end, Cmp(raw, k), raw.All());
  }

  /** Filtering adds no new hits: every surviving hit was matched in some category. */
  lemma FilteredWithinAll(raw: Lists, c: Category, h: Hit)
    ensures h in Filtered(raw).Get(c) ==> h in raw.All()
  {
    if c == Amplifiers {
      FilteredAmplifiers(raw, h);
    } else if c == Attenuators {
      FilteredAttenuators(raw, h);
    } else {
      FilteredLater(raw, c, h);
    }
  }

  /** A hit of the concatenation of all lists belongs to one of the sixteen categories. */
  lemma CategoryOf(raw: Lists, h: Hit) returns (c: Category)
    requires h in raw.All()
    ensures h in raw.Get(c)
  {
    if h in raw.amplifiers {
      c := Amplifiers;
    } else if h in raw.attenuators {
      c := Attenuators;
    } else if h in raw.continuators {
      c := Continuators;
    } else if h in raw.leftflips {
      c := Leftflips;
    } else if h in raw.neutrals {
      c := Neutrals;
    } else if h in raw.objectives {
      c := Objectives;
    } else if h in raw.rightflips {
      c := Rightflips;
    } else if h in raw.stops {
      c := Stops;
    } else if h in raw.joy {
      c := Joy;
    } else if h in raw.sadness {
      c := Sadness;
    } else if h in raw.fear {
      c := Fear;
    } else if h in raw.anger {
      c := Anger;
    } else if h in raw.trust {
      c := Trust;
    } else if h in raw.disgust {
      c := Disgust;
    } else if h in raw.surprise {
      c := Surprise;
    } else {
      c := Anticipation;
    }
  }
}
