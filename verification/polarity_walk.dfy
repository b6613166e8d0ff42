/**
 * The scoring walks of the polarity engine (EmissionMiner::polarizeSentence):
 * the stop and continue tables, the emission of positive and negative
 * matches, amplifiers and attenuators, right- and leftflips, and the sum,
 * the largest magnitude and the label of a sentence.
 *
 * A walk starts at a match's centre, rounded down (`lo`) for the leftward
 * direction and rounded up (`hi`) for the rightward one, and visits the
 * distances j = first, first + 1, ... one at a time. Each direction stays
 * open until a stop has been visited in it.
 */
module PolarityWalk {
  import opened Wrappers
  import opened PolarityMatch
  import opened PolaritySubsumption
  import opened PolarityLexicon
  import opened PolarityScan
  import EmotionScoring

  /** What a walk does at each position it visits. */
  datatype Effect = Emit(sign: real) | Amplify | Attenuate | RightFlip | LeftFlip

  /** What every walk of a sentence reads: the stop and continue tables and the decay e^(-j). */
  datatype Tables = Tables(stops: set<int>, continues: set<int>, decay: nat -> real)

  /** The state of one walk: the emissions and whether each direction is still open. */
  datatype Walker = Walker(em: seq<real>, goLeft: bool, goRight: bool)

  /** A product, named so that the solver treats scaled emissions as whole terms. */
  function Times(x: real, factor: real): real
  {
    x * factor
  }

  /** An amplifier or attenuator at distance j, with factor `factor`. */
  function Scale(w: Walker, lo: int, hi: int, j: nat, factor: real, tb: Tables): (r: Walker)
    requires 0 <= lo <= hi < |w.em|
    ensures |r.em| == |w.em|
  {
    var left := lo - j;
    var right := hi + j;
    var em1 := if left >= 0 && w.goLeft then w.em[left := Times(w.em[left], factor)] else w.em;
    var em2 := if right < |w.em| && (j != 0 || hi != lo) && w.goRight then em1[right := Times(em1[right], factor)] else em1;
    Walker(em2, w.goLeft && left !in tb.stops, w.goRight && right !in tb.stops)
  }

  /**
   * The walk's visit at distance j. An emission adds sign * e^(-j) leftwards
   * and rightwards, doubled at a continue; the doubled value is the one the
   * right side then starts from. At j = 0 the right side is skipped when the
   * centre is a whole position, which the left side has already covered.
   */
  function Step(w: Walker, e: Effect, lo: int, hi: int, j: nat, tb: Tables): (r: Walker)
    requires 0 <= lo <= hi < |w.em|
    ensures |r.em| == |w.em|
  {
    var left := lo - j;
    var right := hi + j;
    match e
    case Emit(sign) =>
      var leftOn := left >= 0 && w.goLeft;
      var v1 := if leftOn && left in tb.continues then 2.0 * Times(sign, tb.decay(j)) else Times(sign, tb.decay(j));
      var em1 := if leftOn then w.em[left := w.em[left] + v1] else w.em;
      var rightOn := right < |w.em| && (j != 0 || hi != lo) && w.goRight;
      var v2 := if rightOn && right in tb.continues then 2.0 * v1 else v1;
      var em2 := if rightOn then em1[right := em1[right] + v2] else em1;
      Walker(em2, w.goLeft && left !in tb.stops, w.goRight && right !in tb.stops)
    case Amplify => Scale(w, lo, hi, j, 1.0 + tb.decay(j), tb)
    case Attenuate => Scale(w, lo, hi, j, 1.0 - tb.decay(j), tb)
    case RightFlip =>
      var em1 := if right < |w.em| && w.goRight then w.em[right := -w.em[right]] else w.em;
      Walker(em1, w.goLeft, w.goRight && !(right in tb.stops && j > 0))
    case LeftFlip =>
      var em1 := if left >= 0 && w.goLeft then w.em[left := -w.em[left]] else w.em;
      Walker(em1, w.goLeft && !(left in tb.stops && j > 0), w.goRight)
  }

  /** The walk's visits at distances from .. upto - 1, in order. */
  function Walk(w: Walker, e: Effect, lo: int, hi: int, from: nat, upto: int, tb: Tables): (r: Walker)
    requires 0 <= lo <= hi < |w.em|
    ensures |r.em| == |w.em|
    decreases upto - from
  {
    if upto <= from then w else Step(Walk(w, e, lo, hi, from, upto - 1, tb), e, lo, hi, upto - 1, tb)
  }

  /** Amplifiers and attenuators start one position away from the centre; the others at it. */
  function FirstStep(e: Effect): nat
  {
    if e.Amplify? || e.Attenuate? then 1 else 0
  }

  /** Emissions walk the whole sentence length; the others up to distance `range`. */
  function EndStep(e: Effect, n: int, range: int): int
  {
    if e.Emit? then n else range + 1
  }

  /** A match's centre, rounded down and up, lies inside a sentence of length n. */
  predicate Inside(f: Found, n: int)
  {
    0 <= Lo(f) <= Hi(f) < n
  }

  /** Every match of a list lies inside a sentence of length n. */
  predicate Placed(fs: seq<Found>, n: int)
  {
    forall f :: f in fs ==> Inside(f, n)
  }

  /** Every match the scan keeps lies inside the sentence. */
  lemma ScanPlaced(hay: Index, sentence: seq<Member>, range: int)
    ensures Placed(ScanTo(hay, sentence, range, |sentence|).0, |sentence|)
  {
    var ms := ScanTo(hay, sentence, range, |sentence|).0;
    forall f | f in ms ensures Inside(f, |sentence|) {
      var a :| 0 <= a < |ms| && ms[a] == f;
      ScanKept(hay, sentence, range, |sentence|, a);
      MatchShape(sentence, f.pattern, f.start, range);
    }
  }

  /** The emissions after one match's walk, both directions open at the start. */
  function WalkFound(em: seq<real>, e: Effect, f: Found, tb: Tables, range: int): (r: seq<real>)
    requires Inside(f, |em|)
    ensures |r| == |em|
  {
    Walk(Walker(em, true, true), e, Lo(f), Hi(f), FirstStep(e), EndStep(e, |em|, range), tb).em
  }

  /** The key of a match's first member; PHP's null member gives the empty key. */
  function FirstMemberKey(p: Pattern): string
  {
    if p == [] then "" else p[0].0 + p[0].1
  }

  /** A match takes part when its first member's key survived subsumption as the first member of its pattern. */
  predicate Active(f: Found, idx: HashIndex)
  {
    FirstMemberKey(f.pattern) in idx && idx[FirstMemberKey(f.pattern)].first == 1
  }

  /** The emissions after the walks of every active match of a list, in order. */
  function Stage(em: seq<real>, e: Effect, fs: seq<Found>, idx: HashIndex, tb: Tables, range: int): (r: seq<real>)
    requires Placed(fs, |em|)
    ensures |r| == |em|
  {
    if fs == [] then em
    else
      var prev := Stage(em, e, fs[..|fs| - 1], idx, tb, range);
      var f := fs[|fs| - 1];
      if Active(f, idx) then WalkFound(prev, e, f, tb, range) else prev
  }

  /** A sentence's emissions before any walk. */
  function Zeros(n: nat): (r: seq<real>)
    ensures |r| == n
  {
    seq(n, _ => 0.0)
  }

  /** A stage whose matches are all inactive changes nothing. */
  lemma {:induction false} StageIdle(em: seq<real>, e: Effect, fs: seq<Found>, idx: HashIndex, tb: Tables, range: int)
    requires Placed(fs, |em|)
    requires forall f :: f in fs ==> !Active(f, idx)
    ensures Stage(em, e, fs, idx, tb, range) == em
  {
    if fs != [] {
      StageIdle(em, e, fs[..|fs| - 1], idx, tb, range);
    }
  }

  /** Scaling or flipping a zero emission leaves it zero. */
  lemma StepKeepsZeros(w: Walker, e: Effect, lo: int, hi: int, j: nat, tb: Tables)
    requires 0 <= lo <= hi < |w.em| && !e.Emit? && w.em == Zeros(|w.em|)
    ensures Step(w, e, lo, hi, j, tb).em == w.em
  {
    var r := Step(w, e, lo, hi, j, tb);
    forall i | 0 <= i < |w.em| ensures r.em[i] == 0.0 {
      assert Times(0.0, 1.0 + tb.decay(j)) == 0.0 && Times(0.0, 1.0 - tb.decay(j)) == 0.0;
    }
  }

  /** The same for a whole walk. */
  lemma {:induction false} WalkKeepsZeros(w: Walker, e: Effect, lo: int, hi: int, from: nat, upto: int, tb: Tables)
    requires 0 <= lo <= hi < |w.em| && !e.Emit? && w.em == Zeros(|w.em|)
    ensures Walk(w, e, lo, hi, from, upto, tb).em == w.em
    decreases upto - from
  {
    if upto > from {
      WalkKeepsZeros(w, e, lo, hi, from, upto - 1, tb);
      StepKeepsZeros(Walk(w, e, lo, hi, from, upto - 1, tb), e, lo, hi, upto - 1, tb);
    }
  }

  /**
   * Amplifiers, attenuators and flips only act on emissions already there:
   * a stage of them on a sentence without emissions leaves it without.
   */
  lemma {:induction false} StageKeepsZeros(n: nat, e: Effect, fs: seq<Found>, idx: HashIndex, tb: Tables, range: int)
    requires Placed(fs, n) && !e.Emit?
    ensures Stage(Zeros(n), e, fs, idx, tb, range) == Zeros(n)
  {
    if fs != [] {
      StageKeepsZeros(n, e, fs[..|fs| - 1], idx, tb, range);
      var f := fs[|fs| - 1];
      if Active(f, idx) {
        assert f in fs && Inside(f, n);
        WalkKeepsZeros(Walker(Zeros(n), true, true), e, Lo(f), Hi(f), FirstStep(e), EndStep(e, n, range), tb);
      }
    }
  }

  // ----- Stops and continues -----

  /** The starts of the active matches of a list. */
  function ActiveStarts(fs: seq<Found>, idx: HashIndex): set<int>
  {
    if fs == [] then {}
    else ActiveStarts(fs[..|fs| - 1], idx) + if Active(fs[|fs| - 1], idx) then {fs[|fs| - 1].start} else {}
  }

  /**
   * The stop and continue tables after the continuators: each active one
   * removes the nearest stop left of it within range and records its start.
   */
  function Continued(stops: set<int>, continues: set<int>, fs: seq<Found>, idx: HashIndex, range: int): (set<int>, set<int>)
  {
    if fs == [] then (stops, continues)
    else
      var prev := Continued(stops, continues, fs[..|fs| - 1], idx, range);
      var f := fs[|fs| - 1];
      if Active(f, idx) then (EmotionScoring.AfterContinuator(prev.0, f.start, range), prev.1 + {f.start}) else prev
  }

  /** A position is a start of an active match exactly when some active match of the list starts there. */
  lemma {:induction false} ActiveStartsMembers(fs: seq<Found>, idx: HashIndex, p: int)
    ensures p in ActiveStarts(fs, idx) <==> exists f :: f in fs && Active(f, idx) && f.start == p
  {
    if fs != [] {
      var init := fs[..|fs| - 1];
      ActiveStartsMembers(init, idx, p);
      assert fs == init + [fs[|fs| - 1]];
      if exists f :: f in fs && Active(f, idx) && f.start == p {
        var f :| f in fs && Active(f, idx) && f.start == p;
        if f != fs[|fs| - 1] {
          assert f in init;
        }
      }
    }
  }

  /**
   * The continue table gains exactly the starts of the active continuators,
   * and the stop table only loses entries.
   */
  lemma {:induction false} ContinuedTables(stops: set<int>, continues: set<int>, fs: seq<Found>, idx: HashIndex, range: int)
    ensures Continued(stops, continues, fs, idx, range).1 == continues + ActiveStarts(fs, idx)
    ensures Continued(stops, continues, fs, idx, range).0 <= stops
  {
    if fs != [] {
      ContinuedTables(stops, continues, fs[..|fs| - 1], idx, range);
    }
  }

  /**
   * One active continuator at s removes at most one stop, the largest one
   * left of s, not negative and within range of s; every other stop stays.
   */
  lemma ContinuatorRemovesNearest(stops: set<int>, continues: set<int>, fs: seq<Found>, idx: HashIndex, range: int)
    requires fs != [] && Active(fs[|fs| - 1], idx)
    ensures var before := Continued(stops, continues, fs[..|fs| - 1], idx, range).0;
      var after := Continued(stops, continues, fs, idx, range).0;
      var s := fs[|fs| - 1].start;
      && after <= before
      && |before - after| <= 1
      && (forall p :: p in before - after ==> EmotionScoring.Nearest(before, p, s, range))
      && (forall p :: EmotionScoring.Nearest(before, p, s, range) ==> p !in after)
      && ((exists q :: q in before && EmotionScoring.Removable(q, s, range)) ==> |before - after| == 1)
  {
    var before := Continued(stops, continues, fs[..|fs| - 1], idx, range).0;
    EmotionScoring.ContinuatorRemovesNearest(before, fs[|fs| - 1].start, range);
  }

  // ----- What the walks reach -----

  /** No stop lies strictly between x and lo: a leftward walk from lo that started at 1 or skips lo's stop reaches x. */
  predicate LeftReach(stops: set<int>, lo: int, x: int)
  {
    forall p :: p in stops ==> !(x < p < lo)
  }

  /** No stop lies strictly between hi and x. */
  predicate RightReach(stops: set<int>, hi: int, x: int)
  {
    forall p :: p in stops ==> !(hi < p < x)
  }

  /** A rightflip keeps its direction open until it has visited a stop at j > 0. */
  lemma {:induction false} RightFlipOpen(em: seq<real>, goLeft: bool, lo: int, hi: int, upto: nat, tb: Tables)
    requires 0 <= lo <= hi < |em|
    ensures var r := Walk(Walker(em, goLeft, true), RightFlip, lo, hi, 0, upto, tb);
      r.goLeft == goLeft && r.goRight == RightReach(tb.stops, hi, hi + upto)
  {
    if upto > 0 {
      RightFlipOpen(em, goLeft, lo, hi, upto - 1, tb);
      if upto - 1 > 0 && hi + upto - 1 in tb.stops {
        assert !RightReach(tb.stops, hi, hi + upto);
      }
    }
  }

  /**
   * A rightflip negates ceil(centre) + j for j = 0, 1, ... up to the first
   * stop seen at j > 0, which is itself negated, and at most to the end of
   * the walk; every other position keeps its value.
   */
  lemma {:induction false} RightFlipReach(em: seq<real>, goLeft: bool, lo: int, hi: int, upto: nat, tb: Tables, x: int)
    requires 0 <= lo <= hi < |em| && 0 <= x < |em|
    ensures Walk(Walker(em, goLeft, true), RightFlip, lo, hi, 0, upto, tb).em[x] ==
      if hi <= x < hi + upto && RightReach(tb.stops, hi, x) then -em[x] else em[x]
  {
    if upto > 0 {
      var prev := Walk(Walker(em, goLeft, true), RightFlip, lo, hi, 0, upto - 1, tb);
      RightFlipReach(em, goLeft, lo, hi, upto - 1, tb, x);
      RightFlipOpen(em, goLeft, lo, hi, upto - 1, tb);
      if x == hi + upto - 1 {
        assert prev.em[x] == em[x];
      }
    }
  }

  /** A leftflip keeps its direction open until it has visited a stop at j > 0. */
  lemma {:induction false} LeftFlipOpen(em: seq<real>, goRight: bool, lo: int, hi: int, upto: nat, tb: Tables)
    requires 0 <= lo <= hi < |em|
    ensures var r := Walk(Walker(em, true, goRight), LeftFlip, lo, hi, 0, upto, tb);
      r.goRight == goRight && r.goLeft == LeftReach(tb.stops, lo, lo - upto)
  {
    if upto > 0 {
      LeftFlipOpen(em, goRight, lo, hi, upto - 1, tb);
      if upto - 1 > 0 && lo - upto + 1 in tb.stops {
        assert !LeftReach(tb.stops, lo, lo - upto);
      }
    }
  }

  /** A leftflip does the same leftwards from floor(centre). */
  lemma {:induction false} LeftFlipReach(em: seq<real>, goRight: bool, lo: int, hi: int, upto: nat, tb: Tables, x: int)
    requires 0 <= lo <= hi < |em| && 0 <= x < |em|
    ensures Walk(Walker(em, true, goRight), LeftFlip, lo, hi, 0, upto, tb).em[x] ==
      if lo - upto < x <= lo && LeftReach(tb.stops, lo, x) then -em[x] else em[x]
  {
    if upto > 0 {
      var prev := Walk(Walker(em, true, goRight), LeftFlip, lo, hi, 0, upto - 1, tb);
      LeftFlipReach(em, goRight, lo, hi, upto - 1, tb, x);
      LeftFlipOpen(em, goRight, lo, hi, upto - 1, tb);
      if x == lo - upto + 1 {
        assert prev.em[x] == em[x];
      }
    }
  }

  /** The factor of an amplifier or attenuator at distance j. */
  function Factor(e: Effect, j: nat, decay: nat -> real): real
  {
    if e.Amplify? then 1.0 + decay(j) else 1.0 - decay(j)
  }

  /** An amplifier or attenuator keeps each direction open until it has visited a stop in it. */
  lemma {:induction false} ScaleOpen(em: seq<real>, e: Effect, lo: int, hi: int, upto: nat, tb: Tables)
    requires e.Amplify? || e.Attenuate?
    requires 0 <= lo <= hi < |em| && upto >= 1
    ensures var r := Walk(Walker(em, true, true), e, lo, hi, 1, upto, tb);
      r.goLeft == LeftReach(tb.stops, lo, lo - upto) && r.goRight == RightReach(tb.stops, hi, hi + upto)
  {
    if upto > 1 {
      ScaleOpen(em, e, lo, hi, upto - 1, tb);
      if lo - upto + 1 in tb.stops {
        assert !LeftReach(tb.stops, lo, lo - upto);
      }
      if hi + upto - 1 in tb.stops {
        assert !RightReach(tb.stops, hi, hi + upto);
      }
    }
  }

  /**
   * An amplifier or attenuator multiplies floor(centre) - j and
   * ceil(centre) + j by 1 +- e^(-j) for 1 <= j < upto, each direction up to
   * and including its first stop; the centre itself and everything further
   * away keep their values.
   */
  lemma {:induction false} ScaleReach(em: seq<real>, e: Effect, lo: int, hi: int, upto: nat, tb: Tables, x: int)
    requires e.Amplify? || e.Attenuate?
    requires 0 <= lo <= hi < |em| && 0 <= x < |em| && upto >= 1
    ensures Walk(Walker(em, true, true), e, lo, hi, 1, upto, tb).em[x] ==
      if lo - upto < x < lo && LeftReach(tb.stops, lo, x) then Times(em[x], Factor(e, lo - x, tb.decay))
      else if hi < x < hi + upto && RightReach(tb.stops, hi, x) then Times(em[x], Factor(e, x - hi, tb.decay))
      else em[x]
  {
    if upto > 1 {
      var j := upto - 1;
      var prev := Walk(Walker(em, true, true), e, lo, hi, 1, j, tb);
      ScaleReach(em, e, lo, hi, j, tb, x);
      ScaleOpen(em, e, lo, hi, j, tb);
      assert Walk(Walker(em, true, true), e, lo, hi, 1, upto, tb) == Scale(prev, lo, hi, j, Factor(e, j, tb.decay), tb);
      if x == lo - j || x == hi + j {
        assert prev.em[x] == em[x];
      }
    }
  }

  /** No stop lies in (x, lo]: the emission walk checks lo itself. */
  predicate LeftOpen(stops: set<int>, lo: int, x: int)
  {
    forall p :: p in stops ==> !(x < p <= lo)
  }

  /** No stop lies in [hi, x). */
  predicate RightOpen(stops: set<int>, hi: int, x: int)
  {
    forall p :: p in stops ==> !(hi <= p < x)
  }

  /**
   * An emission walk changes a position only when it is within the walked
   * distance and no stop was visited on the way up to it: a stop is itself
   * reached, nothing beyond it is.
   */
  lemma {:induction false} EmitGated(em: seq<real>, sign: real, lo: int, hi: int, upto: nat, tb: Tables, x: int)
    requires 0 <= lo <= hi < |em| && 0 <= x < |em|
    ensures var r := Walk(Walker(em, true, true), Emit(sign), lo, hi, 0, upto, tb);
      && r.goLeft == LeftOpen(tb.stops, lo, lo - upto)
      && r.goRight == RightOpen(tb.stops, hi, hi + upto)
      && (r.em[x] != em[x] ==> (lo - upto < x <= lo && LeftOpen(tb.stops, lo, x)) || (hi <= x < hi + upto && RightOpen(tb.stops, hi, x)))
  {
    if upto > 0 {
      EmitGated(em, sign, lo, hi, upto - 1, tb, x);
      if lo - upto + 1 in tb.stops {
        assert !LeftOpen(tb.stops, lo, lo - upto);
      }
      if hi + upto - 1 in tb.stops {
        assert !RightOpen(tb.stops, hi, hi + upto);
      }
    }
  }

  /** When a whole-position centre is a stop, an emission walk changes only the centre. */
  lemma CentreStop(em: seq<real>, sign: real, c: int, upto: nat, tb: Tables, x: int)
    requires 0 <= c < |em| && 0 <= x < |em| && x != c && c in tb.stops
    ensures Walk(Walker(em, true, true), Emit(sign), c, c, 0, upto, tb).em[x] == em[x]
  {
    EmitGated(em, sign, c, c, upto, tb, x);
  }

  /**
   * A continue doubles an emission, and the doubling made on the left side
   * carries into the right side at the same distance: with continues on
   * both sides the right side receives four times sign * e^(-j).
   */
  lemma ContinueDoubles(w: Walker, sign: real, lo: int, hi: int, j: nat, tb: Tables)
    requires 0 <= lo <= hi < |w.em| && j > 0
    requires lo - j >= 0 && hi + j < |w.em| && w.goLeft && w.goRight
    requires lo - j in tb.continues && hi + j in tb.continues
    ensures Step(w, Emit(sign), lo, hi, j, tb).em[lo - j] == w.em[lo - j] + 2.0 * sign * tb.decay(j)
    ensures Step(w, Emit(sign), lo, hi, j, tb).em[hi + j] == w.em[hi + j] + 4.0 * sign * tb.decay(j)
  {
  }

  // ----- The walks on the emission array -----

  /** One visit of a walk, on the emission array. */
  method StepAt(em: array<real>, e: Effect, lo: int, hi: int, j: nat, tb: Tables, goLeft: bool, goRight: bool)
    returns (left: bool, right: bool)
    requires 0 <= lo <= hi < em.Length
    modifies em
    ensures Walker(em[..], left, right) == Step(Walker(old(em[..]), goLeft, goRight), e, lo, hi, j, tb)
  {
    var l := lo - j;
    var r := hi + j;
    left, right := goLeft, goRight;
    match e {
      case Emit(sign) =>
        left, right := EmitAt(em, sign, lo, hi, j, tb, goLeft, goRight);
      case Amplify =>
        left, right := ScaleAt(em, lo, hi, j, 1.0 + tb.decay(j), tb, goLeft, goRight);
      case Attenuate =>
        left, right := ScaleAt(em, lo, hi, j, 1.0 - tb.decay(j), tb, goLeft, goRight);
      case RightFlip =>
        if r < em.Length && goRight {
          em[r] := -em[r];
        }
        right := goRight && !(r in tb.stops && j > 0);
      case LeftFlip =>
        if l >= 0 && goLeft {
          em[l] := -em[l];
        }
        left := goLeft && !(l in tb.stops && j > 0);
    }
  }

  /** One visit of an emission walk, on the emission array. */
  method EmitAt(em: array<real>, sign: real, lo: int, hi: int, j: nat, tb: Tables, goLeft: bool, goRight: bool)
    returns (left: bool, right: bool)
    requires 0 <= lo <= hi < em.Length
    modifies em
    ensures Walker(em[..], left, right) == Step(Walker(old(em[..]), goLeft, goRight), Emit(sign), lo, hi, j, tb)
  {
    ghost var em0 := em[..];
    var l := lo - j;
    var r := hi + j;
    var v := Times(sign, tb.decay(j));
    if l >= 0 && goLeft {
      if l in tb.continues {
        v := 2.0 * v;
      }
      var x := em[l] + v;
      assert x == em0[l] + v;
      em[l] := x;
      assert em[..] == em0[l := x];
    }
    ghost var em1 := em[..];
    assert em1 == if l >= 0 && goLeft then em0[l := em0[l] + v] else em0;
    if r < em.Length && (j != 0 || hi != lo) && goRight {
      if r in tb.continues {
        v := 2.0 * v;
      }
      var x := em[r] + v;
      assert x == em1[r] + v;
      em[r] := x;
      assert em[..] == em1[r := x];
    }
    left, right := goLeft && l !in tb.stops, goRight && r !in tb.stops;
  }

  /** One visit of an amplifier or attenuator, on the emission array. */
  method ScaleAt(em: array<real>, lo: int, hi: int, j: nat, factor: real, tb: Tables, goLeft: bool, goRight: bool)
    returns (left: bool, right: bool)
    requires 0 <= lo <= hi < em.Length
    modifies em
    ensures Walker(em[..], left, right) == Scale(Walker(old(em[..]), goLeft, goRight), lo, hi, j, factor, tb)
  {
    ghost var em0 := em[..];
    var l := lo - j;
    var r := hi + j;
    if l >= 0 && goLeft {
      var x := Times(em[l], factor);
      em[l] := x;
      assert em[..] == em0[l := x];
    }
    ghost var em1 := em[..];
    if r < em.Length && (j != 0 || hi != lo) && goRight {
      var x := Times(em[r], factor);
      em[r] := x;
      assert em[..] == em1[r := x];
    }
    left, right := goLeft && l !in tb.stops, goRight && r !in tb.stops;
  }

  /** One match's walk, on the emission array. */
  method WalkAt(em: array<real>, e: Effect, f: Found, tb: Tables, range: int)
    requires Inside(f, em.Length)
    modifies em
    ensures em[..] == WalkFound(old(em[..]), e, f, tb, range)
  {
    ghost var em0 := em[..];
    var lo, hi := Lo(f), Hi(f);
    var goLeft, goRight := true, true;
    var j := FirstStep(e);
    var upto := EndStep(e, em.Length, range);
    while j < upto
      invariant FirstStep(e) <= j && (j <= upto || j == FirstStep(e))
      invariant Walker(em[..], goLeft, goRight) == Walk(Walker(em0, true, true), e, lo, hi, FirstStep(e), j, tb)
      decreases upto - j
    {
      goLeft, goRight := StepAt(em, e, lo, hi, j, tb, goLeft, goRight);
      j := j + 1;
    }
  }

  /** A stage: the walk of every active match of a list, in order; reports whether any match took part. */
  method RunStage(em: array<real>, e: Effect, fs: seq<Found>, idx: HashIndex, tb: Tables, range: int) returns (any: bool)
    requires Placed(fs, em.Length)
    modifies em
    ensures em[..] == Stage(old(em[..]), e, fs, idx, tb, range)
    ensures any <==> exists f :: f in fs && Active(f, idx)
  {
    ghost var em0 := em[..];
    any := false;
    for k := 0 to |fs|
      invariant em[..] == Stage(em0, e, fs[..k], idx, tb, range)
      invariant any <==> exists f :: f in fs[..k] && Active(f, idx)
    {
      assert fs[..k + 1] == fs[..k] + [fs[k]];
      assert fs[..k + 1][..k] == fs[..k];
      if Active(fs[k], idx) {
        any := true;
        WalkAt(em, e, fs[k], tb, range);
      }
    }
    assert fs[..|fs|] == fs;
  }

  /** The starts of the active matches of a list, added to a table. */
  method AddStops(stops0: set<int>, fs: seq<Found>, idx: HashIndex) returns (stops: set<int>)
    ensures stops == stops0 + ActiveStarts(fs, idx)
  {
    stops := stops0;
    for k := 0 to |fs|
      invariant stops == stops0 + ActiveStarts(fs[..k], idx)
    {
      assert fs[..k + 1][..k] == fs[..k];
      if Active(fs[k], idx) {
        stops := stops + {fs[k].start};
      }
    }
    assert fs[..|fs|] == fs;
  }

  /** The continuators, in order: each active one removes the nearest stop left of it and records its start. */
  method ApplyContinues(stops0: set<int>, fs: seq<Found>, idx: HashIndex, range: int) returns (stops: set<int>, continues: set<int>)
    ensures (stops, continues) == Continued(stops0, {}, fs, idx, range)
  {
    stops, continues := stops0, {};
    for k := 0 to |fs|
      invariant (stops, continues) == Continued(stops0, {}, fs[..k], idx, range)
    {
      assert fs[..k + 1][..k] == fs[..k];
      if Active(fs[k], idx) {
        var s := fs[k].start;
        var maxPos := -1;
        var removeStop := false;
        var todo := stops;
        while todo != {}
          invariant todo <= stops
          invariant removeStop ==> maxPos in stops && EmotionScoring.Removable(maxPos, s, range)
          invariant !removeStop ==> maxPos == -1
          invariant forall q :: q in stops - todo && EmotionScoring.Removable(q, s, range) ==> removeStop && q <= maxPos
          decreases todo
        {
          ghost var some := Pick(todo);
          var position :| position in todo;
          if position < s && position > maxPos && position > s - range {
            maxPos := position;
            removeStop := true;
          }
          todo := todo - {position};
        }
        continues := continues + {s};
        if removeStop {
          assert EmotionScoring.Nearest(stops, maxPos, s, range);
          stops := stops - {maxPos};
        }
        assert stops == EmotionScoring.AfterContinuator(Continued(stops0, {}, fs[..k], idx, range).0, s, range);
      }
    }
    assert fs[..|fs|] == fs;
  }

  // ----- The result -----

  /** The label of a sentence: the sign of its emission sum. */
  function Label(sentiment: real): (r: string)
  {
    if sentiment < 0.0 then "negative" else if sentiment > 0.0 then "positive" else "neutral"
  }

  /** The emissions divided by their largest magnitude, or all 0 when that is 0. */
  function Polarized(em: seq<real>, max: real): (r: seq<real>)
    ensures |r| == |em|
  {
    seq(|em|, i requires 0 <= i < |em| => if max != 0.0 then em[i] / max else 0.0)
  }

  /**
   * The normalised polarities lie in [-1, 1], the largest magnitudes become
   * exactly 1 or -1, and all are 0 when every emission is 0.
   */
  lemma PolarizedBounded(em: seq<real>)
    ensures forall i :: 0 <= i < |em| ==> -1.0 <= Polarized(em, EmotionScoring.MaxAbs(em))[i] <= 1.0
    ensures EmotionScoring.MaxAbs(em) == 0.0 ==> forall i :: 0 <= i < |em| ==> em[i] == 0.0 && Polarized(em, 0.0)[i] == 0.0
    ensures forall i :: 0 <= i < |em| && EmotionScoring.Abs(em[i]) == EmotionScoring.MaxAbs(em) && em[i] != 0.0 ==>
      EmotionScoring.Abs(Polarized(em, EmotionScoring.MaxAbs(em))[i]) == 1.0
  {
    var m := EmotionScoring.MaxAbs(em);
    forall i | 0 <= i < |em|
      ensures -1.0 <= Polarized(em, m)[i] <= 1.0
      ensures EmotionScoring.Abs(em[i]) == m && em[i] != 0.0 ==> EmotionScoring.Abs(Polarized(em, m)[i]) == 1.0
    {
      if m != 0.0 {
        EmotionScoring.DivideBounded(em[i], m);
      }
    }
  }

  /** The emission sum and the largest magnitude, in one pass. */
  method Totals(em: array<real>) returns (sentiment: real, max: real)
    ensures sentiment == EmotionScoring.Sum(em[..]) && max == EmotionScoring.MaxAbs(em[..])
  {
    sentiment, max := 0.0, 0.0;
    for i := 0 to em.Length
      invariant sentiment == EmotionScoring.Sum(em[..i]) && max == EmotionScoring.MaxAbs(em[..i])
    {
      assert em[..i + 1][..i] == em[..i];
      sentiment := sentiment + em[i];
      if EmotionScoring.Abs(em[i]) > max {
        max := EmotionScoring.Abs(em[i]);
      }
    }
    assert em[..em.Length] == em[..];
  }

  /** The normalised polarity of every position. */
  method PolarizeAll(em: array<real>, max: real) returns (polarized: seq<real>)
    ensures polarized == Polarized(em[..], max)
  {
    polarized := [];
    for i := 0 to em.Length
      invariant polarized == Polarized(em[..i], max)
    {
      polarized := polarized + [if max != 0.0 then em[i] / max else 0.0];
    }
    assert em[..em.Length] == em[..];
  }
}
