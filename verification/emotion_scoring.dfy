/**
 * The scoring stages of the four-axis emotion engine (the body of
 * RBEMEmotion.classify after pattern matching and filtering).
 *
 * Emissions live in a 4 x n array, one row per axis in the order joySadness,
 * fearAnger, trustDisgust, surpriseAnticipation. Every stage walks outwards
 * from the centre of each of its matches, one distance j at a time, and stops
 * walking in a direction after it has processed a stop position. The decay
 * factor e^(-j) is a parameter `decay`; IsDecay states what the model relies
 * on about it.
 */
module EmotionScoring {
  import opened Wrappers
  import opened EmotionMatch
  import opened EmotionSubsumption

  const Axes: seq<string> := ["joySadness", "fearAnger", "trustDisgust", "surpriseAnticipation"]

  /** What the model assumes of the decay: e^0 = 1 and 0 < e^(-j) < 1 beyond the centre. */
  ghost predicate IsDecay(decay: nat -> real)
  {
    decay(0) == 1.0 && forall j: nat :: j >= 1 ==> 0.0 < decay(j) < 1.0
  }

  function Max(a: int, b: int): int { if a >= b then a else b }
  function Min(a: int, b: int): int { if a <= b then a else b }

  /** The centre of a match: the floor of the mean of its start and end. */
  function Center(h: Hit): int
  {
    (h.start + h.end) / 2
  }

  /** Every match of a list has its centre inside a sentence of length n. */
  predicate Centred(hits: seq<Hit>, n: nat)
  {
    forall h :: h in hits ==> 0 <= Center(h) < n
  }

  // ----- Stops and continuators -----

  /** The start positions of a list of matches. */
  function Starts(hs: seq<Hit>): set<int>
  {
    if hs == [] then {} else Starts(hs[..|hs| - 1]) + {hs[|hs| - 1].start}
  }

  /** A position is in Starts(hs) exactly when some match of hs starts there. */
  lemma {:induction false} StartsMembers(hs: seq<Hit>, p: int)
    ensures p in Starts(hs) <==> exists h :: h in hs && h.start == p
  {
    if hs != [] {
      var init := hs[..|hs| - 1];
      StartsMembers(init, p);
      assert hs == init + [hs[|hs| - 1]];
      if exists h :: h in hs && h.start == p {
        var h :| h in hs && h.start == p;
        if h != hs[|hs| - 1] {
          assert h in init;
        }
      }
    }
  }

  /** The stop table: a key for the start of every filtered leftflip and stop match. */
  method DeriveStops(leftflips: seq<Hit>, stopHits: seq<Hit>) returns (stops: set<int>)
    ensures stops == Starts(leftflips + stopHits)
  {
    var all := leftflips + stopHits;
    stops := {};
    var i := 0;
    while i < |leftflips|
      invariant 0 <= i <= |leftflips|
      invariant stops == Starts(all[..i])
    {
      assert all[..i + 1][..i] == all[..i];
      stops := stops + {leftflips[i].start};
      i := i + 1;
    }
    i := 0;
    while i < |stopHits|
      invariant 0 <= i <= |stopHits|
      invariant stops == Starts(all[..|leftflips| + i])
    {
      assert all[..|leftflips| + i + 1][..|leftflips| + i] == all[..|leftflips| + i];
      stops := stops + {stopHits[i].start};
      i := i + 1;
    }
    assert all[..|all|] == all;
  }

  /** A stop a continuator at `s` may remove: strictly left of it, not negative, and within range. */
  predicate Removable(p: int, s: int, range: int)
  {
    p < s && p > -1 && p > s - range
  }

  /** The largest removable stop, if any. */
  predicate Nearest(stops: set<int>, p: int, s: int, range: int)
  {
    p in stops && Removable(p, s, range) && forall q :: q in stops && Removable(q, s, range) ==> q <= p
  }

  /** The stop table after one continuator at `s`. */
  function AfterContinuator(stops: set<int>, s: int, range: int): set<int>
  {
    stops - set p | p in stops && Nearest(stops, p, s, range)
  }

  /** The stop table after every continuator, in list order: later ones see earlier removals. */
  function AfterContinuators(stops: set<int>, cs: seq<Hit>, range: int): set<int>
  {
    if cs == [] then stops
    else AfterContinuator(AfterContinuators(stops, cs[..|cs| - 1], range), cs[|cs| - 1].start, range)
  }

  /** A finite set of integers that is not empty has a largest element. */
  lemma {:induction false} HasLargest(xs: set<int>) returns (m: int)
    requires xs != {}
    ensures m in xs
    ensures forall q :: q in xs ==> q <= m
    decreases |xs|
  {
    var x := Pick(xs);
    if xs == {x} {
      m := x;
    } else {
      var rest := xs - {x};
      var m' := HasLargest(rest);
      m := if x >= m' then x else m';
      forall q | q in xs ensures q <= m {
        if q != x {
          assert q in rest;
        }
      }
    }
  }

  /**
   * One continuator removes at most one stop, the largest removable one, and
   * removes it whenever a removable stop exists; every other stop stays.
   */
  lemma ContinuatorRemovesNearest(stops: set<int>, s: int, range: int)
    ensures AfterContinuator(stops, s, range) <= stops
    ensures forall p :: p in stops - AfterContinuator(stops, s, range) ==> Nearest(stops, p, s, range)
    ensures forall p :: p in stops && !Nearest(stops, p, s, range) ==> p in AfterContinuator(stops, s, range)
    ensures |stops - AfterContinuator(stops, s, range)| <= 1
    ensures (exists q :: q in stops && Removable(q, s, range)) ==>
              |stops - AfterContinuator(stops, s, range)| == 1
  {
    var removed := set p | p in stops && Nearest(stops, p, s, range);
    assert stops - AfterContinuator(stops, s, range) == removed;
    if removed != {} {
      var p :| p in removed;
      assert removed == {p};
    }
    if exists q :: q in stops && Removable(q, s, range) {
      var candidates := set q | q in stops && Removable(q, s, range);
      var q0 :| q0 in stops && Removable(q0, s, range);
      assert q0 in candidates;
      var m := HasLargest(candidates);
      assert Nearest(stops, m, s, range) by {
        forall q | q in stops && Removable(q, s, range) ensures q <= m {
          assert q in candidates;
        }
      }
      assert m in removed;
      assert removed == {m};
    }
  }

  /** Continuators: each one removes the stop closest to its left within range, if any. */
  method ApplyContinuators(stops0: set<int>, continuators: seq<Hit>, range: int) returns (stops: set<int>)
    ensures stops == AfterContinuators(stops0, continuators, range)
  {
    stops := stops0;
    var i := 0;
    while i < |continuators|
      invariant 0 <= i <= |continuators|
      invariant stops == AfterContinuators(stops0, continuators[..i], range)
    {
      assert continuators[..i + 1][..i] == continuators[..i];
      stops := RemoveNearest(stops, continuators[i].start, range);
      i := i + 1;
    }
    assert continuators[..|continuators|] == continuators;
  }

  /** One continuator at `start`: a scan of the table for the largest removable stop, then its removal. */
  method RemoveNearest(stops0: set<int>, start: int, range: int) returns (stops: set<int>)
    ensures stops == AfterContinuator(stops0, start, range)
  {
    var maxPos := -1;
    var removeStop := false;
    var todo := stops0;
    while todo != {}
      invariant todo <= stops0
      invariant removeStop ==> maxPos in stops0 - todo && Removable(maxPos, start, range)
      invariant !removeStop ==> maxPos == -1
      invariant forall q :: q in stops0 - todo && Removable(q, start, range) ==> removeStop && q <= maxPos
      decreases |todo|
    {
      ghost var some := Pick(todo);
      var position :| position in todo;
      if position < start && position > maxPos && position > start - range {
        maxPos := position;
        removeStop := true;
      }
      todo := todo - {position};
    }
    ghost var removed := set p | p in stops0 && Nearest(stops0, p, start, range);
    if removeStop {
      assert removed == {maxPos};
      stops := stops0 - {maxPos};
    } else {
      assert removed == {};
      stops := stops0;
    }
  }

  // ----- Stop-gated walks -----

  /**
   * What a stage does at a reached position: an emotion adds (or subtracts)
   * the decay on its own axis; objectives zero all axes; amplifiers,
   * attenuators and leftflips scale all axes; rightflips negate them.
   */
  datatype Effect = Emit(axis: nat, positive: bool) | Cancel | Amplify | Attenuate | RightFlip | LeftFlip

  /** Rightflips walk only rightwards (from the centre on), leftflips only leftwards. */
  predicate GoesLeft(e: Effect) { !e.RightFlip? }
  predicate GoesRight(e: Effect) { !e.LeftFlip? }

  /** The effect at distance j on axis a. */
  function Apply(e: Effect, a: nat, v: real, j: nat, decay: nat -> real): real
  {
    match e
    case Emit(axis, positive) =>
      if a != axis then v else if positive then v + decay(j) else v - decay(j)
    case Cancel => 0.0
    case Amplify => v * (1.0 + decay(j))
    case Attenuate => v * (1.0 - decay(j))
    case RightFlip => v * -1.0
    case LeftFlip => v * (1.0 - decay(j))
  }

  /** One walk: an effect applied around one centre up to a largest distance. */
  datatype Walk = Walk(effect: Effect, center: int, bound: int)

  /** What every walk of one sentence shares: its length, the stop table and the decay. */
  datatype Frame = Frame(n: nat, stops: set<int>, decay: nat -> real)

  /**
   * The largest distance of a walk: as far as the sentence reaches for emotions
   * and objectives, and at most `range` for the modifiers and flips.
   */
  function Bound(e: Effect, center: int, n: nat, range: int): int
  {
    var reach := Max(center, n - center - 1);
    if e.Emit? || e.Cancel? then reach else Min(range, reach)
  }

  /** The walk of a stage's effect around one match. */
  function WalkOf(e: Effect, h: Hit, n: nat, range: int): Walk
  {
    Walk(e, Center(h), Bound(e, Center(h), n, range))
  }

  /** No stop lies in [center - j + 1, center]: leftwards, distances 0 .. j-1 were not stops. */
  predicate LeftOpen(stops: set<int>, center: int, j: int)
  {
    forall p :: p in stops ==> !(center - j < p <= center)
  }

  /** No stop lies in [center, center + j - 1]. */
  predicate RightOpen(stops: set<int>, center: int, j: int)
  {
    forall p :: p in stops ==> !(center <= p < center + j)
  }

  /** Position x, left of the centre, is reached by the walk. */
  predicate LeftReached(w: Walk, fr: Frame, x: int)
  {
    GoesLeft(w.effect) && 0 <= x < w.center && w.center - x <= w.bound && w.center - x < fr.n
    && LeftOpen(fr.stops, w.center, w.center - x)
  }

  /** Position x, at or right of the centre, is reached by the walk. */
  predicate RightReached(w: Walk, fr: Frame, x: int)
  {
    GoesRight(w.effect) && w.center <= x < fr.n && x - w.center <= w.bound
    && RightOpen(fr.stops, w.center, x - w.center)
  }

  /** The value at (a, x) after the walk, given the value `v` before it. */
  function Touch(w: Walk, fr: Frame, a: nat, x: int, v: real): real
  {
    if LeftReached(w, fr, x) then Apply(w.effect, a, v, w.center - x, fr.decay)
    else if RightReached(w, fr, x) then Apply(w.effect, a, v, x - w.center, fr.decay)
    else v
  }

  /** Four rows of n emissions. */
  predicate Shaped(rows: seq<seq<real>>, n: nat)
  {
    |rows| == 4 && forall a :: 0 <= a < 4 ==> |rows[a]| == n
  }

  /** The emission rows after one walk. */
  function WalkRows(rows: seq<seq<real>>, w: Walk, fr: Frame): (r: seq<seq<real>>)
    requires Shaped(rows, fr.n)
    ensures Shaped(r, fr.n)
    ensures forall a, x :: 0 <= a < 4 && 0 <= x < fr.n ==> r[a][x] == Touch(w, fr, a, x, rows[a][x])
  {
    seq(4, a requires 0 <= a < 4 =>
      seq(fr.n, x requires 0 <= x < fr.n => Touch(w, fr, a, x, rows[a][x])))
  }

  /** The emission rows after walking around every match of a stage, in list order. */
  function StageRows(rows: seq<seq<real>>, e: Effect, hits: seq<Hit>, fr: Frame, range: int): (r: seq<seq<real>>)
    requires Shaped(rows, fr.n)
    ensures Shaped(r, fr.n)
  {
    if hits == [] then rows
    else
      var last := hits[|hits| - 1];
      WalkRows(StageRows(rows, e, hits[..|hits| - 1], fr, range), WalkOf(e, last, fr.n, range), fr)
  }

  /** All-zero rows: every axis array starts at 0.0. */
  function Zeros(n: nat): (r: seq<seq<real>>)
    ensures Shaped(r, n)
    ensures forall a, x :: 0 <= a < 4 && 0 <= x < n ==> r[a][x] == 0.0
  {
    seq(4, a => seq(n, x => 0.0))
  }

  /** The eight emotion stages, joy to anticipation, on the given rows. */
  function EmotionRows(rows: seq<seq<real>>, f: Lists, fr: Frame, range: int): (r: seq<seq<real>>)
    requires Shaped(rows, fr.n)
    ensures Shaped(r, fr.n)
  {
    var r1 := StageRows(rows, Emit(0, true), f.joy, fr, range);
    var r2 := StageRows(r1, Emit(0, false), f.sadness, fr, range);
    var r3 := StageRows(r2, Emit(1, true), f.fear, fr, range);
    var r4 := StageRows(r3, Emit(1, false), f.anger, fr, range);
    var r5 := StageRows(r4, Emit(2, true), f.trust, fr, range);
    var r6 := StageRows(r5, Emit(2, false), f.disgust, fr, range);
    var r7 := StageRows(r6, Emit(3, true), f.surprise, fr, range);
    StageRows(r7, Emit(3, false), f.anticipation, fr, range)
  }

  /** The five modifier stages: objectives, amplifiers, attenuators, rightflips, leftflips. */
  function ModifierRows(rows: seq<seq<real>>, f: Lists, fr: Frame, range: int): (r: seq<seq<real>>)
    requires Shaped(rows, fr.n)
    ensures Shaped(r, fr.n)
  {
    var r1 := StageRows(rows, Cancel, f.objectives, fr, range);
    var r2 := StageRows(r1, Amplify, f.amplifiers, fr, range);
    var r3 := StageRows(r2, Attenuate, f.attenuators, fr, range);
    var r4 := StageRows(r3, RightFlip, f.rightflips, fr, range);
    StageRows(r4, LeftFlip, f.leftflips, fr, range)
  }

  /**
   * The emissions of a sentence of length n: the eight emotion stages on
   * all-zero rows, then the five modifier stages.
   */
  function Emissions(f: Lists, fr: Frame, range: int): (r: seq<seq<real>>)
    ensures Shaped(r, fr.n)
  {
    ModifierRows(EmotionRows(Zeros(fr.n), f, fr, range), f, fr, range)
  }

  // ----- Properties of one walk -----

  /**
   * A direction is closed only after its stop has been processed: the first
   * stop to the right of the centre is itself reached, nothing beyond it is.
   */
  lemma RightStopIsLastReached(w: Walk, fr: Frame, k: int, x: int)
    requires 0 <= k && w.center + k in fr.stops
    ensures w.center + k < x ==> !RightReached(w, fr, x)
    ensures GoesRight(w.effect) && w.center + k < fr.n && k <= w.bound && RightOpen(fr.stops, w.center, k)
            ==> RightReached(w, fr, w.center + k)
  {
  }

  /** The same leftwards: the first stop left of the centre is reached, nothing beyond it is. */
  lemma LeftStopIsLastReached(w: Walk, fr: Frame, k: int, x: int)
    requires 0 <= k && w.center - k in fr.stops
    ensures x < w.center - k ==> !LeftReached(w, fr, x)
    ensures GoesLeft(w.effect) && 0 < k <= w.bound && 0 <= w.center - k && k < fr.n && LeftOpen(fr.stops, w.center, k)
            ==> LeftReached(w, fr, w.center - k)
  {
  }

  /** When the centre itself is a stop, a walk changes only the centre, and a leftflip changes nothing. */
  lemma CentreStop(w: Walk, fr: Frame, a: nat, x: int, v: real)
    requires w.center in fr.stops
    ensures x != w.center ==> Touch(w, fr, a, x, v) == v
    ensures w.effect == LeftFlip ==> Touch(w, fr, a, x, v) == v
  {
    assert !LeftReached(w, fr, x);
  }

  /** Objectives set every axis of every reached position to exactly 0. */
  lemma CancelZeroes(w: Walk, fr: Frame, a: nat, x: int, v: real)
    requires w.effect == Cancel
    requires LeftReached(w, fr, x) || RightReached(w, fr, x)
    ensures Touch(w, fr, a, x, v) == 0.0
  {
  }

  /** Amplifiers, attenuators and flips touch only positions within `range` of the centre. */
  lemma ModifiersStayInRange(e: Effect, h: Hit, fr: Frame, range: int, a: nat, x: int, v: real)
    requires !e.Emit? && !e.Cancel?
    requires x < Center(h) - range || Center(h) + range < x
    ensures Touch(WalkOf(e, h, fr.n, range), fr, a, x, v) == v
  {
  }

  /** A rightflip negates the centre itself, on every axis. */
  lemma RightFlipNegatesCentre(h: Hit, fr: Frame, range: int, a: nat, v: real)
    requires 0 <= Center(h) < fr.n && range >= 0
    ensures Touch(WalkOf(RightFlip, h, fr.n, range), fr, a, Center(h), v) == -v
  {
  }

  /**
   * An attenuator multiplies its own centre by 1 - e^0 = 0: since the
   * attenuators list also holds the matches of every later category, each
   * such match's centre ends at zero on all axes.
   */
  lemma AttenuatorZeroesCentre(h: Hit, fr: Frame, range: int, a: nat, v: real)
    requires IsDecay(fr.decay)
    requires 0 <= Center(h) < fr.n && range >= 0
    ensures Touch(WalkOf(Attenuate, h, fr.n, range), fr, a, Center(h), v) == 0.0
  {
  }

  /** An emotion walk changes only its own axis. */
  lemma EmitKeepsOtherAxes(w: Walk, fr: Frame, a: nat, x: int, v: real)
    requires w.effect.Emit? && a != w.effect.axis
    ensures Touch(w, fr, a, x, v) == v
  {
  }

  // ----- The walks on the emission array -----

  /** The emission array read as four rows. */
  ghost function Rows(em: array2<real>): (r: seq<seq<real>>)
    requires em.Length0 == 4
    reads em
    ensures Shaped(r, em.Length1)
    ensures forall a, x :: 0 <= a < 4 && 0 <= x < em.Length1 ==> r[a][x] == em[a, x]
  {
    seq(4, a requires 0 <= a < 4 reads em =>
      seq(em.Length1, x requires 0 <= x < em.Length1 reads em => em[a, x]))
  }

  /** Rows that agree everywhere are equal. */
  lemma RowsEqual(r1: seq<seq<real>>, r2: seq<seq<real>>, n: nat)
    requires Shaped(r1, n) && Shaped(r2, n)
    requires forall a, x :: 0 <= a < 4 && 0 <= x < n ==> r1[a][x] == r2[a][x]
    ensures r1 == r2
  {
    forall a | 0 <= a < 4 ensures r1[a] == r2[a] {
    }
  }

  /** Applies an effect at distance j to column x, on every axis (or the emotion's own axis). */
  method UpdateColumn(em: array2<real>, e: Effect, x: int, j: nat, decay: nat -> real)
    requires em.Length0 == 4 && 0 <= x < em.Length1
    modifies em
    ensures forall a, y :: 0 <= a < 4 && 0 <= y < em.Length1 ==>
              em[a, y] == if y == x then Apply(e, a, old(em[a, y]), j, decay) else old(em[a, y])
  {
    if e.Emit? {
      if e.axis < 4 {
        em[e.axis, x] := Apply(e, e.axis, em[e.axis, x], j, decay);
      }
    } else {
      for a := 0 to 4
        invariant forall b, y :: 0 <= b < 4 && 0 <= y < em.Length1 ==>
                    em[b, y] == if y == x && b < a then Apply(e, b, old(em[b, y]), j, decay) else old(em[b, y])
      {
        em[a, x] := Apply(e, a, em[a, x], j, decay);
      }
    }
  }

  /** Position x has been processed once the walk has gone through distances 0 .. j-1. */
  predicate Processed(center: int, x: int, j: int)
  {
    (x < center && center - x < j) || (center <= x && x - center < j)
  }

  /**
   * One walk: distance j = 0 .. bound, emitting left (j > 0) and right while
   * the direction is open, and closing a direction after processing a stop.
   */
  method RunWalk(em: array2<real>, w: Walk, fr: Frame)
    requires em.Length0 == 4 && em.Length1 == fr.n
    requires 0 <= w.center < fr.n
    modifies em
    ensures forall a, x :: 0 <= a < 4 && 0 <= x < fr.n ==> em[a, x] == Touch(w, fr, a, x, old(em[a, x]))
  {
    var goLeft, goRight := GoesLeft(w.effect), GoesRight(w.effect);
    var j := 0;
    while j <= w.bound
      invariant 0 <= j && (j == 0 || j <= w.bound + 1)
      invariant goLeft <==> GoesLeft(w.effect) && LeftOpen(fr.stops, w.center, j)
      invariant goRight <==> GoesRight(w.effect) && RightOpen(fr.stops, w.center, j)
      invariant forall a, x :: 0 <= a < 4 && 0 <= x < fr.n ==>
                  em[a, x] == if Processed(w.center, x, j) then Touch(w, fr, a, x, old(em[a, x])) else old(em[a, x])
    {
      if goLeft && j != 0 && w.center - j >= 0 && j < em.Length1 {
        UpdateColumn(em, w.effect, w.center - j, j, fr.decay);
      }
      if goRight && w.center + j < em.Length1 {
        UpdateColumn(em, w.effect, w.center + j, j, fr.decay);
      }
      if w.center - j in fr.stops {
        goLeft := false;
      }
      if w.center + j in fr.stops {
        goRight := false;
      }
      j := j + 1;
    }
  }

  /** One stage: a walk around the centre of every match, in list order. */
  method RunStage(em: array2<real>, e: Effect, hits: seq<Hit>, fr: Frame, range: int)
    requires em.Length0 == 4 && em.Length1 == fr.n
    requires forall h :: h in hits ==> 0 <= Center(h) < fr.n
    modifies em
    ensures Rows(em) == StageRows(old(Rows(em)), e, hits, fr, range)
  {
    ghost var start := Rows(em);
    var i := 0;
    while i < |hits|
      invariant 0 <= i <= |hits|
      invariant Rows(em) == StageRows(start, e, hits[..i], fr, range)
    {
      ghost var before := Rows(em);
      RunWalk(em, WalkOf(e, hits[i], fr.n, range), fr);
      assert hits[..i + 1][..i] == hits[..i];
      RowsEqual(Rows(em), WalkRows(before, WalkOf(e, hits[i], fr.n, range), fr), fr.n);
      i := i + 1;
    }
    assert hits[..|hits|] == hits;
  }

  /** Four axis arrays of n emissions, every one 0.0. */
  method ZeroEmissions(n: nat) returns (em: array2<real>)
    ensures fresh(em) && em.Length0 == 4 && em.Length1 == n
    ensures Rows(em) == Zeros(n)
  {
    em := new real[4, n];
    for a := 0 to 4
      invariant forall b, x :: 0 <= b < a && 0 <= x < n ==> em[b, x] == 0.0
    {
      for x := 0 to n
        invariant forall b, y :: 0 <= b < a && 0 <= y < n ==> em[b, y] == 0.0
        invariant forall y :: 0 <= y < x ==> em[a, y] == 0.0
      {
        em[a, x] := 0.0;
      }
    }
    RowsEqual(Rows(em), Zeros(n), n);
  }

  /** The thirteen stages in classify's order, starting from all-zero arrays. */
  method EmitAll(em: array2<real>, f: Lists, fr: Frame, range: int)
    requires em.Length0 == 4 && em.Length1 == fr.n
    requires Rows(em) == Zeros(fr.n)
    requires forall c :: Centred(f.Get(c), fr.n)
    modifies em
    ensures Rows(em) == Emissions(f, fr, range)
  {
    CentredEmotions(f, fr.n);
    CentredModifiers(f, fr.n);
    EmitEmotions(em, f, fr, range);
    ghost var mid := EmotionRows(Zeros(fr.n), f, fr, range);
    assert Rows(em) == mid;
    EmitModifiers(em, f, fr, range);
    assert Rows(em) == ModifierRows(mid, f, fr, range);
  }

  /** The emotion lists of centred matches, field by field. */
  lemma CentredEmotions(f: Lists, n: nat)
    requires forall c :: Centred(f.Get(c), n)
    ensures Centred(f.joy, n) && Centred(f.sadness, n) && Centred(f.fear, n) && Centred(f.anger, n)
    ensures Centred(f.trust, n) && Centred(f.disgust, n) && Centred(f.surprise, n) && Centred(f.anticipation, n)
  {
    assert f.Get(Joy) == f.joy && f.Get(Sadness) == f.sadness;
    assert f.Get(Fear) == f.fear && f.Get(Anger) == f.anger;
    assert f.Get(Trust) == f.trust && f.Get(Disgust) == f.disgust;
    assert f.Get(Surprise) == f.surprise && f.Get(Anticipation) == f.anticipation;
  }

  /** The modifier lists of centred matches, field by field. */
  lemma CentredModifiers(f: Lists, n: nat)
    requires forall c :: Centred(f.Get(c), n)
    ensures Centred(f.objectives, n) && Centred(f.amplifiers, n) && Centred(f.attenuators, n)
    ensures Centred(f.rightflips, n) && Centred(f.leftflips, n)
  {
    assert f.Get(Objectives) == f.objectives && f.Get(Amplifiers) == f.amplifiers;
    assert f.Get(Attenuators) == f.attenuators && f.Get(Rightflips) == f.rightflips;
    assert f.Get(Leftflips) == f.leftflips;
  }

  /** The eight emotion stages on the arrays as they are. */
  method EmitEmotions(em: array2<real>, f: Lists, fr: Frame, range: int)
    requires em.Length0 == 4 && em.Length1 == fr.n
    requires Centred(f.joy, fr.n) && Centred(f.sadness, fr.n) && Centred(f.fear, fr.n) && Centred(f.anger, fr.n)
    requires Centred(f.trust, fr.n) && Centred(f.disgust, fr.n) && Centred(f.surprise, fr.n) && Centred(f.anticipation, fr.n)
    modifies em
    ensures Rows(em) == EmotionRows(old(Rows(em)), f, fr, range)
  {
    RunStage(em, Emit(0, true), f.joy, fr, range);
    RunStage(em, Emit(0, false), f.sadness, fr, range);
    RunStage(em, Emit(1, true), f.fear, fr, range);
    RunStage(em, Emit(1, false), f.anger, fr, range);
    RunStage(em, Emit(2, true), f.trust, fr, range);
    RunStage(em, Emit(2, false), f.disgust, fr, range);
    RunStage(em, Emit(3, true), f.surprise, fr, range);
    RunStage(em, Emit(3, false), f.anticipation, fr, range);
  }

  /** The five modifier stages on the arrays as they are. */
  method EmitModifiers(em: array2<real>, f: Lists, fr: Frame, range: int)
    requires em.Length0 == 4 && em.Length1 == fr.n
    requires Centred(f.objectives, fr.n) && Centred(f.amplifiers, fr.n) && Centred(f.attenuators, fr.n)
    requires Centred(f.rightflips, fr.n) && Centred(f.leftflips, fr.n)
    modifies em
    ensures Rows(em) == ModifierRows(old(Rows(em)), f, fr, range)
  {
    RunStage(em, Cancel, f.objectives, fr, range);
    RunStage(em, Amplify, f.amplifiers, fr, range);
    RunStage(em, Attenuate, f.attenuators, fr, range);
    RunStage(em, RightFlip, f.rightflips, fr, range);
    RunStage(em, LeftFlip, f.leftflips, fr, range);
  }

  // ----- Scores -----

  /** The sum of a row. */
  function Sum(row: seq<real>): real
  {
    if row == [] then 0.0 else Sum(row[..|row| - 1]) + row[|row| - 1]
  }

  function Abs(x: real): real { if x < 0.0 then -x else x }

  /** The largest magnitude among the scores, starting from 0.0. */
  function MaxAbs(scores: seq<real>): (m: real)
    ensures m >= 0.0
    ensures forall i :: 0 <= i < |scores| ==> Abs(scores[i]) <= m
    ensures m == 0.0 || exists i :: 0 <= i < |scores| && Abs(scores[i]) == m
  {
    if scores == [] then 0.0
    else
      var m := MaxAbs(scores[..|scores| - 1]);
      if Abs(scores[|scores| - 1]) > m then Abs(scores[|scores| - 1]) else m
  }

  /** The four axis scores, divided by the largest magnitude when normalising and it is not 0. */
  function Normalized(scores: seq<real>, normalize: bool): (r: seq<real>)
    ensures |r| == |scores|
  {
    var m := MaxAbs(scores);
    if normalize && m != 0.0 then seq(|scores|, i requires 0 <= i < |scores| => scores[i] / m) else scores
  }

  /** The result map: axis name to score. */
  function ScoreMap(scores: seq<real>): (r: map<string, real>)
    requires |scores| == 4
    ensures r.Keys == set a | a in Axes
    ensures forall i :: 0 <= i < 4 ==> r[Axes[i]] == scores[i]
  {
    map[Axes[0] := scores[0], Axes[1] := scores[1], Axes[2] := scores[2], Axes[3] := scores[3]]
  }

  /** The result of scoring a set of emission rows. */
  function Scores(rows: seq<seq<real>>, normalize: bool): (r: map<string, real>)
    requires |rows| == 4
    ensures r.Keys == set a | a in Axes
  {
    ScoreMap(Normalized([Sum(rows[0]), Sum(rows[1]), Sum(rows[2]), Sum(rows[3])], normalize))
  }

  /**
   * Normalisation: every score lies in [-1, 1] and the score of largest
   * magnitude becomes exactly 1 or -1; without it (or when every score is 0)
   * the scores are returned unscaled.
   */
  lemma NormalizedBounds(scores: seq<real>, normalize: bool)
    ensures normalize && MaxAbs(scores) != 0.0 ==>
              (forall i :: 0 <= i < |scores| ==> -1.0 <= Normalized(scores, normalize)[i] <= 1.0)
              && exists i :: 0 <= i < |scores| && Abs(Normalized(scores, normalize)[i]) == 1.0
    ensures !normalize || MaxAbs(scores) == 0.0 ==> Normalized(scores, normalize) == scores
  {
    var m := MaxAbs(scores);
    if normalize && m != 0.0 {
      var r := Normalized(scores, normalize);
      assert forall i :: 0 <= i < |scores| ==> r[i] == scores[i] / m;
      forall i | 0 <= i < |scores| ensures -1.0 <= r[i] <= 1.0 {
        DivideBounded(scores[i], m);
      }
      var k :| 0 <= k < |scores| && Abs(scores[k]) == m;
      DivideBounded(scores[k], m);
      assert Abs(r[k]) == 1.0;
    }
  }

  /** Dividing by a bound of the magnitude lands in [-1, 1], and on +-1 at the bound. */
  lemma DivideBounded(x: real, m: real)
    requires m > 0.0 && Abs(x) <= m
    ensures -1.0 <= x / m <= 1.0
    ensures Abs(x) == m ==> Abs(x / m) == 1.0
  {
    if x >= 0.0 {
      assert x / m <= m / m;
    } else {
      assert -x / m <= m / m;
    }
  }

  /** The sum of one axis array, left to right. */
  method SumRow(em: array2<real>, a: int) returns (score: real)
    requires em.Length0 == 4 && 0 <= a < 4
    ensures score == Sum(Rows(em)[a])
  {
    ghost var row := Rows(em)[a];
    score := 0.0;
    for x := 0 to em.Length1
      invariant score == Sum(row[..x])
    {
      assert row[..x + 1][..x] == row[..x];
      score := score + em[a, x];
    }
    assert row[..em.Length1] == row;
  }

  /** The four axis sums and the largest magnitude among them. */
  method AxisScores(em: array2<real>) returns (sums: seq<real>, maxScore: real)
    requires em.Length0 == 4
    ensures sums == [Sum(Rows(em)[0]), Sum(Rows(em)[1]), Sum(Rows(em)[2]), Sum(Rows(em)[3])]
    ensures maxScore == MaxAbs(sums)
  {
    ghost var rows := Rows(em);
    sums := [];
    maxScore := 0.0;
    for a := 0 to 4
      invariant sums == AxisSums(rows, a)
      invariant maxScore == MaxAbs(sums)
    {
      sums, maxScore := AddAxis(em, sums, maxScore, a);
    }
  }

  /** The sums of the first k rows. */
  ghost function AxisSums(rows: seq<seq<real>>, k: nat): (r: seq<real>)
    requires k <= |rows|
    ensures |r| == k
    ensures forall b :: 0 <= b < k ==> r[b] == Sum(rows[b])
  {
    if k == 0 then [] else AxisSums(rows, k - 1) + [Sum(rows[k - 1])]
  }

  /** One axis: its sum is added to the scores and the largest magnitude kept up to date. */
  method AddAxis(em: array2<real>, sums: seq<real>, maxScore: real, a: int) returns (sums': seq<real>, maxScore': real)
    requires em.Length0 == 4 && 0 <= a < 4
    requires maxScore == MaxAbs(sums)
    ensures sums' == sums + [Sum(Rows(em)[a])]
    ensures maxScore' == MaxAbs(sums')
  {
    var score := SumRow(em, a);
    MaxAbsAppend(sums, score);
    sums' := sums + [score];
    maxScore' := maxScore;
    if Abs(score) > maxScore {
      maxScore' := Abs(score);
    }
  }

  /** Taking one more score into account raises the largest magnitude to it, or keeps it. */
  lemma MaxAbsAppend(scores: seq<real>, x: real)
    ensures MaxAbs(scores + [x]) == if Abs(x) > MaxAbs(scores) then Abs(x) else MaxAbs(scores)
  {
    assert (scores + [x])[..|scores|] == scores;
  }

  /** Sums the four emission rows and normalises them when asked. */
  method Aggregate(em: array2<real>, normalize: bool) returns (scores: map<string, real>)
    requires em.Length0 == 4
    ensures scores == Scores(Rows(em), normalize)
  {
    var sums, maxScore := AxisScores(em);
    Scale(sums, normalize, maxScore);
    if normalize && maxScore != 0.0 {
      sums := [sums[0] / maxScore, sums[1] / maxScore, sums[2] / maxScore, sums[3] / maxScore];
    }
    scores := ScoreMap(sums);
  }

  /** The normalised scores written out for four axes. */
  lemma Scale(sums: seq<real>, normalize: bool, maxScore: real)
    requires |sums| == 4 && maxScore == MaxAbs(sums)
    ensures Normalized(sums, normalize) ==
      if normalize && maxScore != 0.0 then [sums[0] / maxScore, sums[1] / maxScore, sums[2] / maxScore, sums[3] / maxScore]
      else sums
  {
  }

  /**
   * With normalisation, every axis score lies in [-1, 1] and, unless every
   * sum is zero, one axis scores exactly 1 or -1; without it, each axis
   * scores the plain sum of its row.
   */
  lemma ScoresBounded(rows: seq<seq<real>>, normalize: bool)
    requires |rows| == 4
    ensures normalize ==> forall a :: a in Axes ==> -1.0 <= Scores(rows, normalize)[a] <= 1.0
    ensures normalize && (exists k :: 0 <= k < 4 && Sum(rows[k]) != 0.0) ==>
              exists a :: a in Axes && Abs(Scores(rows, normalize)[a]) == 1.0
    ensures !normalize ==> forall k :: 0 <= k < 4 ==> Scores(rows, normalize)[Axes[k]] == Sum(rows[k])
  {
    var sums := [Sum(rows[0]), Sum(rows[1]), Sum(rows[2]), Sum(rows[3])];
    NormalizedBounds(sums, normalize);
    if normalize {
      NormalizedScoresBounded(rows);
    }
  }

  /** The normalised half of ScoresBounded. */
  lemma NormalizedScoresBounded(rows: seq<seq<real>>)
    requires |rows| == 4
    ensures forall a :: a in Axes ==> -1.0 <= Scores(rows, true)[a] <= 1.0
    ensures (exists k :: 0 <= k < 4 && Sum(rows[k]) != 0.0) ==> exists a :: a in Axes && Abs(Scores(rows, true)[a]) == 1.0
  {
    var sums := [Sum(rows[0]), Sum(rows[1]), Sum(rows[2]), Sum(rows[3])];
    NormalizedBounds(sums, true);
    forall a | a in Axes ensures -1.0 <= Scores(rows, true)[a] <= 1.0 {
      var k := AxisIndex(a);
      ScoreAt(rows, k);
      if MaxAbs(sums) == 0.0 {
        ZeroMaxBounded(sums, k);
      }
    }
    if exists k :: 0 <= k < 4 && Sum(rows[k]) != 0.0 {
      var k :| 0 <= k < 4 && Sum(rows[k]) != 0.0;
      assert Abs(sums[k]) > 0.0;
      var i :| 0 <= i < 4 && Abs(Normalized(sums, true)[i]) == 1.0;
      ScoreAt(rows, i);
      assert Axes[i] in Axes;
    }
  }

  /** The normalised score of axis k is the k-th normalised sum. */
  lemma ScoreAt(rows: seq<seq<real>>, k: int)
    requires |rows| == 4 && 0 <= k < 4
    ensures Scores(rows, true)[Axes[k]] == Normalized([Sum(rows[0]), Sum(rows[1]), Sum(rows[2]), Sum(rows[3])], true)[k]
  {
  }

  /** The position of an axis name among the four. */
  lemma AxisIndex(a: string) returns (k: int)
    requires a in Axes
    ensures 0 <= k < 4 && Axes[k] == a
  {
    k :| 0 <= k < 4 && Axes[k] == a;
  }

  /** When the largest magnitude is 0, every score is 0. */
  lemma ZeroMaxBounded(sums: seq<real>, k: int)
    requires 0 <= k < |sums| && MaxAbs(sums) == 0.0
    ensures sums[k] == 0.0
  {
    assert Abs(sums[k]) <= 0.0;
  }

}
