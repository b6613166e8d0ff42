/**
 * The pattern indexes of the polarity engine and pattern insertion
 * (EmissionMiner::addPattern).
 *
 * Each of the eight pattern types has an index that is an ordered PHP array
 * three levels deep: the key of the pattern's first member, then the pattern
 * length, then the full index (the keys of all members concatenated), and
 * finally the stored pattern. A member's key is its token trimmed and
 * lower-cased followed by its tag trimmed; the stored pattern keeps the tags
 * as given but has its tokens rewritten trimmed and lower-cased.
 */
module PolarityLexicon {
  import opened Wrappers
  import opened Text
  import opened Assoc
  import opened PolarityMatch

  type Group = Assoc<string, Pattern>
  type ByLength = Assoc<int, Group>
  type Index = Assoc<string, ByLength>

  /** The eight pattern types, in addPattern's order. */
  datatype PatternType = Positive | Negative | Amplifier | Attenuator | Rightflip | Leftflip | Continuator | Stop

  /** addPattern's chain of type tests: the type a name selects, if any. */
  function TypeOf(name: string): (t: Option<PatternType>)
    ensures t.Some? <==> name in {"positive", "negative", "amplifier", "attenuator", "rightflip", "leftflip", "continuator", "stop"}
  {
    if name == "positive" then Some(Positive)
    else if name == "negative" then Some(Negative)
    else if name == "amplifier" then Some(Amplifier)
    else if name == "attenuator" then Some(Attenuator)
    else if name == "rightflip" then Some(Rightflip)
    else if name == "leftflip" then Some(Leftflip)
    else if name == "continuator" then Some(Continuator)
    else if name == "stop" then Some(Stop)
    else None
  }

  /** The member as stored: token trimmed and lower-cased, tag as given. */
  function StoredMember(m: Member): Member
  {
    (PhpNormalize(m.0), m.1)
  }

  /** The key of one member: normalised token, then trimmed tag. */
  function MemberKey(m: Member): string
  {
    PhpNormalize(m.0) + PhpTrim(m.1)
  }

  /** The full index: the keys of all members, concatenated in order. */
  function FullIndex(p: Pattern): string
  {
    if p == [] then "" else FullIndex(p[..|p| - 1]) + MemberKey(p[|p| - 1])
  }

  /** The first index; PHP's never-assigned key of an empty pattern is the empty key. */
  function FirstKey(p: Pattern): string
  {
    if p == [] then "" else MemberKey(p[0])
  }

  /** PHP's empty(): the empty string and "0". */
  predicate EmptyToken(t: string)
  {
    t == "" || t == "0"
  }

  /** Patterns addPattern accepts without terminating the process. */
  predicate Accepted(p: Pattern)
  {
    forall i :: 0 <= i < |p| ==> !EmptyToken(PhpNormalize(p[i].0))
  }

  /** The three-level lookup; None when any level is missing. */
  function Lookup(ix: Index, key: string, len: int, full: string): Option<Pattern>
  {
    if Has(ix, key) then LookupLength(Get(ix, key), len, full) else None
  }

  function LookupLength(byLength: ByLength, len: int, full: string): Option<Pattern>
  {
    if Has(byLength, len) then LookupFull(Get(byLength, len), full) else None
  }

  function LookupFull(group: Group, full: string): Option<Pattern>
  {
    if Has(group, full) then Some(Get(group, full)) else None
  }

  /** No key repeats at any level. */
  ghost predicate IndexValid(ix: Index)
  {
    Unique(ix) && forall a :: 0 <= a < |ix| ==> LengthsValid(ix[a].1)
  }

  /** No key repeats in the middle level or in any of its groups. */
  ghost predicate LengthsValid(byLength: ByLength)
  {
    Unique(byLength) && forall b :: 0 <= b < |byLength| ==> Unique(byLength[b].1)
  }

  /** ix[key][len][full] = p, creating the inner arrays when they are missing. */
  function Insert(ix: Index, key: string, len: int, full: string, p: Pattern): Index
  {
    var byLength := if Has(ix, key) then Get(ix, key) else [];
    Put(ix, key, PutGroup(byLength, len, full, p))
  }

  /** The value under a key of a valid index is itself free of repeated keys. */
  lemma GetValid(ix: Index, key: string)
    requires IndexValid(ix) && Has(ix, key)
    ensures LengthsValid(Get(ix, key))
  {
    var a := Find(ix, key);
    assert Get(ix, key) == ix[a].1;
  }

  /** Insertion keeps every level free of repeated keys. */
  lemma InsertValid(ix: Index, key: string, len: int, full: string, p: Pattern)
    requires IndexValid(ix)
    ensures IndexValid(Insert(ix, key, len, full, p))
  {
    var byLength := if Has(ix, key) then Get(ix, key) else [];
    if Has(ix, key) {
      GetValid(ix, key);
    }
    GroupValid(byLength, len, full, p);
    var inner := PutGroup(byLength, len, full, p);
    var r := Put(ix, key, inner);
    assert r == Insert(ix, key, len, full, p);
    forall a | 0 <= a < |r| ensures LengthsValid(r[a].1) {
      if r[a].0 != key {
        assert r[a] == ix[a];
      } else {
        UniqueFind(r, key, a);
      }
    }
  }

  /** The middle level of an insertion: byLength[len][full] = p. */
  function PutGroup(byLength: ByLength, len: int, full: string, p: Pattern): ByLength
  {
    var group := if Has(byLength, len) then Get(byLength, len) else [];
    Put(byLength, len, Put(group, full, p))
  }

  /** The groups of the middle level stay free of repeated keys. */
  lemma GroupValid(byLength: ByLength, len: int, full: string, p: Pattern)
    requires LengthsValid(byLength)
    ensures LengthsValid(PutGroup(byLength, len, full, p))
  {
    var group := if Has(byLength, len) then Get(byLength, len) else [];
    if Has(byLength, len) {
      var b := Find(byLength, len);
      assert group == byLength[b].1;
    }
    var r := Put(byLength, len, Put(group, full, p));
    forall b | 0 <= b < |r| ensures Unique(r[b].1) {
      if r[b].0 != len {
        assert r[b] == byLength[b];
      } else {
        UniqueFind(r, len, b);
      }
    }
  }

  /** After insertion, the new slot holds p and every other slot is as it was. */
  lemma InsertLookup(ix: Index, key: string, len: int, full: string, p: Pattern, key': string, len': int, full': string)
    requires IndexValid(ix)
    ensures Lookup(Insert(ix, key, len, full, p), key', len', full') ==
      if key' == key && len' == len && full' == full then Some(p) else Lookup(ix, key', len', full')
  {
    var byLength := if Has(ix, key) then Get(ix, key) else [];
    if Has(ix, key) {
      GetValid(ix, key);
    }
    var group := if Has(byLength, len) then Get(byLength, len) else [];
    if Has(byLength, len) {
      var b := Find(byLength, len);
      assert group == byLength[b].1;
    }
    var inner := Put(byLength, len, Put(group, full, p));
    if key' != key {
      PutOthers(ix, key, inner, key');
    } else {
      assert Lookup(Insert(ix, key, len, full, p), key', len', full') == LookupLength(inner, len', full');
      assert Lookup(ix, key', len', full') == LookupLength(byLength, len', full');
      PutLength(byLength, len, group, full, p, len', full');
    }
  }

  /** The middle level of an insertion. */
  lemma PutLength(byLength: ByLength, len: int, group: Group, full: string, p: Pattern, len': int, full': string)
    requires Unique(byLength) && Unique(group)
    requires group == if Has(byLength, len) then Get(byLength, len) else []
    ensures LookupLength(Put(byLength, len, Put(group, full, p)), len', full') ==
      if len' == len && full' == full then Some(p) else LookupLength(byLength, len', full')
  {
    if len' != len {
      PutOthers(byLength, len, Put(group, full, p), len');
    } else if full' != full {
      PutOthers(group, full, p, full');
    }
  }

  /**
   * Normalises the members of a pattern and builds its keys, one member at a
   * time: every token is trimmed and lower-cased in the stored copy.
   */
  method Prepare(pattern: Pattern) returns (stored: Pattern, key: string, full: string)
    requires Accepted(pattern)
    ensures |stored| == |pattern| && forall i :: 0 <= i < |pattern| ==> stored[i] == StoredMember(pattern[i])
    ensures key == FirstKey(pattern) && full == FullIndex(pattern)
  {
    stored := pattern;
    key := "";
    full := "";
    var first := true;
    for i := 0 to |pattern|
      invariant |stored| == |pattern|
      invariant forall k :: 0 <= k < i ==> stored[k] == StoredMember(pattern[k])
      invariant forall k :: i <= k < |pattern| ==> stored[k] == pattern[k]
      invariant first <==> i == 0
      invariant key == if i == 0 then "" else FirstKey(pattern)
      invariant full == FullIndex(pattern[..i])
    {
      var token := PhpNormalize(pattern[i].0);
      stored := stored[i := (token, stored[i].1)];
      var tag := PhpTrim(pattern[i].1);
      if first {
        key := token + tag;
        first := false;
      }
      FullIndexStep(pattern, i);
      full := full + (token + tag);
    }
    assert pattern[..|pattern|] == pattern;
  }

  /** The full index of a prefix grows by the key of the next member. */
  lemma FullIndexStep(p: Pattern, i: int)
    requires 0 <= i < |p|
    ensures FullIndex(p[..i + 1]) == FullIndex(p[..i]) + MemberKey(p[i])
  {
    assert p[..i + 1][..i] == p[..i];
  }

  /**
   * The stored copy files under the same keys as the original: adding a
   * stored pattern again overwrites the same slot.
   */
  lemma {:induction false} StoredKeys(p: Pattern, stored: Pattern)
    requires |stored| == |p| && forall i :: 0 <= i < |p| ==> stored[i] == StoredMember(p[i])
    ensures FullIndex(stored) == FullIndex(p) && FirstKey(stored) == FirstKey(p)
    ensures Accepted(p) ==> Accepted(stored)
  {
    forall i | 0 <= i < |p| ensures PhpNormalize(stored[i].0) == PhpNormalize(p[i].0) {
      PhpNormalizeIdempotent(p[i].0);
    }
    assert forall i :: 0 <= i < |p| ==> MemberKey(stored[i]) == MemberKey(p[i]);
    if p != [] {
      var k := |p| - 1;
      StoredKeys(p[..k], stored[..k]);
    }
  }
}
