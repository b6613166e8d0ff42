/**
 * Subsumption between the eight hash indexes of the polarity engine
 * (EmissionMiner::removeSubsumed).
 *
 * A hash index maps a member key (token followed by tag) to the length of
 * the pattern that wrote it and whether the member was that pattern's
 * first. The eight indexes are compared pairwise in the fixed order
 * leftflip, stop, continuator, positive, negative, amplifier, attenuator,
 * rightflip: for every index i and every entry (key, count1) of i, as it
 * stood when the pass over i began, and every later index j that still holds
 * the key, the smaller of the two entries is removed.
 *
 * Every step touches one key only, so the outcome is described key by key:
 * the column of a key is its entry (or None) in each of the eight indexes.
 */
module PolaritySubsumption {
  import opened Wrappers

  /** An index entry: the {length, first} record. */
  datatype Count = Count(length: int, first: int)

  type HashIndex = map<string, Count>

  /** PHP's `>` on two {length, first} records: lexicographic, length first. */
  predicate Greater(a: Count, b: Count)
  {
    a.length > b.length || (a.length == b.length && a.first > b.first)
  }

  /** Two records neither of which is greater than the other are equal. */
  lemma GreaterTotal(a: Count, b: Count)
    ensures !Greater(a, b) && !Greater(b, a) ==> a == b
  {
  }

  /** The entry of key k in each of the indexes. */
  function ColumnOf(idx: seq<HashIndex>, k: string): (c: seq<Option<Count>>)
    ensures |c| == |idx|
    ensures forall t :: 0 <= t < |idx| ==> c[t] == if k in idx[t] then Some(idx[t][k]) else None
  {
    seq(|idx|, t requires 0 <= t < |idx| => if k in idx[t] then Some(idx[t][k]) else None)
  }

  /** One comparison: the snapshot entry s of index i against index j's current entry. */
  function Settle(col: seq<Option<Count>>, s: Count, i: nat, j: nat): (r: seq<Option<Count>>)
    requires |col| == 8 && i < 8 && j < 8
    ensures |r| == 8
  {
    if col[j].Some? && Greater(s, col[j].value) then col[j := None]
    else if col[j].Some? && Greater(col[j].value, s) then col[i := None]
    else col
  }

  /** The comparisons of snapshot entry s of index i with the indexes i+1 .. j-1, in order. */
  function Partners(col: seq<Option<Count>>, s: Count, i: nat, j: nat): (r: seq<Option<Count>>)
    requires |col| == 8 && i < 8 && i + 1 <= j <= 8
    ensures |r| == 8
    decreases j
  {
    if j == i + 1 then col else Settle(Partners(col, s, i, j - 1), s, i, j - 1)
  }

  /** The column after the passes over indexes 0 .. i-1. */
  function Outer(col: seq<Option<Count>>, i: nat): (r: seq<Option<Count>>)
    requires |col| == 8 && i <= 8
    ensures |r| == 8
  {
    if i == 0 then col
    else
      var c := Outer(col, i - 1);
      if c[i - 1].Some? then Partners(c, c[i - 1].value, i - 1, 8) else c
  }

  /** The eight indexes after removeSubsumed: the entries whose column keeps them. */
  function Survivors(idx: seq<HashIndex>): (r: seq<HashIndex>)
    requires |idx| == 8
    ensures |r| == 8
    ensures forall t :: 0 <= t < 8 ==> r[t].Keys <= idx[t].Keys
    ensures forall t, k :: 0 <= t < 8 && k in r[t] ==> r[t][k] == idx[t][k]
  {
    seq(8, t requires 0 <= t < 8 => map k | k in idx[t] && Outer(ColumnOf(idx, k), 8)[t].Some? :: idx[t][k])
  }

  // ----- The imperative pass -----

  /** The column during the pass over index i: before or after its own turn. */
  function Pass(col: seq<Option<Count>>, i: nat, pending: bool): seq<Option<Count>>
    requires |col| == 8 && i < 8
  {
    if pending then Outer(col, i) else Outer(col, i + 1)
  }

  /** Removing key k from index t changes only the column of k, and only at t. */
  lemma RemoveColumn(idx: seq<HashIndex>, t: nat, k: string, q: string)
    requires t < |idx|
    ensures ColumnOf(idx[t := idx[t] - {k}], q) == if q == k then ColumnOf(idx, q)[t := None] else ColumnOf(idx, q)
  {
  }

  /**
   * Compares every index with every later one and removes, for each key they
   * share, the smaller entry; the pass over index i reads its entries as they
   * stood when that pass began.
   */
  method RemoveSubsumed(idx0: seq<HashIndex>) returns (idx: seq<HashIndex>)
    requires |idx0| == 8
    ensures idx == Survivors(idx0)
  {
    idx := idx0;
    for i := 0 to 8
      invariant |idx| == 8
      invariant forall k :: ColumnOf(idx, k) == Outer(ColumnOf(idx0, k), i)
    {
      idx := PassOver(idx, i, idx0);
    }
    ColumnsSurvive(idx, idx0);
  }

  /** The pass over index i: each of its entries, as they stood at the start, against the later indexes. */
  method PassOver(idx1: seq<HashIndex>, i: nat, ghost idx0: seq<HashIndex>) returns (idx: seq<HashIndex>)
    requires |idx1| == 8 && |idx0| == 8 && i < 8
    requires forall k :: ColumnOf(idx1, k) == Outer(ColumnOf(idx0, k), i)
    ensures |idx| == 8
    ensures forall k :: ColumnOf(idx, k) == Outer(ColumnOf(idx0, k), i + 1)
  {
    idx := idx1;
    var snapshot := idx[i];
    var todo := snapshot.Keys;
    while todo != {}
      invariant |idx| == 8 && todo <= snapshot.Keys
      invariant forall k :: k in snapshot ==> Outer(ColumnOf(idx0, k), i)[i] == Some(snapshot[k])
      invariant forall k :: k !in snapshot ==> Outer(ColumnOf(idx0, k), i)[i] == None
      invariant forall k :: ColumnOf(idx, k) == Pass(ColumnOf(idx0, k), i, k in todo)
      decreases todo
    {
      ghost var some := Pick(todo);
      var key1 :| key1 in todo;
      idx := CompareKey(idx, i, key1, snapshot[key1]);
      todo := todo - {key1};
    }
  }

  /** The entry of key1 in index i, recorded as count1, against indexes i+1 .. 7 in order. */
  method CompareKey(idx1: seq<HashIndex>, i: nat, key1: string, count1: Count) returns (idx: seq<HashIndex>)
    requires |idx1| == 8 && i < 8
    ensures |idx| == 8
    ensures ColumnOf(idx, key1) == Partners(ColumnOf(idx1, key1), count1, i, 8)
    ensures forall k :: k != key1 ==> ColumnOf(idx, k) == ColumnOf(idx1, k)
  {
    idx := idx1;
    for j := i + 1 to 8
      invariant |idx| == 8
      invariant ColumnOf(idx, key1) == Partners(ColumnOf(idx1, key1), count1, i, j)
      invariant forall k :: k != key1 ==> ColumnOf(idx, k) == ColumnOf(idx1, k)
    {
      if key1 in idx[j] {
        var count2 := idx[j][key1];
        if Greater(count1, count2) {
          forall q ensures ColumnOf(idx[j := idx[j] - {key1}], q) ==
            if q == key1 then ColumnOf(idx, q)[j := None] else ColumnOf(idx, q) {
            RemoveColumn(idx, j, key1, q);
          }
          idx := idx[j := idx[j] - {key1}];
        } else if Greater(count2, count1) {
          forall q ensures ColumnOf(idx[i := idx[i] - {key1}], q) ==
            if q == key1 then ColumnOf(idx, q)[i := None] else ColumnOf(idx, q) {
            RemoveColumn(idx, i, key1, q);
          }
          idx := idx[i := idx[i] - {key1}];
        }
      }
    }
  }

  /** Indexes whose every column is the final column of the start are the survivors. */
  lemma ColumnsSurvive(idx: seq<HashIndex>, idx0: seq<HashIndex>)
    requires |idx| == 8 && |idx0| == 8
    requires forall k :: ColumnOf(idx, k) == Outer(ColumnOf(idx0, k), 8)
    ensures idx == Survivors(idx0)
  {
    forall t | 0 <= t < 8 ensures idx[t] == Survivors(idx0)[t] {
      forall k ensures k in idx[t] <==> k in Survivors(idx0)[t] {
        assert ColumnOf(idx, k)[t] == Outer(ColumnOf(idx0, k), 8)[t];
        PresentWasThere(ColumnOf(idx0, k), 8, t);
      }
      forall k | k in idx[t] ensures idx[t][k] == idx0[t][k] {
        assert ColumnOf(idx, k)[t] == Outer(ColumnOf(idx0, k), 8)[t];
        PresentWasThere(ColumnOf(idx0, k), 8, t);
      }
    }
  }

  // ----- Properties -----

  /** Comparisons only ever remove entries: what is present afterwards was present before, unchanged. */
  lemma {:induction false} PartnersOnlyRemove(col: seq<Option<Count>>, s: Count, i: nat, j: nat, t: nat)
    requires |col| == 8 && i < 8 && i + 1 <= j <= 8 && t < 8
    ensures Partners(col, s, i, j)[t].Some? ==> Partners(col, s, i, j)[t] == col[t]
    decreases j
  {
    if j > i + 1 {
      PartnersOnlyRemove(col, s, i, j - 1, t);
    }
  }

  /** An entry present after the passes over 0 .. i-1 was present at the start with the same record. */
  lemma {:induction false} PresentWasThere(col: seq<Option<Count>>, i: nat, t: nat)
    requires |col| == 8 && i <= 8 && t < 8
    ensures Outer(col, i)[t].Some? ==> Outer(col, i)[t] == col[t]
  {
    if i > 0 {
      PresentWasThere(col, i - 1, t);
      var c := Outer(col, i - 1);
      if c[i - 1].Some? {
        PartnersOnlyRemove(c, c[i - 1].value, i - 1, 8, t);
      }
    }
  }

  /**
   * A comparison removes an entry only for a strictly greater one: the
   * snapshot record s (an original entry of index i) or index j's entry.
   */
  lemma {:induction false} PartnersRemoveForGreater(col0: seq<Option<Count>>, col: seq<Option<Count>>, s: Count, i: nat, j: nat, t: nat)
    requires |col0| == 8 && |col| == 8 && i < 8 && i + 1 <= j <= 8 && t < 8
    requires col0[i] == Some(s)
    requires forall u :: 0 <= u < 8 && col[u].Some? ==> col[u] == col0[u]
    requires col[t].Some? && Partners(col, s, i, j)[t].None?
    ensures exists u :: 0 <= u < 8 && u != t && col0[u].Some? && Greater(col0[u].value, col[t].value)
    decreases j
  {
    var before := Partners(col, s, i, j - 1);
    if before[t].None? {
      PartnersRemoveForGreater(col0, col, s, i, j - 1, t);
    } else {
      PartnersOnlyRemove(col, s, i, j - 1, t);
      PartnersOnlyRemove(col, s, i, j - 1, j - 1);
      if t == j - 1 {
        assert Greater(s, before[t].value);
        assert col0[i].Some? && Greater(col0[i].value, col[t].value);
      } else {
        assert t == i && before[j - 1].Some? && Greater(before[j - 1].value, s);
        assert col0[j - 1].Some? && Greater(col0[j - 1].value, col[t].value);
      }
    }
  }

  /** Over all passes: an entry is removed only when another index holds the key with a strictly greater record. */
  lemma {:induction false} RemovedOnlyByGreater(col: seq<Option<Count>>, i: nat, t: nat)
    requires |col| == 8 && i <= 8 && t < 8
    requires col[t].Some? && Outer(col, i)[t].None?
    ensures exists u :: 0 <= u < 8 && u != t && col[u].Some? && Greater(col[u].value, col[t].value)
  {
    var c := Outer(col, i - 1);
    if c[t].None? {
      RemovedOnlyByGreater(col, i - 1, t);
    } else {
      PresentWasThere(col, i - 1, t);
      PresentWasThere(col, i - 1, i - 1);
      forall u | 0 <= u < 8 && c[u].Some? ensures c[u] == col[u] {
        PresentWasThere(col, i - 1, u);
      }
      PartnersRemoveForGreater(col, c, c[i - 1].value, i - 1, 8, t);
    }
  }

  /**
   * The comparison of index i with a later index u: when both still hold the
   * key when it comes round and both keep it to the end, their records are equal.
   */
  lemma {:induction false} PartnersCompare(col: seq<Option<Count>>, s: Count, i: nat, u: nat, j: nat)
    requires |col| == 8 && i < u < j <= 8
    requires Partners(col, s, i, j)[i].Some? && Partners(col, s, i, j)[u].Some?
    ensures col[u].Some? && !Greater(s, col[u].value) && !Greater(col[u].value, s)
    decreases j
  {
    var before := Partners(col, s, i, j - 1);
    PartnersOnlyRemove(col, s, i, j - 1, u);
    PartnersOnlyRemove(col, s, i, j - 1, i);
    if u < j - 1 {
      PartnersCompare(col, s, i, u, j - 1);
    } else {
      assert before[u].Some?;
    }
  }

  /** Presence after pass i carries back to every earlier pass. */
  lemma {:induction false} PresentEarlier(col: seq<Option<Count>>, a: nat, b: nat, t: nat)
    requires |col| == 8 && a <= b <= 8 && t < 8
    requires Outer(col, b)[t].Some?
    ensures Outer(col, a)[t] == Outer(col, b)[t]
    decreases b - a
  {
    if a < b {
      var c := Outer(col, b - 1);
      if c[b - 1].Some? {
        PartnersOnlyRemove(c, c[b - 1].value, b - 1, 8, t);
      }
      PresentEarlier(col, a, b - 1, t);
    }
  }

  /**
   * Every pair of indexes is compared: two entries of one key that both
   * survive carry equal records, so no survivor is smaller than another.
   */
  lemma SurvivorsAgree(col: seq<Option<Count>>, t: nat, u: nat)
    requires |col| == 8 && t < u < 8
    requires Outer(col, 8)[t].Some? && Outer(col, 8)[u].Some?
    ensures col[t] == col[u]
  {
    PresentEarlier(col, t, 8, t);
    PresentEarlier(col, t, 8, u);
    PresentEarlier(col, t + 1, 8, t);
    PresentEarlier(col, t + 1, 8, u);
    PresentWasThere(col, 8, t);
    PresentWasThere(col, 8, u);
    var c := Outer(col, t);
    PartnersCompare(c, c[t].value, t, u, 8);
    GreaterTotal(c[t].value, c[u].value);
  }

  /** The column-wise facts stated on the indexes themselves. */
  lemma SurvivorsProperties(idx: seq<HashIndex>, t: nat, k: string)
    requires |idx| == 8 && t < 8 && k in idx[t]
    ensures k !in Survivors(idx)[t] ==>
              exists u :: 0 <= u < 8 && u != t && k in idx[u] && Greater(idx[u][k], idx[t][k])
    ensures (forall u :: 0 <= u < 8 && u != t ==> k !in idx[u]) ==> k in Survivors(idx)[t]
    ensures forall u :: t < u < 8 && k in Survivors(idx)[t] && k in Survivors(idx)[u] ==> idx[t][k] == idx[u][k]
  {
    var col := ColumnOf(idx, k);
    if k !in Survivors(idx)[t] {
      RemovedOnlyByGreater(col, 8, t);
    }
    forall u | t < u < 8 && k in Survivors(idx)[t] && k in Survivors(idx)[u] ensures idx[t][k] == idx[u][k] {
      SurvivorsAgree(col, t, u);
    }
  }
}
