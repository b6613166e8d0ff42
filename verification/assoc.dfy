/**
 * PHP's ordered arrays as association lists: a sequence of (key, value)
 * entries with distinct keys, kept in insertion order. Assigning to a key
 * that is present overwrites its value in place; assigning to a new key
 * appends an entry at the end.
 */
module Assoc {

  type Assoc<K, V> = seq<(K, V)>

  /** The keys in order. */
  function Keys<K, V>(al: Assoc<K, V>): (ks: seq<K>)
    ensures |ks| == |al|
    ensures forall i :: 0 <= i < |al| ==> ks[i] == al[i].0
  {
    if al == [] then [] else Keys(al[..|al| - 1]) + [al[|al| - 1].0]
  }

  /** No key occurs twice. */
  predicate Unique<K(==), V>(al: Assoc<K, V>)
  {
    forall i, j :: 0 <= i < j < |al| ==> al[i].0 != al[j].0
  }

  /** isset: some entry has key k. */
  predicate Has<K(==), V>(al: Assoc<K, V>, k: K)
  {
    exists i :: 0 <= i < |al| && al[i].0 == k
  }

  /** The position of key k. */
  function Find<K(==), V>(al: Assoc<K, V>, k: K): (i: int)
    ensures -1 <= i < |al|
    ensures i >= 0 ==> al[i].0 == k
    ensures i == -1 <==> !Has(al, k)
    ensures forall j :: i < j < |al| ==> al[j].0 != k
  {
    if al == [] then -1
    else if al[|al| - 1].0 == k then |al| - 1
    else Find(al[..|al| - 1], k)
  }

  /** The value under key k. */
  function Get<K(==), V>(al: Assoc<K, V>, k: K): V
    requires Has(al, k)
  {
    al[Find(al, k)].1
  }

  /** The assignment al[k] = v. */
  function Put<K(==), V>(al: Assoc<K, V>, k: K, v: V): (r: Assoc<K, V>)
    ensures Has(al, k) ==> |r| == |al| && Keys(r) == Keys(al)
    ensures !Has(al, k) ==> r == al + [(k, v)]
    ensures Has(r, k) && Get(r, k) == v
    ensures forall i :: 0 <= i < |al| && al[i].0 != k ==> r[i] == al[i]
    ensures Unique(al) ==> Unique(r)
  {
    var i := Find(al, k);
    if i >= 0 then
      var r := al[i := (k, v)];
      assert Keys(r) == Keys(al);
      FindLast(r, k, i);
      r
    else
      assert Find(al + [(k, v)], k) == |al|;
      al + [(k, v)]
  }

  /** Assigning key k leaves every other key's presence and value as it was. */
  lemma PutOthers<K, V>(al: Assoc<K, V>, k: K, v: V, j: K)
    requires Unique(al) && j != k
    ensures Has(Put(al, k, v), j) <==> Has(al, j)
    ensures Has(al, j) ==> Get(Put(al, k, v), j) == Get(al, j)
  {
    var r := Put(al, k, v);
    if Has(al, j) {
      var p := Find(al, j);
      assert r[p] == al[p];
      UniqueFind(r, j, p);
    }
    if Has(r, j) {
      var p := Find(r, j);
      if p < |al| {
        assert al[p].0 == j;
      }
    }
  }

  /** An assignment keeps every key that was present, and every value it holds afterwards was there before or is v. */
  lemma PutKeeps<K, V>(al: Assoc<K, V>, k: K, v: V)
    ensures forall j :: Has(al, j) ==> Has(Put(al, k, v), j)
    ensures forall t :: 0 <= t < |Put(al, k, v)| ==> Put(al, k, v)[t].1 == v || exists u :: 0 <= u < |al| && al[u].1 == Put(al, k, v)[t].1
  {
    var r := Put(al, k, v);
    forall j | Has(al, j) ensures Has(r, j) {
      var p := Find(al, j);
      if Has(al, k) {
        assert Keys(r)[p] == Keys(al)[p];
      } else {
        assert r[p] == al[p];
      }
    }
  }

  /** In a list without repeated keys, the position of a key is the one entry that carries it. */
  lemma UniqueFind<K, V>(al: Assoc<K, V>, k: K, p: int)
    requires Unique(al) && 0 <= p < |al| && al[p].0 == k
    ensures Find(al, k) == p
  {
    FindLast(al, k, p);
  }

  /** Find returns the last entry carrying the key. */
  lemma {:induction false} FindLast<K, V>(al: Assoc<K, V>, k: K, p: int)
    requires 0 <= p < |al| && al[p].0 == k
    requires forall j :: p < j < |al| ==> al[j].0 != k
    ensures Find(al, k) == p
    decreases |al|
  {
    if p < |al| - 1 {
      FindLast(al[..|al| - 1], k, p);
    }
  }
}
