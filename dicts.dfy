/**
 * Python's insertion-ordered `dict`, as a list of key/value pairs. Iteration (`items()`,
 * `keys()`) follows insertion order; assigning to a key already present replaces its value
 * and keeps its position.
 */
module Dicts {
  import opened Wrappers

  type Dict<K, V> = seq<(K, V)>

  /** `list(d.keys())` */
  function Keys<K, V>(d: Dict<K, V>): (ks: seq<K>)
    ensures |ks| == |d|
    ensures forall i :: 0 <= i < |d| ==> ks[i] == d[i].0
  {
    if d == [] then [] else [d[0].0] + Keys(d[1..])
  }

  lemma {:induction false} KeysLast<K, V>(d: Dict<K, V>)
    requires d != []
    ensures Keys(d) == Keys(d[..|d| - 1]) + [d[|d| - 1].0]
    decreases |d|
  {
    var n := |d| - 1;
    if n == 0 {
      assert d[..n] == [];
    } else {
      KeysLast(d[1..]);
      assert d[1..][..n - 1] == d[..n][1..];
      assert d[1..][n - 1] == d[n];
      assert Keys(d[..n]) == [d[0].0] + Keys(d[..n][1..]);
    }
  }

  /** What every Python dict satisfies: no key twice. */
  ghost predicate DistinctKeys<K, V>(d: Dict<K, V>) {
    forall i, j :: 0 <= i < j < |d| ==> d[i].0 != d[j].0
  }

  /** The position of key `k`: its first (and, in a Python dict, only) occurrence. */
  function KeyIndex<K(==), V>(d: Dict<K, V>, k: K): (i: nat)
    requires k in Keys(d)
    ensures i < |d| && d[i].0 == k
    ensures forall j :: 0 <= j < i ==> d[j].0 != k
  {
    if d[0].0 == k then 0 else 1 + KeyIndex(d[1..], k)
  }

  /** `d.get(k)` */
  function Get<K(==), V>(d: Dict<K, V>, k: K): Option<V> {
    if k in Keys(d) then Some(d[KeyIndex(d, k)].1) else None
  }

  /** `d[k] = v` */
  function Put<K(==), V>(d: Dict<K, V>, k: K, v: V): Dict<K, V> {
    if k in Keys(d) then d[KeyIndex(d, k) := (k, v)] else d + [(k, v)]
  }

  /** Assignment adds a new key at the end and keeps the place of a key that is already there. */
  lemma PutKeys<K, V>(d: Dict<K, V>, k: K, v: V)
    ensures Keys(Put(d, k, v)) == if k in Keys(d) then Keys(d) else Keys(d) + [k]
  {
  }

  /** After `d[k] = v`, `d.get(k)` is `v` and every other key keeps its value. */
  lemma PutGet<K, V>(d: Dict<K, V>, k: K, v: V, k': K)
    ensures Get(Put(d, k, v), k') == if k' == k then Some(v) else Get(d, k')
  {
    var r := Put(d, k, v);
    PutKeys(d, k, v);
    if k' in Keys(d) {
      var i := KeyIndex(d, k');
      assert KeyIndex(r, k') == i by {
        var j := KeyIndex(r, k');
        assert r[i].0 == k';
        assert j <= i;
      }
    } else if k' == k {
      assert KeyIndex(r, k') == |d|;
    }
  }

  lemma PutDistinct<K, V>(d: Dict<K, V>, k: K, v: V)
    requires DistinctKeys(d)
    ensures DistinctKeys(Put(d, k, v))
  {
  }

  /** A second assignment to the same key overrides the first. */
  lemma PutTwice<K, V>(d: Dict<K, V>, k: K, v: V, w: V)
    ensures Put(Put(d, k, v), k, w) == Put(d, k, w)
  {
    PutKeys(d, k, v);
    var r := Put(d, k, v);
    if k in Keys(d) {
      assert KeyIndex(r, k) == KeyIndex(d, k) by {
        var i, j := KeyIndex(d, k), KeyIndex(r, k);
        assert r[i].0 == k;
        assert j <= i;
      }
    } else {
      assert KeyIndex(r, k) == |d|;
    }
  }

  /** In a dict without repeated keys, looking up the i-th key gives the i-th value. */
  lemma GetAt<K, V>(d: Dict<K, V>, i: nat)
    requires DistinctKeys(d) && i < |d|
    ensures Get(d, d[i].0) == Some(d[i].1)
  {
    assert d[i].0 in Keys(d) by {
      assert Keys(d)[i] == d[i].0;
    }
    var j := KeyIndex(d, d[i].0);
    assert !(j < i) && !(i < j);
  }
}
