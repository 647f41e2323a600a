/**
 * Python's `dict` as the pipeline uses it: keys in insertion order, no key
 * twice, and assigning to a present key replaces its value where it stands.
 */
module OrderedDict {
  import opened Wrappers

  type Dict<K, V> = seq<(K, V)>

  function Keys<K, V>(d: Dict<K, V>): (ks: seq<K>)
    ensures |ks| == |d|
    ensures forall i :: 0 <= i < |d| ==> ks[i] == d[i].0
  {
    seq(|d|, i requires 0 <= i < |d| => d[i].0)
  }

  ghost predicate DistinctKeys<K, V>(d: Dict<K, V>) {
    forall i, j :: 0 <= i < j < |d| ==> d[i].0 != d[j].0
  }

  /** Position of the first entry whose key is `k`. */
  function IndexOf<K(==), V>(d: Dict<K, V>, k: K): (i: nat)
    requires k in Keys(d)
    ensures i < |d| && d[i].0 == k
    ensures forall j :: 0 <= j < i ==> d[j].0 != k
  {
    if d[0].0 == k then 0
    else
      assert Keys(d) == [d[0].0] + Keys(d[1..]);
      1 + IndexOf(d[1..], k)
  }

  /** `d.get(k)`: the value stored under `k`, if any. */
  function Get<K(==), V>(d: Dict<K, V>, k: K): (r: Option<V>)
    ensures r.Some? <==> k in Keys(d)
    ensures DistinctKeys(d) ==> forall i :: 0 <= i < |d| && d[i].0 == k ==> r == Some(d[i].1)
  {
    if k in Keys(d) then Some(d[IndexOf(d, k)].1) else None
  }

  /** `d[k] = v`. */
  function Put<K(==), V>(d: Dict<K, V>, k: K, v: V): (r: Dict<K, V>)
    ensures k !in Keys(d) ==> r == d + [(k, v)]
    ensures Keys(r) == if k in Keys(d) then Keys(d) else Keys(d) + [k]
    ensures DistinctKeys(d) ==> DistinctKeys(r)
    ensures Get(r, k) == Some(v)
    ensures forall j :: 0 <= j < |d| && d[j].0 != k ==> r[j] == d[j]
  {
    if k in Keys(d) then
      var i := IndexOf(d, k);
      var r := d[i := (k, v)];
      assert Keys(r) == Keys(d);
      assert IndexOf(r, k) == i;
      r
    else
      var r := d + [(k, v)];
      assert k in Keys(r) by {
        assert Keys(r)[|d|] == k;
      }
      assert IndexOf(r, k) == |d|;
      r
  }

  /** `d[k] = v` leaves every other key's value as it was. */
  lemma PutOther<K, V>(d: Dict<K, V>, k: K, v: V, other: K)
    requires other != k
    ensures Get(Put(d, k, v), other) == Get(d, other)
  {
    var r := Put(d, k, v);
    if other in Keys(d) {
      var i := IndexOf(d, other);
      assert other in Keys(r) by {
        assert r[i].0 == other;
      }
      assert forall j :: 0 <= j < |d| ==> r[j].0 == Keys(r)[j] == d[j].0;
      assert IndexOf(r, other) == i;
    }
  }

  /** A second `d[k] = w` overwrites the first, as if it alone had been done. */
  lemma PutTwice<K, V>(d: Dict<K, V>, k: K, v: V, w: V)
    ensures Put(Put(d, k, v), k, w) == Put(d, k, w)
  {
    var r := Put(d, k, v);
    if k in Keys(d) {
      var i := IndexOf(d, k);
      assert forall j :: 0 <= j < |d| ==> r[j].0 == Keys(r)[j] == d[j].0;
      assert IndexOf(r, k) == i;
    } else {
      assert IndexOf(r, k) == |d|;
    }
  }
}
