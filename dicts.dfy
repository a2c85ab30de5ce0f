/** A JavaScript plain object with string keys, as its `Object.entries`:
    entries in insertion order. Assigning an existing key replaces its value
    where it stands; assigning a new key appends it. */
module Dicts {
  import opened Wrappers

  type Entries<V> = seq<(string, V)>

  predicate HasKey<V>(d: Entries<V>, k: string) {
    exists i :: 0 <= i < |d| && d[i].0 == k
  }

  /** Object keys are unique. */
  predicate DistinctKeys<V>(d: Entries<V>) {
    forall i, j :: 0 <= i < j < |d| ==> d[i].0 != d[j].0
  }

  /** The position of key `k`, or -1. */
  function Find<V>(d: Entries<V>, k: string): (r: int)
    ensures -1 <= r < |d|
    ensures r >= 0 ==> d[r].0 == k && forall j :: 0 <= j < r ==> d[j].0 != k
    ensures r == -1 <==> !HasKey(d, k)
  {
    if |d| == 0 then -1
    else if d[0].0 == k then 0
    else
      var r := Find(d[1..], k);
      if r < 0 then
        assert forall i :: 1 <= i < |d| ==> d[i].0 == d[1..][i - 1].0;
        -1
      else r + 1
  }

  /** `d[k]`, with `None` for `undefined`. */
  function Get<V>(d: Entries<V>, k: string): (r: Option<V>)
    ensures r.Some? <==> HasKey(d, k)
    ensures r.Some? ==> exists i :: 0 <= i < |d| && d[i] == (k, r.value)
  {
    var i := Find(d, k);
    if i < 0 then None else Some(d[i].1)
  }

  /** In an object with unique keys, the entry at position `i` is what `Get`
      finds for its key. */
  lemma GetAt<V>(d: Entries<V>, i: nat)
    requires DistinctKeys(d) && i < |d|
    ensures Get(d, d[i].0) == Some(d[i].1)
  {
    var j := Find(d, d[i].0);
    assert j == i;
  }

  /** Two objects whose keys stand in the same positions find every key at
      the same position. */
  lemma SameKeysSameFind<V>(a: Entries<V>, b: Entries<V>)
    requires |a| == |b| && forall j :: 0 <= j < |a| ==> a[j].0 == b[j].0
    ensures forall k :: Find(a, k) == Find(b, k)
  {
    forall k ensures Find(a, k) == Find(b, k) {
      var x, y := Find(a, k), Find(b, k);
      if y >= 0 { assert a[y].0 == k; }
      if x >= 0 { assert b[x].0 == k; }
    }
  }

  /** `d[k] = v`. */
  function Put<V>(d: Entries<V>, k: string, v: V): (r: Entries<V>)
    ensures Get(r, k) == Some(v)
    ensures forall k' :: k' != k ==> Get(r, k') == Get(d, k')
    ensures HasKey(d, k) ==> |r| == |d| && forall j :: 0 <= j < |d| && d[j].0 != k ==> r[j] == d[j]
    ensures !HasKey(d, k) ==> r == d + [(k, v)]
    ensures forall j :: 0 <= j < |d| ==> r[j].0 == d[j].0
    ensures DistinctKeys(d) ==> DistinctKeys(r)
  {
    var i := Find(d, k);
    if i >= 0 then
      var r := d[i := (k, v)];
      assert forall j :: 0 <= j < |d| ==> r[j].0 == d[j].0;
      SameKeysSameFind(r, d);
      r
    else
      var r := d + [(k, v)];
      assert forall j :: 0 <= j < |d| ==> r[j] == d[j];
      assert r[|d|].0 == k;
      forall k' | k' != k ensures Find(r, k') == Find(d, k') {
        var a, b := Find(r, k'), Find(d, k');
        if b >= 0 { assert r[b].0 == k'; }
        if a >= 0 { assert a < |d| && d[a].0 == k'; }
      }
      assert Find(r, k) == |d|;
      r
  }
}
