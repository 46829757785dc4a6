/**
 * Python dictionaries with string keys, as association lists in insertion
 * order. Assignment `d[k] = v` keeps a present key in its place and appends a
 * new one at the end; a lookup sees the latest binding of a key.
 */
module Dicts {
  import opened Wrappers

  type Dict<V> = seq<(string, V)>

  /** `list(d.keys())`. */
  function Keys<V>(d: Dict<V>): (r: seq<string>)
    ensures |r| == |d|
    ensures forall i :: 0 <= i < |d| ==> r[i] == d[i].0
  {
    seq(|d|, i requires 0 <= i < |d| => d[i].0)
  }

  predicate HasKey<V>(d: Dict<V>, k: string) {
    k in Keys(d)
  }

  /** `d.get(k)`: the value bound to `k`, or `None` when `k` is absent. */
  function Get<V(==)>(d: Dict<V>, k: string): (r: Option<V>)
    ensures r.None? <==> !HasKey(d, k)
    ensures r.Some? ==> exists i :: 0 <= i < |d| && d[i] == (k, r.value)
    decreases |d|
  {
    if |d| == 0 then None
    else if d[|d| - 1].0 == k then
      assert d[|d| - 1] == (k, d[|d| - 1].1);
      Some(d[|d| - 1].1)
    else
      var r := Get(d[..|d| - 1], k);
      assert Keys(d) == Keys(d[..|d| - 1]) + [d[|d| - 1].0];
      if r.Some? then
        var i :| 0 <= i < |d| - 1 && d[..|d| - 1][i] == (k, r.value);
        assert d[i] == (k, r.value);
        r
      else r
  }

  /** `d.get(k, default)`. */
  function GetOr<V(==)>(d: Dict<V>, k: string, default: V): V {
    Get(d, k).GetOr(default)
  }

  /** A binding appended at the end is the one a lookup of its key finds. */
  lemma GetSnoc<V>(d: Dict<V>, x: (string, V), k: string)
    ensures Get(d + [x], k) == if x.0 == k then Some(x.1) else Get(d, k)
    ensures HasKey(d + [x], k) <==> HasKey(d, k) || x.0 == k
  {
    assert (d + [x])[..|d|] == d;
    assert Keys(d + [x]) == Keys(d) + [x.0];
  }

  /** A one-entry dictionary binds its key and nothing else. */
  lemma Singleton<V>(k: string, v: V)
    ensures HasKey([(k, v)], k)
    ensures Get([(k, v)], k) == Some(v)
  {
    assert Keys([(k, v)])[0] == k;
  }

  /** An entry whose key is not bound again later is what a lookup of that key finds. */
  lemma {:induction false} GetAt<V>(d: Dict<V>, i: nat)
    requires i < |d|
    requires forall j :: i < j < |d| ==> d[j].0 != d[i].0
    ensures Get(d, d[i].0) == Some(d[i].1)
    decreases |d|
  {
    if i < |d| - 1 {
      var init := d[..|d| - 1];
      assert init[i] == d[i];
      forall j | i < j < |init| ensures init[j].0 != init[i].0 {
        assert init[j] == d[j];
      }
      GetAt(init, i);
    }
  }

  /** `d[k] = v`. */
  function Put<V(==)>(d: Dict<V>, k: string, v: V): (r: Dict<V>)
    ensures Get(r, k) == Some(v)
    ensures forall j :: j != k ==> Get(r, j) == Get(d, j)
    ensures Keys(r) == if HasKey(d, k) then Keys(d) else Keys(d) + [k]
  {
    if HasKey(d, k) then
      var r := seq(|d|, i requires 0 <= i < |d| => if d[i].0 == k then (k, v) else d[i]);
      PutInPlace(d, k, v, r);
      r
    else
      var r := d + [(k, v)];
      assert r[..|r| - 1] == d;
      r
  }

  /** Rebinding every occurrence of `k` in place. */
  lemma {:induction false} PutInPlace<V>(d: Dict<V>, k: string, v: V, r: Dict<V>)
    requires HasKey(d, k) && |r| == |d|
    requires forall i :: 0 <= i < |d| ==> r[i] == if d[i].0 == k then (k, v) else d[i]
    ensures Get(r, k) == Some(v)
    ensures forall j :: j != k ==> Get(r, j) == Get(d, j)
    ensures Keys(r) == Keys(d)
    decreases |d|
  {
    var n := |d| - 1;
    assert Keys(r) == Keys(d);
    forall j | j != k ensures Get(r, j) == Get(d, j) {
      SameOtherKeys(d, k, v, r, j);
    }
    if d[n].0 != k {
      assert Keys(d) == Keys(d[..n]) + [d[n].0];
      PutInPlace(d[..n], k, v, r[..n]);
    }
  }

  lemma {:induction false} SameOtherKeys<V>(d: Dict<V>, k: string, v: V, r: Dict<V>, j: string)
    requires |r| == |d| && j != k
    requires forall i :: 0 <= i < |d| ==> r[i] == if d[i].0 == k then (k, v) else d[i]
    ensures Get(r, j) == Get(d, j)
    decreases |d|
  {
    if |d| > 0 {
      var n := |d| - 1;
      SameOtherKeys(d[..n], k, v, r[..n], j);
      assert d == d[..n] + [d[n]] && r == r[..n] + [r[n]];
      GetSnoc(d[..n], d[n], j);
      GetSnoc(r[..n], r[n], j);
    }
  }

  /** `d.update(e)`: the bindings of `e` are put into `d` one by one, in `e`'s order. */
  function Merge<V(==)>(d: Dict<V>, e: Dict<V>): Dict<V>
    decreases |e|
  {
    if |e| == 0 then d else Merge(Put(d, e[0].0, e[0].1), e[1..])
  }

  /** After `d.update(e)`, a key of `e` has its `e` value and any other key keeps its `d` value. */
  lemma {:induction false} MergeGet<V>(d: Dict<V>, e: Dict<V>, k: string)
    ensures Get(Merge(d, e), k) == if HasKey(e, k) then Get(e, k) else Get(d, k)
    decreases |e|
  {
    if |e| > 0 {
      var d' := Put(d, e[0].0, e[0].1);
      MergeGet(d', e[1..], k);
      LastBinding(e, k);
    }
  }

  /** The lookup in `e` agrees with the last binding: the tail's, unless only the head binds `k`. */
  lemma {:induction false} LastBinding<V>(e: Dict<V>, k: string)
    requires |e| > 0
    ensures Get(e, k) == if HasKey(e[1..], k) then Get(e[1..], k)
                         else if e[0].0 == k then Some(e[0].1) else None
    decreases |e|
  {
    var n := |e| - 1;
    var tail := e[1..];
    if n > 0 {
      assert e == e[..n] + [e[n]] && tail == tail[..n - 1] + [e[n]];
      GetSnoc(e[..n], e[n], k);
      GetSnoc(tail[..n - 1], e[n], k);
      if e[n].0 != k {
        LastBinding(e[..n], k);
        assert e[..n][1..] == tail[..n - 1];
      }
    }
  }

  /** A merge keeps every key of `d` in its place, in front of the keys it adds. */
  lemma {:induction false} MergeKeys<V>(d: Dict<V>, e: Dict<V>)
    ensures |d| <= |Merge(d, e)|
    ensures Keys(Merge(d, e))[..|d|] == Keys(d)
    decreases |e|
  {
    if |e| > 0 {
      var d' := Put(d, e[0].0, e[0].1);
      MergeKeys(d', e[1..]);
      assert Keys(d')[..|d|] == Keys(d);
    }
  }
}
