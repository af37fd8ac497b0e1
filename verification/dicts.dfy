/** Insertion-ordered dictionaries, the way a Python dict behaves: a sequence of
    key/value pairs in which assigning to an existing key overwrites its value in
    place and assigning to a new key appends it at the end. */
module Dicts {

  datatype Option<+T> = None | Some(value: T)

  type Dict<K, V> = seq<(K, V)>

  /** The keys of `d`, in insertion order. */
  function Keys<K, V>(d: Dict<K, V>): (ks: seq<K>)
    ensures |ks| == |d|
    ensures forall i :: 0 <= i < |d| ==> ks[i] == d[i].0
  {
    seq(|d|, i requires 0 <= i < |d| => d[i].0)
  }

  /** A Python dict never holds the same key twice. */
  predicate Distinct<K(==)>(ks: seq<K>) {
    forall i, j :: 0 <= i < j < |ks| ==> ks[i] != ks[j]
  }

  predicate DistinctKeys<K(==), V>(d: Dict<K, V>) {
    Distinct(Keys(d))
  }

  /** `d.get(k)`: the value stored under `k`, if any. */
  function Get<K(==), V>(d: Dict<K, V>, k: K): (r: Option<V>)
    ensures r.Some? <==> k in Keys(d)
  {
    if d == [] then None else if d[0].0 == k then Some(d[0].1) else Get(d[1..], k)
  }

  /** `d.get(k, default)`. */
  function GetOr<K(==), V>(d: Dict<K, V>, k: K, default: V): V {
    match Get(d, k)
    case Some(v) => v
    case None => default
  }

  /** `d[k] = v`: overwrite in place, or append a new key. */
  function Put<K(==,!new), V>(d: Dict<K, V>, k: K, v: V): (r: Dict<K, V>)
    ensures Get(r, k) == Some(v)
    ensures forall j :: j != k ==> Get(r, j) == Get(d, j)
  {
    if d == [] then [(k, v)]
    else if d[0].0 == k then [(k, v)] + d[1..]
    else [d[0]] + Put(d[1..], k, v)
  }

  /** Put keeps the key order: an existing key stays where it is, a new one goes last. */
  lemma {:induction false} PutKeys<K(!new), V>(d: Dict<K, V>, k: K, v: V)
    ensures Keys(Put(d, k, v)) == if k in Keys(d) then Keys(d) else Keys(d) + [k]
  {
    if d != [] && d[0].0 != k {
      PutKeys(d[1..], k, v);
      var rest := Put(d[1..], k, v);
      assert ([d[0]] + rest)[1..] == rest;
    }
  }

  /** `d.update(e)`: assign every pair of `e` to `d`, left to right. */
  function Update<K(==,!new), V>(d: Dict<K, V>, e: Dict<K, V>): Dict<K, V>
    decreases e
  {
    if e == [] then d else Update(Put(d, e[0].0, e[0].1), e[1..])
  }

  /** Assigning a fresh key appends exactly one pair. */
  lemma {:induction false} PutFresh<K(!new), V>(d: Dict<K, V>, k: K, v: V)
    requires k !in Keys(d)
    ensures Put(d, k, v) == d + [(k, v)]
  {
    if d != [] {
      assert d[0].0 != k by { assert Keys(d)[0] == d[0].0; }
      assert k !in Keys(d[1..]) by {
        forall i | 0 <= i < |d| - 1 ensures Keys(d[1..])[i] != k {
          assert Keys(d[1..])[i] == d[i + 1].0 == Keys(d)[i + 1];
        }
      }
      PutFresh(d[1..], k, v);
      assert d == [d[0]] + d[1..];
    }
  }

  /** Put keeps the keys of a dict distinct. */
  lemma PutKeepsDistinct<K(!new), V>(d: Dict<K, V>, k: K, v: V)
    requires DistinctKeys(d)
    ensures DistinctKeys(Put(d, k, v))
  {
    PutKeys(d, k, v);
  }

  /** The pair at position `i` of a dict is what a lookup of its key finds. */
  lemma {:induction false} GetAt<K, V>(d: Dict<K, V>, i: nat)
    requires DistinctKeys(d) && i < |d|
    ensures Get(d, d[i].0) == Some(d[i].1)
  {
    if i > 0 {
      GetAt(d[1..], i - 1);
    }
  }

  /** After `d.update(e)`, a key of `e` maps to its value in `e`, and any other key
      keeps its value in `d`. */
  lemma {:induction false} UpdateGet<K(!new), V>(d: Dict<K, V>, e: Dict<K, V>, j: K)
    requires DistinctKeys(e)
    ensures Get(Update(d, e), j) == if j in Keys(e) then Get(e, j) else Get(d, j)
    decreases e
  {
    if e != [] {
      assert DistinctKeys(e[1..]);
      UpdateGet(Put(d, e[0].0, e[0].1), e[1..], j);
    }
  }

  /** A dict is its prefix with its last pair assigned to it. */
  lemma LastPair<K(!new), V>(d: Dict<K, V>)
    requires DistinctKeys(d) && d != []
    ensures var n := |d| - 1;
      && DistinctKeys(d[..n])
      && d[n].0 !in Keys(d[..n])
      && Keys(d) == Keys(d[..n]) + [d[n].0]
      && d == Put(d[..n], d[n].0, d[n].1)
  {
    var n := |d| - 1;
    var ks, pre := Keys(d), Keys(d[..n]);
    assert pre == ks[..n] by {
      forall i | 0 <= i < n ensures pre[i] == ks[i] {
        assert pre[i] == d[..n][i].0 == d[i].0;
      }
    }
    assert ks == pre + [d[n].0];
    assert Distinct(pre);
    assert d[n].0 !in pre by {
      forall i | 0 <= i < n ensures pre[i] != d[n].0 {
        assert pre[i] == ks[i] && ks[n] == d[n].0;
      }
    }
    PutFresh(d[..n], d[n].0, d[n].1);
    assert d == d[..n] + [d[n]];
  }

  /** Updating with pairs whose keys are new and distinct appends them. */
  lemma {:induction false} UpdateFresh<K(!new), V>(d: Dict<K, V>, e: Dict<K, V>)
    requires DistinctKeys(e)
    requires forall i :: 0 <= i < |e| ==> e[i].0 !in Keys(d)
    ensures Update(d, e) == d + e
    decreases e
  {
    if e != [] {
      PutFresh(d, e[0].0, e[0].1);
      var next := d + [e[0]];
      var rest := e[1..];
      assert Keys(next) == Keys(d) + [e[0].0] by {
        assert forall i :: 0 <= i < |d| ==> Keys(next)[i] == Keys(d)[i];
      }
      assert DistinctKeys(rest) by {
        forall i, j | 0 <= i < j < |rest| ensures Keys(rest)[i] != Keys(rest)[j] {
          assert Keys(rest)[i] == Keys(e)[i + 1] && Keys(rest)[j] == Keys(e)[j + 1];
        }
      }
      forall i | 0 <= i < |rest| ensures rest[i].0 !in Keys(next) {
        var x := e[i + 1].0;
        assert x !in Keys(d);
        assert x != e[0].0 by { assert Keys(e)[0] == e[0].0 && Keys(e)[i + 1] == x; }
      }
      UpdateFresh(next, e[1..]);
      assert next + e[1..] == d + e;
    }
  }

  /** A lookup in a concatenation finds the left part first. */
  lemma {:induction false} GetAppend<K, V>(a: Dict<K, V>, b: Dict<K, V>, k: K)
    ensures Get(a + b, k) == if k in Keys(a) then Get(a, k) else Get(b, k)
  {
    if a != [] {
      GetAppend(a[1..], b, k);
      assert (a + b)[1..] == a[1..] + b;
      assert k in Keys(a) <==> a[0].0 == k || k in Keys(a[1..]) by {
        assert Keys(a) == [a[0].0] + Keys(a[1..]);
      }
    } else {
      assert a + b == b;
    }
  }
}
