/**
 * Python dictionaries as sequences of key/value pairs in insertion order, which is
 * the order Python iterates them in.
 */
module Dicts {
  import opened Wrappers

  type Dict<K, V> = seq<(K, V)>

  /** `d.get(k)`: the value stored under `k`, if any. */
  function Lookup<K(==), V>(d: Dict<K, V>, k: K): Option<V>
    decreases |d|
  {
    if d == [] then None
    else if d[0].0 == k then Some(d[0].1)
    else Lookup(d[1..], k)
  }

  /** `d.get(k, default)`. */
  function Get<K(==), V>(d: Dict<K, V>, k: K, default: V): V {
    Lookup(d, k).GetOr(default)
  }

  predicate DistinctKeys<K(==), V>(d: Dict<K, V>) {
    forall i, j :: 0 <= i < j < |d| ==> d[i].0 != d[j].0
  }

  predicate DistinctValues<K, V(==)>(d: Dict<K, V>) {
    forall i, j :: 0 <= i < j < |d| ==> d[i].1 != d[j].1
  }

  /** `{v: k for k, v in d.items()}`, for a dictionary whose values are distinct. */
  function Swap<K, V>(d: Dict<K, V>): (s: Dict<V, K>)
    ensures |s| == |d| && forall i :: 0 <= i < |d| ==> s[i] == (d[i].1, d[i].0)
  {
    seq(|d|, i requires 0 <= i < |d| => (d[i].1, d[i].0))
  }

  /** The lookup finds the entry at index `i` when no earlier entry has the key. */
  lemma {:induction false} LookupAt<K, V>(d: Dict<K, V>, i: nat)
    requires i < |d|
    requires forall j :: 0 <= j < i ==> d[j].0 != d[i].0
    ensures Lookup(d, d[i].0) == Some(d[i].1)
    decreases i
  {
    if i > 0 {
      LookupAt(d[1..], i - 1);
    }
  }

  /** What the lookup finds is the value of some entry with that key. */
  lemma {:induction false} LookupFound<K, V>(d: Dict<K, V>, k: K)
    requires Lookup(d, k).Some?
    ensures exists i :: 0 <= i < |d| && d[i] == (k, Lookup(d, k).value)
                        && forall j :: 0 <= j < i ==> d[j].0 != k
    decreases |d|
  {
    if d[0].0 != k {
      LookupFound(d[1..], k);
      var i :| 0 <= i < |d[1..]| && d[1..][i] == (k, Lookup(d, k).value)
               && forall j :: 0 <= j < i ==> d[1..][j].0 != k;
      assert d[i + 1] == (k, Lookup(d, k).value);
      assert forall j :: 1 <= j < i + 1 ==> d[j] == d[1..][j - 1];
    }
  }

  /** A key is found exactly when some entry carries it. */
  lemma {:induction false} LookupSome<K, V>(d: Dict<K, V>, k: K)
    ensures Lookup(d, k).Some? <==> exists i :: 0 <= i < |d| && d[i].0 == k
    decreases |d|
  {
    if d != [] && d[0].0 != k {
      LookupSome(d[1..], k);
      assert forall i :: 1 <= i < |d| ==> d[i] == d[1..][i - 1];
    }
  }

  /** With distinct keys and distinct values, a dictionary and its swap are mutual inverses. */
  lemma SwapInverse<K, V>(d: Dict<K, V>)
    requires DistinctKeys(d) && DistinctValues(d)
    ensures forall k :: Lookup(d, k).Some? ==> Lookup(Swap(d), Lookup(d, k).value) == Some(k)
    ensures forall v :: Lookup(Swap(d), v).Some? ==> Lookup(d, Lookup(Swap(d), v).value) == Some(v)
  {
    var s := Swap(d);
    forall k | Lookup(d, k).Some?
      ensures Lookup(s, Lookup(d, k).value) == Some(k)
    {
      LookupFound(d, k);
      var i :| 0 <= i < |d| && d[i] == (k, Lookup(d, k).value) && forall j :: 0 <= j < i ==> d[j].0 != k;
      LookupAt(s, i);
    }
    forall v | Lookup(s, v).Some?
      ensures Lookup(d, Lookup(s, v).value) == Some(v)
    {
      LookupFound(s, v);
      var i :| 0 <= i < |s| && s[i] == (v, Lookup(s, v).value) && forall j :: 0 <= j < i ==> s[j].0 != v;
      LookupAt(d, i);
    }
  }

  /** A dictionary whose values are its positions 0, 1, 2, ... */
  predicate Numbered<K>(d: Dict<K, int>) {
    forall i :: 0 <= i < |d| ==> d[i].1 == i
  }

  /** Reading a numbered dictionary backwards finds the key at that position, and nothing outside them. */
  lemma NumberedSwap<K>(d: Dict<K, int>, v: int)
    requires Numbered(d)
    ensures Lookup(Swap(d), v) == if 0 <= v < |d| then Some(d[v].0) else None
  {
    var s := Swap(d);
    if 0 <= v < |d| {
      LookupAt(s, v);
    } else {
      LookupSome(s, v);
    }
  }

  /** The key at any position is found, with some value. */
  lemma KeyAtIsFound<K, V>(d: Dict<K, V>, i: nat)
    requires i < |d|
    ensures Lookup(d, d[i].0).Some?
  {
    LookupSome(d, d[i].0);
  }

  /** `d[k] = v`: a new key goes last, an existing one keeps its place and takes the new value. */
  function Put<K(==), V>(d: Dict<K, V>, k: K, v: V): Dict<K, V>
    decreases |d|
  {
    if d == [] then [(k, v)]
    else if d[0].0 == k then [(k, v)] + d[1..]
    else [d[0]] + Put(d[1..], k, v)
  }

  /** The keys of a dictionary. */
  function Keys<K, V>(d: Dict<K, V>): set<K> {
    set i | 0 <= i < |d| :: d[i].0
  }

  /** After `d[k] = v`, `k` reads `v` and every other key reads as before. */
  lemma {:induction false} PutLookup<K, V>(d: Dict<K, V>, k: K, v: V)
    ensures Lookup(Put(d, k, v), k) == Some(v)
    ensures forall k' :: k' != k ==> Lookup(Put(d, k, v), k') == Lookup(d, k')
    decreases |d|
  {
    if d != [] && d[0].0 != k {
      PutLookup(d[1..], k, v);
      assert Put(d, k, v)[1..] == Put(d[1..], k, v);
    } else if d != [] {
      assert Put(d, k, v)[1..] == d[1..];
    }
  }

  /** The keys of a non-empty dictionary are its first key and the keys of the rest. */
  lemma KeysCons<K, V>(d: Dict<K, V>)
    requires d != []
    ensures Keys(d) == {d[0].0} + Keys(d[1..])
  {
    forall x | x in Keys(d) ensures x in {d[0].0} + Keys(d[1..]) {
      var i :| 0 <= i < |d| && d[i].0 == x;
      if i > 0 {
        assert d[1..][i - 1].0 == x;
      }
    }
    forall x | x in Keys(d[1..]) ensures x in Keys(d) {
      var i :| 0 <= i < |d[1..]| && d[1..][i].0 == x;
      assert d[i + 1].0 == x;
    }
  }

  /** After `d[k] = v` the keys are the old keys and `k`. */
  lemma {:induction false} PutKeys<K, V>(d: Dict<K, V>, k: K, v: V)
    ensures Keys(Put(d, k, v)) == Keys(d) + {k}
    decreases |d|
  {
    var p := Put(d, k, v);
    if d == [] {
      assert p[0].0 == k;
    } else {
      KeysCons(d);
      KeysCons(p);
      if d[0].0 == k {
        assert p[1..] == d[1..];
      } else {
        PutKeys(d[1..], k, v);
        assert p[1..] == Put(d[1..], k, v);
      }
    }
  }

  /** A key is found exactly when it is one of the keys. */
  lemma LookupKeys<K, V>(d: Dict<K, V>, k: K)
    ensures Lookup(d, k).Some? <==> k in Keys(d)
  {
    LookupSome(d, k);
  }

  /** Every entry after `d[k] = v` was an entry before, or is `(k, v)`. */
  lemma {:induction false} PutEntries<K, V>(d: Dict<K, V>, k: K, v: V)
    ensures forall e :: e in Put(d, k, v) ==> e in d || e == (k, v)
    decreases |d|
  {
    if d != [] && d[0].0 != k {
      PutEntries(d[1..], k, v);
      assert Put(d, k, v) == [d[0]] + Put(d[1..], k, v);
      assert forall e :: e in d[1..] ==> e in d;
    } else if d != [] {
      assert forall e :: e in d[1..] ==> e in d;
    }
  }

  /** Appending an entry adds its key. */
  lemma KeysSnoc<K, V>(d: Dict<K, V>, e: (K, V))
    ensures Keys(d + [e]) == Keys(d) + {e.0}
  {
    var d' := d + [e];
    forall x | x in Keys(d') ensures x in Keys(d) + {e.0} {
      var i :| 0 <= i < |d'| && d'[i].0 == x;
      if i < |d| {
        assert d[i].0 == x;
      }
    }
    forall x | x in Keys(d) ensures x in Keys(d') {
      var i :| 0 <= i < |d| && d[i].0 == x;
      assert d'[i].0 == x;
    }
    assert d'[|d|].0 == e.0;
  }

  /** An appended entry is found only when no earlier entry has its key. */
  lemma {:induction false} LookupSnoc<K, V>(d: Dict<K, V>, e: (K, V), k: K)
    ensures Lookup(d + [e], k) == if Lookup(d, k).Some? then Lookup(d, k) else if e.0 == k then Some(e.1) else None
    decreases |d|
  {
    if d != [] {
      assert (d + [e])[1..] == d[1..] + [e];
      LookupSnoc(d[1..], e, k);
    }
  }
}
