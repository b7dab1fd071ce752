/** Python lists without duplicates, and dictionaries that remember insertion order. */
module Dicts {
  predicate Distinct<T(==)>(s: seq<T>) {
    forall i, j :: 0 <= i < j < |s| ==> s[i] != s[j]
  }

  /** list.remove(x), when x is in the list */
  function RemoveFirst<T(==)>(s: seq<T>, x: T): seq<T> {
    if s == [] then [] else if s[0] == x then s[1..] else [s[0]] + RemoveFirst(s[1..], x)
  }

  lemma {:induction false} RemoveFirstMembers<T>(s: seq<T>, x: T, y: T)
    ensures y in RemoveFirst(s, x) ==> y in s
    ensures y in s && y != x ==> y in RemoveFirst(s, x)
  {
    if s != [] && s[0] != x {
      RemoveFirstMembers(s[1..], x, y);
    }
  }

  /** On a list without duplicates, removing x removes exactly x. */
  lemma {:induction false} RemoveFirstDistinct<T>(s: seq<T>, x: T)
    requires Distinct(s)
    ensures Distinct(RemoveFirst(s, x))
    ensures x !in RemoveFirst(s, x)
  {
    if s != [] && s[0] != x {
      var rest := s[1..];
      assert forall i :: 0 <= i < |rest| ==> rest[i] == s[i + 1];
      RemoveFirstDistinct(rest, x);
      RemoveFirstMembers(rest, x, s[0]);
    } else if s != [] {
      assert forall i :: 1 <= i < |s| ==> s[1..][i - 1] == s[i];
    }
  }

  datatype Dict<K, V> = Dict(keys: seq<K>, vals: map<K, V>)

  /** Marks a position or a key the invariant below is asked about, so that it is not expanded everywhere. */
  predicate Asked<T>(x: T) {
    true
  }

  /** The list names every element of the set, once. */
  ghost predicate Enumerates<K(!new)>(keys: seq<K>, names: set<K>) {
    && (forall i: int {:trigger Asked(i)} :: Asked(i) && 0 <= i < |keys| ==> keys[i] in names && keys[i] !in keys[..i])
    && (forall k: K {:trigger Asked(k)} :: Asked(k) && k in names ==> k in keys)
  }

  /** `keys` lists each key once, in the order `for k in d` visits them. */
  type OrderedDict<K(==, !new), V> = d: Dict<K, V> | Enumerates(d.keys, d.vals.Keys) witness Dict([], map[])

  /** The facts the type gives about one dictionary. */
  lemma KeysOf<K(!new), V>(d: OrderedDict<K, V>)
    ensures Distinct(d.keys)
    ensures forall i :: 0 <= i < |d.keys| ==> d.keys[i] in d.vals
    ensures forall k :: k in d.vals ==> k in d.keys
  {
    forall i, j | 0 <= i < j < |d.keys|
      ensures d.keys[i] != d.keys[j]
    {
      assert Asked(j) && d.keys[i] in d.keys[..j];
    }
    forall i | 0 <= i < |d.keys|
      ensures d.keys[i] in d.vals
    {
      assert Asked(i);
    }
    forall k | k in d.vals
      ensures k in d.keys
    {
      assert Asked(k);
    }
  }

  lemma DistinctEnumerates<K(!new)>(keys: seq<K>, names: set<K>)
    requires Distinct(keys)
    requires forall k :: k in names <==> k in keys
    ensures Enumerates(keys, names)
  {
  }

  /** d[k] = v : an existing key keeps its place, a new one goes last. */
  function Put<K(==, !new), V>(d: OrderedDict<K, V>, k: K, v: V): (r: OrderedDict<K, V>)
    ensures r.vals == d.vals[k := v]
    ensures r.keys == if k in d.vals then d.keys else d.keys + [k]
  {
    PutEnumerates(d, k, v);
    Dict(if k in d.vals then d.keys else d.keys + [k], d.vals[k := v])
  }

  lemma PutEnumerates<K(!new), V>(d: OrderedDict<K, V>, k: K, v: V)
    ensures Enumerates(if k in d.vals then d.keys else d.keys + [k], d.vals[k := v].Keys)
  {
    KeysOf(d);
    DistinctEnumerates(if k in d.vals then d.keys else d.keys + [k], d.vals[k := v].Keys);
  }

  /** del d[k], and d.pop(k) */
  function Remove<K(==, !new), V>(d: OrderedDict<K, V>, k: K): (r: OrderedDict<K, V>)
    ensures r.vals == d.vals - {k}
    ensures r.keys == RemoveFirst(d.keys, k)
  {
    RemoveEnumerates(d, k);
    Dict(RemoveFirst(d.keys, k), d.vals - {k})
  }

  lemma RemoveEnumerates<K(!new), V>(d: OrderedDict<K, V>, k: K)
    ensures Enumerates(RemoveFirst(d.keys, k), (d.vals - {k}).Keys)
  {
    KeysOf(d);
    RemoveFirstDistinct(d.keys, k);
    forall x
      ensures x in (d.vals - {k}).Keys <==> x in RemoveFirst(d.keys, k)
    {
      RemoveFirstMembers(d.keys, k, x);
    }
    DistinctEnumerates(RemoveFirst(d.keys, k), (d.vals - {k}).Keys);
  }

  lemma {:induction false} RemoveLast<T>(s: seq<T>, x: T)
    requires x !in s
    ensures RemoveFirst(s + [x], x) == s
  {
    if s != [] {
      RemoveLast(s[1..], x);
      assert (s + [x])[1..] == s[1..] + [x];
    }
  }

  /** Deleting a key that has just been added restores the dictionary, order included. */
  lemma RemovePut<K(!new), V>(d: OrderedDict<K, V>, k: K, v: V)
    requires k !in d.vals
    ensures Remove(Put(d, k, v), k) == d
  {
    KeysOf(d);
    RemoveLast(d.keys, k);
    assert d.vals[k := v] - {k} == d.vals;
  }

  /** Putting the old value back restores the dictionary. */
  lemma PutBack<K(!new), V>(d: OrderedDict<K, V>, k: K, v: V)
    requires k in d.vals
    ensures Put(Put(d, k, v), k, d.vals[k]) == d
  {
    assert d.vals[k := v][k := d.vals[k]] == d.vals;
  }

  /** The first n entries of d, in order. */
  function Prefix<K(==, !new), V>(d: OrderedDict<K, V>, n: nat): (r: OrderedDict<K, V>)
    requires n <= |d.keys|
    ensures r.keys == d.keys[..n]
  {
    KeysOf(d);
    var vals := map k | k in d.keys[..n] :: d.vals[k];
    DistinctEnumerates(d.keys[..n], vals.Keys);
    Dict(d.keys[..n], vals)
  }

  lemma PrefixAll<K(!new), V>(d: OrderedDict<K, V>)
    ensures Prefix(d, |d.keys|) == d
  {
    KeysOf(d);
    assert d.keys[..|d.keys|] == d.keys;
    assert Prefix(d, |d.keys|).vals == d.vals;
  }

  lemma PrefixNone<K(!new), V>(d: OrderedDict<K, V>)
    ensures Prefix(d, 0) == Dict([], map[])
  {
    assert Prefix(d, 0).vals == map[];
  }

  lemma NextKey<K(!new), V>(d: OrderedDict<K, V>, n: nat)
    requires n < |d.keys|
    ensures d.keys[n] in d.vals
    ensures d.keys[n] !in d.keys[..n]
    ensures d.keys[..n + 1] == d.keys[..n] + [d.keys[n]]
  {
    KeysOf(d);
  }

  /** Rebuilding a dictionary key by key, in order, reproduces it. */
  lemma PrefixStep<K(!new), V>(d: OrderedDict<K, V>, n: nat)
    requires n < |d.keys|
    ensures d.keys[n] in d.vals && d.keys[n] !in Prefix(d, n).vals
    ensures Prefix(d, n + 1) == Put(Prefix(d, n), d.keys[n], d.vals[d.keys[n]])
  {
    NextKey(d, n);
    var p, q, k := Prefix(d, n), Prefix(d, n + 1), d.keys[n];
    assert q.vals == p.vals[k := d.vals[k]] by {
      assert forall x :: x in q.keys <==> x in p.keys || x == k;
    }
  }
}
