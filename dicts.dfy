/** Python's None-or-value and its insertion-ordered dict. A dict is the
    sequence of its entries in insertion order; assigning to a key that is
    already present replaces the value where the key stands, assigning to a
    new key appends an entry. Every dict built by Put has distinct keys. */
module Dicts {

  datatype Option<+T> = None | Some(value: T)

  type Dict<K, V> = seq<(K, V)>

  function Keys<K, V>(d: Dict<K, V>): (ks: seq<K>)
    ensures |ks| == |d|
    ensures forall i :: 0 <= i < |d| ==> ks[i] == d[i].0
  {
    if d == [] then [] else [d[0].0] + Keys(d[1..])
  }

  predicate Distinct<T(==)>(s: seq<T>)
  {
    forall i, j :: 0 <= i < j < |s| ==> s[i] != s[j]
  }

  lemma DistinctPrefix<T>(s: seq<T>, n: nat)
    requires Distinct(s) && n <= |s|
    ensures Distinct(s[..n])
  {
  }

  /** d[k], or None where Python would raise KeyError. */
  function Lookup<K(==), V>(d: Dict<K, V>, k: K): (r: Option<V>)
    ensures r.None? <==> k !in Keys(d)
  {
    if d == [] then None
    else if d[0].0 == k then Some(d[0].1)
    else Lookup(d[1..], k)
  }

  /** d[k] = v. */
  function Put<K(==), V>(d: Dict<K, V>, k: K, v: V): (r: Dict<K, V>)
    ensures Keys(r) == if k in Keys(d) then Keys(d) else Keys(d) + [k]
    ensures k !in Keys(d) ==> r == d + [(k, v)]
  {
    if d == [] then [(k, v)]
    else if d[0].0 == k then [(k, v)] + d[1..]
    else
      var rest := Put(d[1..], k, v);
      assert Keys(d) == [d[0].0] + Keys(d[1..]);
      assert Keys([d[0]] + rest) == [d[0].0] + Keys(rest);
      [d[0]] + rest
  }

  /** After d[k] = v, d[k] is v and every other key reads as before. */
  lemma {:induction false} LookupPut<K, V>(d: Dict<K, V>, k: K, v: V, j: K)
    ensures Lookup(Put(d, k, v), j) == if j == k then Some(v) else Lookup(d, j)
  {
    if d != [] && d[0].0 != k {
      LookupPut(d[1..], k, v, j);
    }
  }

  /** The elements of xs that do not occur earlier in xs, in order: the
      order in which a dict first sees its keys. */
  function FirstOccurrences<T(==)>(xs: seq<T>): seq<T>
  {
    if xs == [] then []
    else
      var prefix := xs[..|xs| - 1];
      FirstOccurrences(prefix) + (if xs[|xs| - 1] in prefix then [] else [xs[|xs| - 1]])
  }

  lemma {:induction false} FirstOccurrencesSpec<T>(xs: seq<T>)
    ensures Distinct(FirstOccurrences(xs))
    ensures forall x :: x in FirstOccurrences(xs) <==> x in xs
  {
    if xs != [] {
      var prefix := xs[..|xs| - 1];
      FirstOccurrencesSpec(prefix);
      assert xs == prefix + [xs[|xs| - 1]];
    }
  }
}
