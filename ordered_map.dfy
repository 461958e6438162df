/**
 * Python's insertion-ordered `dict` from keys to lists, as a sequence of
 * (key, list) pairs whose keys are distinct; the position of a pair is the
 * order in which its key was first inserted.
 */
module OrderedMap {

  /** `list(d.keys())` */
  function Keys<K, V>(m: seq<(K, V)>): (ks: seq<K>)
    ensures |ks| == |m|
    ensures forall i :: 0 <= i < |m| ==> ks[i] == m[i].0
  {
    seq(|m|, i requires 0 <= i < |m| => m[i].0)
  }

  /** `xs.index(x)`: the first position holding x. */
  function IndexOf<T(==)>(xs: seq<T>, x: T): (k: nat)
    requires x in xs
    ensures k < |xs| && xs[k] == x
    ensures forall j :: 0 <= j < k ==> xs[j] != x
  {
    if xs[0] == x then 0 else 1 + IndexOf(xs[1..], x)
  }

  /** `d.get(k, [])` */
  function Get<K(==), V>(m: seq<(K, seq<V>)>, k: K): seq<V>
  {
    if k in Keys(m) then m[IndexOf(Keys(m), k)].1 else []
  }

  /** The total number of list entries, `sum(len(v) for v in d.values())`. */
  function TotalLength<K, V>(m: seq<(K, seq<V>)>): nat
  {
    if |m| == 0 then 0 else TotalLength(m[..|m| - 1]) + |m[|m| - 1].1|
  }
}
