/** A map whose keys are visited in the order in which they were first put, as in JavaScript. */
module OrderedMap {
  function Without<T(==,!new)>(s: seq<T>, t: T): (r: seq<T>)
    ensures forall x :: x in r <==> x in s && x != t
  {
    if s == [] then []
    else Without(s[..|s| - 1], t) + if s[|s| - 1] == t then [] else [s[|s| - 1]]
  }

  datatype Dict<K(==,!new), V> = Dict(keys: seq<K>, at: map<K, V>) {
    ghost predicate Valid() {
      forall k :: k in keys <==> k in at
    }

    predicate Has(k: K) {
      k in at
    }

    function Get(k: K): V
      requires Has(k)
    {
      at[k]
    }

    function Put(k: K, v: V): (d: Dict<K, V>)
      ensures forall x :: d.Has(x) <==> Has(x) || x == k
      ensures forall x :: d.Has(x) ==> d.Get(x) == if x == k then v else Get(x)
      ensures Valid() ==> d.Valid()
    {
      Dict(if k in at then keys else keys + [k], at[k := v])
    }

    function Delete(k: K): (d: Dict<K, V>)
      ensures forall x :: d.Has(x) <==> Has(x) && x != k
      ensures forall x :: d.Has(x) ==> d.Get(x) == Get(x)
      ensures Valid() ==> d.Valid()
    {
      Dict(Without(keys, k), at - {k})
    }
  }

  /** The empty map of each type. */
  function Empty<K(!new), V>(): (d: Dict<K, V>)
    ensures d.Valid() && d.keys == []
  {
    Dict([], map[])
  }

  lemma NothingLeft<K(!new), V>(d: Dict<K, V>)
    requires d.Valid() && forall k :: !d.Has(k)
    ensures d.keys == []
  {
    if d.keys != [] {
      assert d.keys[0] in d.keys && d.Has(d.keys[0]);
    }
  }
}
