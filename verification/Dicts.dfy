/** Python dictionaries: finite maps that remember the order in which their keys were inserted. */
module Dicts {

  datatype Dict<K(==), V> = Dict(keys: seq<K>, vals: map<K, V>) {
    ghost predicate Valid() {
      && (forall i, j | 0 <= i < j < |keys| :: keys[i] != keys[j])
      && (set k | k in keys) == vals.Keys
    }

    /** `d[k] = v`: an existing key keeps its place, a new key goes last. */
    function Put(k: K, v: V): Dict<K, V> {
      Dict(if k in vals then keys else keys + [k], vals[k := v])
    }

    lemma PutValid(k: K, v: V)
      requires Valid()
      ensures Put(k, v).Valid()
    {
    }

    /** Filling a dictionary along a list of distinct keys. */
    lemma PutNext(ks: seq<K>, i: nat, v: V)
      requires Valid() && i < |ks| && keys == ks[..i]
      requires forall a, b | 0 <= a < b < |ks| :: ks[a] != ks[b]
      ensures ks[i] !in vals
      ensures Put(ks[i], v).Valid() && Put(ks[i], v).keys == ks[..i + 1]
    {
    }

    lemma HasKey(k: K)
      requires Valid()
      ensures k in keys <==> k in vals
    {
    }
  }

  /** One more element of a list. */
  lemma PrefixMember<T>(s: seq<T>, n: nat, x: T)
    requires 0 < n <= |s|
    ensures x in s[..n] <==> x in s[..n - 1] || x == s[n - 1]
  {
  }

  function Empty<K, V>(): (d: Dict<K, V>)
    ensures d.Valid()
  {
    Dict([], map[])
  }
}
