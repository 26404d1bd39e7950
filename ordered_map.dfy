/**
 * A JavaScript object used as a dictionary: the values by key, and the keys
 * in the order they were first assigned (the order `Object.entries` gives
 * for keys that are not integer-like).
 */
module OrderedMap {

  datatype OMap<K(==,!new), V> = OMap(keys: seq<K>, vals: map<K, V>) {

    /** Every key is listed once, and exactly the keys with a value are listed. */
    ghost predicate Valid() {
      (forall i, j :: 0 <= i < j < |keys| ==> keys[i] != keys[j])
      && (forall k :: k in vals <==> k in keys)
    }

    /** Every listed key has a value: all a reader of `Object.entries` needs. */
    ghost predicate Keyed() {
      forall i :: 0 <= i < |keys| ==> keys[i] in vals
    }

    /** `obj[k] = v`: a new key goes to the end of the key order, an old one keeps its place. */
    function Put(k: K, v: V): OMap<K, V> {
      if k in vals then OMap(keys, vals[k := v]) else OMap(keys + [k], vals[k := v])
    }

    /** Assigning a key keeps every key listed once and exactly the assigned keys listed. */
    lemma PutKeepsValid(k: K, v: V)
      requires Valid()
      ensures Put(k, v).Valid()
    {
    }

    /** `Object.entries(obj)`. */
    function Entries(): (r: seq<(K, V)>)
      requires Valid()
      ensures |r| == |keys|
      ensures forall i :: 0 <= i < |r| ==> r[i] == (keys[i], vals[keys[i]])
    {
      seq(|keys|, i requires 0 <= i < |keys| => (keys[i], vals[keys[i]]))
    }

    /** The dictionary of the first `n` keys and their values. */
    function Prefix(n: nat): (r: OMap<K, V>)
      requires Valid() && n <= |keys|
      ensures r.Valid() && r.keys == keys[..n]
    {
      OMap(keys[..n], map k | k in keys[..n] :: vals[k])
    }

    /** Assigning the next entry to the dictionary of the first `n` keys gives that of the first
        `n + 1`: copying the entries one by one in key order, starting from `{}`, rebuilds the
        dictionary. */
    lemma PrefixStep(n: nat)
      requires Valid() && n < |keys|
      ensures Prefix(n).Put(keys[n], vals[keys[n]]) == Prefix(n + 1)
    {
      assert keys[..n + 1] == keys[..n] + [keys[n]];
      assert keys[n] !in keys[..n];
    }

    /** The dictionary of no keys is `{}`; that of all keys is the dictionary itself. */
    lemma PrefixEnds()
      requires Valid()
      ensures Prefix(0) == Empty() && Prefix(|keys|) == this
    {
      assert keys[..|keys|] == keys;
    }
  }

  /** `{}`. */
  function Empty<K(==,!new), V>(): (r: OMap<K, V>)
    ensures r.Valid() && r.keys == [] && r.vals == map[]
  {
    OMap([], map[])
  }
}
