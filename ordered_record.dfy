/**
 * A plain JavaScript object used as a dictionary from SKU to running total
 * (`const map1: Record<string, number> = {}`). Its properties enumerate in
 * insertion order: every key stored by the summariser starts with a letter,
 * so none is an array index (those would be enumerated first, numerically),
 * and none names a property inherited from `Object.prototype`.
 */
module OrderedRecord {

  /** `keys` is the enumeration order, `values` the stored numbers. */
  datatype Record<K(==,!new)> = Record(keys: seq<K>, values: map<K, int>) {

    /** Each key is enumerated once, and exactly the stored keys are enumerated. */
    ghost predicate Valid() {
      && (forall i, j :: 0 <= i < j < |keys| ==> keys[i] != keys[j])
      && (forall k :: k in values <==> k in keys)
    }

    /** `obj[k] || 0`: a missing key (`undefined`) reads as 0. */
    function Get(k: K): int {
      if k in values then values[k] else 0
    }

    /**
     * `obj[k] = v`: afterwards `k` reads as `v` and every other key as before;
     * a key already present keeps its place, a new key is enumerated last.
     */
    function Put(k: K, v: int): (r: Record<K>)
      ensures r.keys == if k in keys then keys else keys + [k]
      ensures r.Get(k) == v
      ensures forall k' :: k' != k ==> r.Get(k') == Get(k')
    {
      Record(if k in keys then keys else keys + [k], values[k := v])
    }

    /** Storing a key keeps each key enumerated once and the stored keys enumerated. */
    lemma PutValid(k: K, v: int)
      requires Valid()
      ensures Put(k, v).Valid()
    {
    }

    /** `Object.entries(obj)`: one `[key, value]` pair per key, in enumeration order. */
    function Entries(): (e: seq<(K, int)>)
      ensures |e| == |keys|
      ensures forall i :: 0 <= i < |e| ==> e[i].0 == keys[i] && e[i].1 == Get(keys[i])
    {
      seq(|keys|, i requires 0 <= i < |keys| => (keys[i], Get(keys[i])))
    }
  }

  /** `{}`. */
  function Empty<K(==,!new)>(): (r: Record<K>)
    ensures r.Valid() && r.keys == []
    ensures forall k :: r.Get(k) == 0
  {
    Record([], map[])
  }
}
