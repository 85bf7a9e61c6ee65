/** The keyed-store contract every repository of the system follows: a lookup
    that may find nothing, an upsert, and a delete that ignores a missing key.
    Each repository is a Dafny `map` from its key to the stored value. */
module Store {

  datatype Option<T> = None | Some(value: T)

  /** `findById`: the stored value, or None when nothing is stored under `k`. */
  function Find<K, V>(m: map<K, V>, k: K): (r: Option<V>)
    ensures r.Some? <==> k in m
    ensures r.Some? ==> r.value == m[k]
  {
    if k in m then Some(m[k]) else None
  }

  /** `save`: inserts, or replaces what is stored under the same key. */
  function Save<K, V>(m: map<K, V>, k: K, v: V): map<K, V>
  {
    m[k := v]
  }

  /** `delete`: removes the entry under `k`, if any. */
  function Delete<K, V>(m: map<K, V>, k: K): (r: map<K, V>)
    ensures r.Keys == m.Keys - {k}
    ensures forall j | j in r :: r[j] == m[j]
  {
    m - {k}
  }

  /** What was saved is found again, and every other key finds what it
      found before. */
  lemma SaveThenFind<K, V>(m: map<K, V>, k: K, v: V, other: K)
    ensures Find(Save(m, k, v), k) == Some(v)
    ensures other != k ==> Find(Save(m, k, v), other) == Find(m, other)
  {
  }

  /** Saving twice under one key keeps a single entry holding the later value:
      the store is an upsert, never a duplicate. */
  lemma SaveIsUpsert<K, V>(m: map<K, V>, k: K, v1: V, v2: V)
    ensures Save(Save(m, k, v1), k, v2) == Save(m, k, v2)
    ensures |Save(m, k, v2)| == if k in m then |m| else |m| + 1
  {
  }

  /** Deleting a missing key is a no-op; deleting a present one removes only it. */
  lemma DeleteMissingIsNoop<K, V>(m: map<K, V>, k: K, other: K)
    ensures k !in m ==> Delete(m, k) == m
    ensures Find(Delete(m, k), k) == None
    ensures other != k ==> Find(Delete(m, k), other) == Find(m, other)
  {
  }
}
