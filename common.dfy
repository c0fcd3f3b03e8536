/** Small shared vocabulary: an optional value and the two dictionary
    operations the bot uses on its state maps (`dict.get` and
    "assign or pop"). */
module Common {

  datatype Option<+T> = None | Some(value: T)

  /** `d.get(k)` on a Python dictionary. */
  function Get<K, V>(m: map<K, V>, k: K): (r: Option<V>)
    ensures r.Some? <==> k in m
    ensures r.Some? ==> r.value == m[k]
  {
    if k in m then Some(m[k]) else None
  }

  /** Store `o` under `k` when it is present, remove `k` otherwise
      (`d[k] = v` or `d.pop(k, None)`); every other key keeps its entry. */
  function Put<K, V>(m: map<K, V>, k: K, o: Option<V>): (r: map<K, V>)
    ensures Get(r, k) == o
    ensures r.Keys - {k} == m.Keys - {k}
    ensures forall j :: j in m && j != k ==> j in r && r[j] == m[j]
  {
    match o
    case Some(v) => m[k := v]
    case None => m - {k}
  }

  /** Putting back what was read changes nothing. */
  lemma PutGet<K, V>(m: map<K, V>, k: K)
    ensures Put(m, k, Get(m, k)) == m
  {
  }

  /** A second store under the same key overrides the first. */
  lemma PutPut<K, V>(m: map<K, V>, k: K, a: Option<V>, b: Option<V>)
    ensures Put(Put(m, k, a), k, b) == Put(m, k, b)
  {
  }
}
