/** The upsert that both cost tables perform in place: overwrite the cost of
    a present opcode (`get_mut`), or insert an absent one (`insert`). */
module Tables {

  /** The table after upserting `v` at key `k`. */
  function Upserted<K, V>(m: map<K, V>, k: K, v: V): (r: map<K, V>)
    ensures r.Keys == m.Keys + {k}
    ensures k in r && r[k] == v
    ensures forall j :: j in m && j != k ==> r[j] == m[j]
  {
    m[k := v]
  }

  /** Upserting a present key keeps the domain; an absent key grows it by one. */
  lemma UpsertedSize<K, V>(m: map<K, V>, k: K, v: V)
    ensures k in m ==> |Upserted(m, k, v)| == |m|
    ensures k !in m ==> |Upserted(m, k, v)| == |m| + 1
  {
    var r := Upserted(m, k, v);
    if k in m {
      assert r.Keys == m.Keys;
    } else {
      assert r.Keys == m.Keys + {k};
    }
  }

  /** Upserting the same entry twice is the same as upserting it once. */
  lemma UpsertedIdempotent<K, V>(m: map<K, V>, k: K, v: V)
    ensures Upserted(Upserted(m, k, v), k, v) == Upserted(m, k, v)
  {
  }

  /** Upserts at different keys commute. */
  lemma UpsertedCommute<K, V>(m: map<K, V>, k1: K, v1: V, k2: K, v2: V)
    requires k1 != k2
    ensures Upserted(Upserted(m, k1, v1), k2, v2) == Upserted(Upserted(m, k2, v2), k1, v1)
  {
  }
}
