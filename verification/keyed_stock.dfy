/** An ordered collection of units per key: the shape shared by an agent's
    inventory in the planner and by `Inventory` in the economy model. */
module KeyedStock {

  /** The units held under `k`; no entry reads as an empty list. */
  function Get<K, V>(m: map<K, seq<V>>, k: K): seq<V> {
    if k in m then m[k] else []
  }

  /** Append `v` at the end of the units under `k`, creating the entry if needed. */
  function Append<K(!new), V>(m: map<K, seq<V>>, k: K, v: V): (r: map<K, seq<V>>)
    ensures Get(r, k) == Get(m, k) + [v]
    ensures forall j :: j != k ==> Get(r, j) == Get(m, j)
    ensures r.Keys == m.Keys + {k}
  {
    m[k := Get(m, k) + [v]]
  }
}
