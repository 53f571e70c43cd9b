/** Two-level dictionaries keyed by tenant and id, and the flat tables they stand for. */
module TenantStore {
  import opened Wrappers

  datatype Slot = Slot(tenant: string, id: string)

  type Nested<V> = map<string, map<string, V>>

  /** The table of a two-level dictionary: one entry per tenant and id. */
  ghost function Flat<V>(m: Nested<V>): map<Slot, V> {
    map t, k | t in m && k in m[t] :: Slot(t, k) := m[t][k]
  }

  lemma FlatAt<V>(m: Nested<V>, s: Slot)
    ensures s in Flat(m) <==> s.tenant in m && s.id in m[s.tenant]
    ensures s in Flat(m) ==> Flat(m)[s] == m[s.tenant][s.id]
  {
    assert s == Slot(s.tenant, s.id);
  }

  function Opened<V>(m: Nested<V>, t: string): (n: Nested<V>)
    ensures n.Keys == m.Keys + {t}
  {
    m[t := map[]]
  }

  /** Stores under a tenant whose dictionary is open; anything else would be a missing key. */
  function Stored<V>(m: Nested<V>, t: string, k: string, v: V): (n: Nested<V>)
    requires t in m
    ensures n.Keys == m.Keys
  {
    m[t := m[t][k := v]]
  }

  /** Opens the tenant's dictionary on its first entry, then stores. */
  function Put<V>(m: Nested<V>, t: string, k: string, v: V): (n: Nested<V>) {
    Stored(if t in m then m else Opened(m, t), t, k, v)
  }

  lemma PutAt<V>(m: Nested<V>, t: string, k: string, v: V, s: Slot)
    ensures s in Flat(Put(m, t, k, v)) <==> s in Flat(m) || s == Slot(t, k)
    ensures s in Flat(Put(m, t, k, v)) ==> Flat(Put(m, t, k, v))[s] == if s == Slot(t, k) then v else Flat(m)[s]
  {
    hide Flat;
    FlatAt(m, s);
    FlatAt(Put(m, t, k, v), s);
  }

  lemma PutIsUpdate<V>(m: Nested<V>, t: string, k: string, v: V)
    ensures Flat(Put(m, t, k, v)) == Flat(m)[Slot(t, k) := v]
  {
    hide Flat, Put;
    forall s: Slot
      ensures s in Flat(Put(m, t, k, v)) <==> s in Flat(m)[Slot(t, k) := v]
      ensures s in Flat(Put(m, t, k, v)) ==> Flat(Put(m, t, k, v))[s] == Flat(m)[Slot(t, k) := v][s]
    {
      PutAt(m, t, k, v, s);
    }
  }

  /** A lookup that finds nothing when either level lacks the key. */
  function Get<V>(m: Nested<V>, t: string, k: string): (r: Option<V>)
    ensures r == if Slot(t, k) in Flat(m) then Some(Flat(m)[Slot(t, k)]) else None
  {
    FlatAt(m, Slot(t, k));
    if t in m && k in m[t] then Some(m[t][k]) else None
  }
}
