/** A dictionary with string keys as the list of its items, in insertion order. */
module Dict {
  type Items<V> = seq<(string, V)>

  /** Assigning to a key that is present replaces its value and keeps its place. */
  function Put<V>(items: Items<V>, k: string, v: V): Items<V> {
    if items == [] then [(k, v)]
    else if items[0].0 == k then [(k, v)] + items[1..]
    else [items[0]] + Put(items[1..], k, v)
  }

  predicate Lacks<V(==)>(items: Items<V>, k: string) { forall p | p in items :: p.0 != k }

  lemma {:induction false} PutFresh<V>(items: Items<V>, k: string, v: V)
    requires Lacks(items, k)
    ensures Put(items, k, v) == items + [(k, v)]
  {
    if items != [] {
      PutFresh(items[1..], k, v);
      assert items == [items[0]] + items[1..];
    }
  }

  /** The new item is there, and every other key keeps its item. */
  lemma {:induction false} PutItems<V>(items: Items<V>, k: string, v: V)
    ensures (k, v) in Put(items, k, v)
    ensures forall p | p in items && p.0 != k :: p in Put(items, k, v)
    ensures forall p | p in Put(items, k, v) :: p in items || p == (k, v)
    ensures forall j | Lacks(items, j) && j != k :: Lacks(Put(items, k, v), j)
  {
    if items != [] {
      PutItems(items[1..], k, v);
    }
  }
}
