/** The per-tick accumulation structures of the market: Unity's `NativeMultiHashMap` and
    `NativeQueue`, on plain maps and sequences. */
module MultiMaps {

  /** The values stored under `k`, in insertion order. */
  function ValuesOf<K, V>(m: map<K, seq<V>>, k: K): seq<V>
  {
    if k in m then m[k] else []
  }

  /** A multi-valued map: every key holds the sequence of values added under it. */
  class MultiMap<K(==), V> {
    var entries: map<K, seq<V>>

    constructor ()
      ensures entries == map[]
    {
      entries := map[];
    }

    function Values(k: K): seq<V>
      reads this
    {
      ValuesOf(entries, k)
    }

    /** `Add(key, value)`: the value joins the end of the key's sequence; nothing else changes. */
    method Add(k: K, v: V)
      modifies this
      ensures entries == old(entries)[k := old(Values(k)) + [v]]
      ensures Values(k) == old(Values(k)) + [v]
      ensures forall k' :: k' != k ==> ValuesOf(entries, k') == ValuesOf(old(entries), k')
    {
      entries := entries[k := Values(k) + [v]];
    }

    /** `Clear()`. */
    method Clear()
      modifies this
      ensures entries == map[]
      ensures forall k :: ValuesOf(entries, k) == []
    {
      entries := map[];
    }
  }

  /** A first-in first-out queue. */
  class Queue<V> {
    var items: seq<V>

    constructor ()
      ensures items == []
    {
      items := [];
    }

    method Enqueue(v: V)
      modifies this
      ensures items == old(items) + [v]
    {
      items := items + [v];
    }

    method Clear()
      modifies this
      ensures items == []
    {
      items := [];
    }
  }
}
