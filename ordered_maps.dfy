/**
 * A JavaScript `Map` whose iteration order matters: a list of key/value pairs with
 * distinct keys, in first-insertion order. `set` on a present key replaces its value
 * in place; on a new key it appends.
 */
module OrderedMaps {
  import opened Wrappers
  import opened Grammars

  datatype Entry<K, V> = Entry(key: K, value: V)

  function MapKeys<K(==), V>(m: seq<Entry<K, V>>): (r: seq<K>)
    ensures |r| == |m| && forall i :: 0 <= i < |m| ==> r[i] == m[i].key
  {
    if |m| == 0 then [] else [m[0].key] + MapKeys(m[1..])
  }

  /** `m.get(k)`. */
  function MapGet<K(==), V>(m: seq<Entry<K, V>>, k: K): (r: Option<V>)
    ensures r.Some? <==> k in MapKeys(m)
  {
    if |m| == 0 then None else if m[0].key == k then Some(m[0].value) else MapGet(m[1..], k)
  }

  /** `m.set(k, v)`. */
  function MapPut<K(==), V>(m: seq<Entry<K, V>>, k: K, v: V): (r: seq<Entry<K, V>>)
  {
    if |m| == 0 then [Entry(k, v)]
    else if m[0].key == k then [Entry(k, v)] + m[1..]
    else [m[0]] + MapPut(m[1..], k, v)
  }

  /** After `set(k, v)`, `get(k)` is v and every other key reads as before. */
  lemma {:induction false} MapPutGet<K, V>(m: seq<Entry<K, V>>, k: K, v: V, k': K)
    ensures MapGet(MapPut(m, k, v), k') == if k' == k then Some(v) else MapGet(m, k')
  {
    if |m| > 0 && m[0].key != k {
      MapPutGet(m[1..], k, v, k');
    }
  }

  /** `set` keeps the key order, appending a key that is new. */
  lemma {:induction false} MapPutKeys<K, V>(m: seq<Entry<K, V>>, k: K, v: V)
    ensures MapKeys(MapPut(m, k, v)) == if k in MapKeys(m) then MapKeys(m) else MapKeys(m) + [k]
  {
    if |m| > 0 && m[0].key != k {
      MapPutKeys(m[1..], k, v);
      assert MapKeys(m) == [m[0].key] + MapKeys(m[1..]);
    }
  }

  /** Each entry of a map with distinct keys is what `get` returns for its key. */
  lemma {:induction false} MapGetEntry<K, V>(m: seq<Entry<K, V>>, i: nat)
    requires i < |m| && Distinct(MapKeys(m))
    ensures MapGet(m, m[i].key) == Some(m[i].value)
  {
    if i > 0 {
      assert MapKeys(m)[0] != MapKeys(m)[i];
      assert Distinct(MapKeys(m[1..])) by {
        forall a, b | 0 <= a < b < |m| - 1 ensures MapKeys(m[1..])[a] != MapKeys(m[1..])[b] {
          assert MapKeys(m)[a + 1] != MapKeys(m)[b + 1];
        }
      }
      MapGetEntry(m[1..], i - 1);
    }
  }
}
