/** Maps built from sequences of entries; a later entry replaces an earlier one. */
module Maps {
  function MapOf<K, V>(es: seq<(K, V)>): map<K, V> {
    if es == [] then map[] else MapOf(es[..|es|-1])[es[|es|-1].0 := es[|es|-1].1]
  }

  /** Entries that agree with m and mention every key of it make up m. */
  lemma MapOfIs<K, V>(es: seq<(K, V)>, m: map<K, V>)
    requires forall i :: 0 <= i < |es| ==> es[i].0 in m && m[es[i].0] == es[i].1
    requires forall k :: k in m ==> exists i :: 0 <= i < |es| && es[i].0 == k
    ensures MapOf(es) == m
  {
    MapOfAgrees(es, m);
  }

  lemma {:induction false} MapOfAgrees<K, V>(es: seq<(K, V)>, m: map<K, V>)
    requires forall i :: 0 <= i < |es| ==> es[i].0 in m && m[es[i].0] == es[i].1
    ensures forall k :: k in MapOf(es) ==> k in m && MapOf(es)[k] == m[k]
    ensures forall i :: 0 <= i < |es| ==> es[i].0 in MapOf(es)
  {
    if es != [] { MapOfAgrees(es[..|es|-1], m); }
  }

  lemma MapOfNext<K, V>(es: seq<(K, V)>, e: (K, V))
    ensures MapOf(es + [e]) == MapOf(es)[e.0 := e.1]
  {
    assert (es + [e])[..|es|] == es;
  }
}
