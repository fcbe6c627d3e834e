/** Joining one map into another key by key, and the steps a loop over the keys takes towards that. */
module Maps {

  /** The entries of both, those under the same key joined. */
  function Mixed<K, V>(a: map<K, V>, b: map<K, V>, join: (V, V) -> V): (m: map<K, V>)
    ensures m.Keys == a.Keys + b.Keys
  {
    map k | k in a.Keys + b.Keys :: if k !in b then a[k] else if k !in a then b[k] else join(a[k], b[k])
  }

  function MixedAt<K, V>(a: map<K, V>, b: map<K, V>, join: (V, V) -> V, k: K): V
    requires k in b
  {
    if k in a then join(a[k], b[k]) else b[k]
  }

  /** A loop that still has to take the keys in todo takes k next. */
  lemma MixStep<K, V>(a: map<K, V>, b: map<K, V>, join: (V, V) -> V, todo: set<K>, k: K)
    requires k in todo && todo <= b.Keys
    ensures var m := Mixed(a, b - todo, join);
            && (k in m <==> k in a) && (k in a ==> m[k] == a[k])
            && Mixed(a, b - (todo - {k}), join) == m[k := MixedAt(a, b, join, k)]
  {
  }

  lemma MixEnds<K, V>(a: map<K, V>, b: map<K, V>, join: (V, V) -> V)
    ensures Mixed(a, b - b.Keys, join) == a && Mixed(a, b - {}, join) == Mixed(a, b, join)
  {
    assert b - {} == b;
  }

  /** The entries of a, those under ks replaced by what f gives. */
  function Overlay<K, V>(a: map<K, V>, ks: set<K>, f: K -> V): (m: map<K, V>)
    ensures m.Keys == a.Keys + ks
  {
    map k | k in a.Keys + ks :: if k in ks then f(k) else a[k]
  }

  lemma OverlayStep<K, V>(a: map<K, V>, ks: set<K>, f: K -> V, todo: set<K>, k: K)
    requires k in todo && todo <= ks
    ensures var m := Overlay(a, ks - todo, f);
            && (k in m <==> k in a) && (k in a ==> m[k] == a[k])
            && Overlay(a, ks - (todo - {k}), f) == m[k := f(k)]
  {
  }

  lemma OverlayEnds<K, V>(a: map<K, V>, ks: set<K>, f: K -> V)
    ensures Overlay(a, ks - ks, f) == a && Overlay(a, ks - {}, f) == Overlay(a, ks, f)
  {
    assert ks - {} == ks;
  }
}
