/**
 * Collecting something from every value of a map, visiting the keys in no
 * particular order, as a Go `range` over a map does. The result is a
 * multiset, so the order the keys are visited in cannot show in it.
 */
module Bags {

  /** The union of `f(m[k])` over the keys `k` in `keys`. */
  ghost function SumOver<K, V, T>(m: map<K, V>, keys: set<K>, f: V -> multiset<T>): multiset<T>
    requires keys <= m.Keys
    decreases keys
  {
    if keys == {} then multiset{}
    else
      var k :| k in keys;
      f(m[k]) + SumOver(m, keys - {k}, f)
  }

  /** Whichever key is taken out first, the union is the same. */
  lemma {:induction false} SumOverPick<K, V, T>(m: map<K, V>, keys: set<K>, f: V -> multiset<T>, k: K)
    requires keys <= m.Keys && k in keys
    ensures SumOver(m, keys, f) == f(m[k]) + SumOver(m, keys - {k}, f)
    decreases keys
  {
    var j :| j in keys && SumOver(m, keys, f) == f(m[j]) + SumOver(m, keys - {j}, f);
    if j != k {
      SumOverPick(m, keys - {j}, f, k);
      SumOverPick(m, keys - {k}, f, j);
      assert keys - {j} - {k} == keys - {k} - {j};
    }
  }

  /** Only the values at the visited keys matter. */
  lemma {:induction false} SumOverFrame<K, V, T>(m: map<K, V>, m': map<K, V>, keys: set<K>, f: V -> multiset<T>)
    requires keys <= m.Keys && keys <= m'.Keys
    requires forall k :: k in keys ==> f(m[k]) == f(m'[k])
    ensures SumOver(m, keys, f) == SumOver(m', keys, f)
    decreases keys
  {
    if keys != {} {
      var k :| k in keys;
      SumOverPick(m, keys, f, k);
      SumOverPick(m', keys, f, k);
      SumOverFrame(m, m', keys - {k}, f);
    }
  }

  /**
   * Storing `v` under `k` (a new key, or replacing the old value) adds `extra`
   * to the union when `v` contributes what the old value did plus `extra`.
   */
  lemma SumOverUpdate<K, V, T>(m: map<K, V>, k: K, v: V, f: V -> multiset<T>, extra: multiset<T>)
    requires f(v) == (if k in m then f(m[k]) else multiset{}) + extra
    ensures SumOver(m[k := v], m[k := v].Keys, f) == SumOver(m, m.Keys, f) + extra
  {
    var m' := m[k := v];
    var rest := m.Keys - {k};
    assert m'.Keys - {k} == rest;
    SumOverPick(m', m'.Keys, f, k);
    SumOverFrame(m, m', rest, f);
    if k in m {
      SumOverPick(m, m.Keys, f, k);
    } else {
      assert m.Keys == rest;
    }
  }

  /** Visiting one more key adds that key's contribution. */
  lemma SumOverVisit<K, V, T>(m: map<K, V>, visited: set<K>, f: V -> multiset<T>, k: K)
    requires visited <= m.Keys && k in m && k !in visited
    ensures SumOver(m, visited + {k}, f) == f(m[k]) + SumOver(m, visited, f)
  {
    SumOverPick(m, visited + {k}, f, k);
    assert visited + {k} - {k} == visited;
  }

  /** Moving one key from the keys still to visit to the visited ones keeps the two apart and their union the same. */
  lemma MoveKey<K>(done: set<K>, keys: set<K>, k: K)
    requires done !! keys && k in keys
    ensures (done + {k}) !! (keys - {k}) && (done + {k}) + (keys - {k}) == done + keys
  {
  }
}
