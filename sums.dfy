/**
 * Sums of a real-valued measure over the entries of a map, used to state the
 * "subtract the old contribution, add the new one" invariants of the reserve
 * sync handlers: a factory total equals the sum over its pools, a token's
 * liquidity equals the sum of the reserves of the pools that hold it.
 */
module Sums {

  /** The sum of `f` over the entries of `m` whose keys are in `keys`. */
  ghost function SumKeys<K, V>(m: map<K, V>, keys: set<K>, f: V -> real): real
    requires keys <= m.Keys
    decreases keys
  {
    if keys == {} then 0.0
    else
      var k :| k in keys;
      f(m[k]) + SumKeys(m, keys - {k}, f)
  }

  /** The sum of `f` over every entry of `m`. */
  ghost function Sum<K, V>(m: map<K, V>, f: V -> real): real {
    SumKeys(m, m.Keys, f)
  }

  /** Any key may be taken out first: the sum does not depend on the order of the keys. */
  lemma {:induction false} SumKeysPick<K, V>(m: map<K, V>, keys: set<K>, f: V -> real, k: K)
    requires keys <= m.Keys && k in keys
    ensures SumKeys(m, keys, f) == f(m[k]) + SumKeys(m, keys - {k}, f)
    decreases keys
  {
    var j :| j in keys && SumKeys(m, keys, f) == f(m[j]) + SumKeys(m, keys - {j}, f);
    if j != k {
      SumKeysPick(m, keys - {j}, f, k);
      SumKeysPick(m, keys - {k}, f, j);
      assert keys - {j} - {k} == keys - {k} - {j};
    }
  }

  /** Two maps whose entries have the same measure on `keys` have the same sum over `keys`. */
  lemma {:induction false} SumKeysAgree<K, V>(m1: map<K, V>, m2: map<K, V>, keys: set<K>, f: V -> real)
    requires keys <= m1.Keys && keys <= m2.Keys
    requires forall k :: k in keys ==> f(m1[k]) == f(m2[k])
    ensures SumKeys(m1, keys, f) == SumKeys(m2, keys, f)
    decreases keys
  {
    if keys != {} {
      var k :| k in keys;
      SumKeysPick(m1, keys, f, k);
      SumKeysPick(m2, keys, f, k);
      SumKeysAgree(m1, m2, keys - {k}, f);
    }
  }

  /** Overwriting one entry changes the sum by the new measure minus the old one. */
  lemma SumUpdate<K, V>(m: map<K, V>, f: V -> real, k: K, v: V)
    requires k in m
    ensures Sum(m[k := v], f) == Sum(m, f) - f(m[k]) + f(v)
  {
    var m' := m[k := v];
    assert m'.Keys == m.Keys;
    SumKeysPick(m, m.Keys, f, k);
    SumKeysPick(m', m.Keys, f, k);
    SumKeysAgree(m, m', m.Keys - {k}, f);
  }

  /** Adding a new entry adds its measure to the sum. */
  lemma SumInsert<K, V>(m: map<K, V>, f: V -> real, k: K, v: V)
    requires k !in m
    ensures Sum(m[k := v], f) == Sum(m, f) + f(v)
  {
    var m' := m[k := v];
    assert m'.Keys - {k} == m.Keys;
    SumKeysPick(m', m'.Keys, f, k);
    SumKeysAgree(m, m', m.Keys, f);
  }

  /** A map whose every entry has measure zero sums to zero. */
  lemma {:induction false} SumKeysZero<K, V>(m: map<K, V>, keys: set<K>, f: V -> real)
    requires keys <= m.Keys
    requires forall k :: k in keys ==> f(m[k]) == 0.0
    ensures SumKeys(m, keys, f) == 0.0
    decreases keys
  {
    if keys != {} {
      var k :| k in keys;
      SumKeysPick(m, keys, f, k);
      SumKeysZero(m, keys - {k}, f);
    }
  }
}
