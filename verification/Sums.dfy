/** Sums over maps: what a ledger of many owners, orders or markets adds up to. */
module Sums {

  ghost function SumBy<K, V>(m: map<K, V>, f: (K, V) -> int): int
    decreases |m|
  {
    if m == map[] then 0 else
    var k :| k in m;
    f(k, m[k]) + SumBy(m - {k}, f)
  }

  lemma SumNone<K, V>(f: (K, V) -> int)
    ensures SumBy<K, V>(map[], f) == 0
  {
  }

  lemma {:induction false} SumRemove<K, V>(m: map<K, V>, k: K, f: (K, V) -> int)
    requires k in m
    ensures SumBy(m, f) == f(k, m[k]) + SumBy(m - {k}, f)
    decreases |m|
  {
    var first :| first in m && SumBy(m, f) == f(first, m[first]) + SumBy(m - {first}, f);
    if first != k {
      SumRemove(m - {first}, k, f);
      SumRemove(m - {k}, first, f);
      assert m - {first} - {k} == m - {k} - {first};
    }
  }

  lemma SumUpdate<K, V>(m: map<K, V>, k: K, v: V, f: (K, V) -> int)
    ensures SumBy(m[k := v], f) == SumBy(m, f) + f(k, v) - (if k in m then f(k, m[k]) else 0)
  {
    SumRemove(m[k := v], k, f);
    assert m[k := v] - {k} == m - {k};
    if k in m {
      SumRemove(m, k, f);
    } else {
      assert m - {k} == m;
    }
  }

  lemma {:induction false} SumNonNegative<K, V>(m: map<K, V>, f: (K, V) -> int)
    requires forall k | k in m :: f(k, m[k]) >= 0
    ensures SumBy(m, f) >= 0
    decreases |m|
  {
    if m != map[] {
      var k :| k in m && SumBy(m, f) == f(k, m[k]) + SumBy(m - {k}, f);
      SumNonNegative(m - {k}, f);
    }
  }

  /** No entry of non-negative entries exceeds the sum. */
  lemma SumAtLeast<K, V>(m: map<K, V>, k: K, f: (K, V) -> int)
    requires k in m && forall k | k in m :: f(k, m[k]) >= 0
    ensures SumBy(m, f) >= f(k, m[k])
  {
    SumRemove(m, k, f);
    SumNonNegative(m - {k}, f);
  }

  lemma SumAtLeastTwo<K, V>(m: map<K, V>, k: K, l: K, f: (K, V) -> int)
    requires k in m && l in m && k != l && forall k | k in m :: f(k, m[k]) >= 0
    ensures SumBy(m, f) >= f(k, m[k]) + f(l, m[l])
  {
    SumRemove(m, k, f);
    SumAtLeast(m - {k}, l, f);
  }

  lemma {:induction false} SumZero<K, V>(m: map<K, V>, f: (K, V) -> int)
    requires forall k | k in m :: f(k, m[k]) == 0
    ensures SumBy(m, f) == 0
    decreases |m|
  {
    if m != map[] {
      var k :| k in m && SumBy(m, f) == f(k, m[k]) + SumBy(m - {k}, f);
      SumZero(m - {k}, f);
    }
  }

  lemma {:induction false} SumSame<K, V>(m: map<K, V>, f: (K, V) -> int, g: (K, V) -> int)
    requires forall k | k in m :: f(k, m[k]) == g(k, m[k])
    ensures SumBy(m, f) == SumBy(m, g)
    decreases |m|
  {
    if m != map[] {
      var k :| k in m && SumBy(m, f) == f(k, m[k]) + SumBy(m - {k}, f);
      SumRemove(m, k, g);
      SumSame(m - {k}, f, g);
    }
  }
}
