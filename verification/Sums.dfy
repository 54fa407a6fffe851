/** Finite sums over the values of a map; the accounting arguments of the escrow rest on these. */
module Sums {
  import opened Prelude

  ghost function Sum<K>(m: map<K, nat>): nat
    decreases |m|
  {
    if m == map[] then 0
    else
      var k :| k in m;
      m[k] + Sum(m - {k})
  }

  lemma {:induction false} SumExtract<K>(m: map<K, nat>, k: K)
    requires k in m
    ensures Sum(m) == m[k] + Sum(m - {k})
    decreases |m|
  {
    var j :| j in m && Sum(m) == m[j] + Sum(m - {j});
    if j != k {
      SumExtract(m - {j}, k);
      SumExtract(m - {k}, j);
      assert m - {j} - {k} == m - {k} - {j};
    }
  }

  lemma SumRemove<K>(m: map<K, nat>, k: K)
    ensures Sum(m - {k}) == Sum(m) - Get(m, k)
  {
    if k in m {
      SumExtract(m, k);
    } else {
      assert m - {k} == m;
    }
  }

  lemma SumUpdate<K>(m: map<K, nat>, k: K, v: nat)
    ensures Sum(m[k := v]) == Sum(m) - Get(m, k) + v
  {
    SumExtract(m[k := v], k);
    SumRemove(m, k);
    assert m[k := v] - {k} == m - {k};
  }

  lemma ValueAtMostSum<K>(m: map<K, nat>, k: K)
    ensures Get(m, k) <= Sum(m)
  {
    SumRemove(m, k);
  }

  lemma TwoValuesAtMostSum<K>(m: map<K, nat>, j: K, k: K)
    requires j != k
    ensures Get(m, j) + Get(m, k) <= Sum(m)
  {
    SumRemove(m, k);
    ValueAtMostSum(m - {k}, j);
  }
}
