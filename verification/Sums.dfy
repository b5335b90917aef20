/** Totals over finite maps: the VRAM accounted to the managers of a pool. */
module Sums {

  ghost function Total<K(!new)>(m: map<K, real>): real
    decreases |m|
  {
    if m == map[] then 0.0
    else var k :| k in m; m[k] + Total(m - {k})
  }

  lemma {:induction false} TotalRemove<K(!new)>(m: map<K, real>, k: K)
    requires k in m
    ensures Total(m) == m[k] + Total(m - {k})
    decreases |m|
  {
    var j :| j in m && Total(m) == m[j] + Total(m - {j});
    if j != k {
      TotalRemove(m - {j}, k);
      assert (m - {j}) - {k} == (m - {k}) - {j};
      TotalRemove(m - {k}, j);
    }
  }

  lemma TotalInsert<K(!new)>(m: map<K, real>, k: K, v: real)
    requires k !in m
    ensures Total(m[k := v]) == Total(m) + v
  {
    TotalRemove(m[k := v], k);
    assert m[k := v] - {k} == m;
  }

  ghost predicate SubMap<K(!new)>(m: map<K, real>, n: map<K, real>) {
    forall k :: k in m ==> k in n && m[k] == n[k]
  }

  ghost predicate NonNegative<K(!new)>(m: map<K, real>) {
    forall k :: k in m ==> m[k] >= 0.0
  }

  lemma {:induction false} TotalMonotone<K(!new)>(m: map<K, real>, n: map<K, real>)
    requires SubMap(m, n) && NonNegative(n)
    ensures 0.0 <= Total(m) <= Total(n)
    decreases |n|
  {
    if n == map[] {
      assert m == map[];
    } else {
      var k :| k in n && Total(n) == n[k] + Total(n - {k});
      if k in m {
        TotalRemove(m, k);
        TotalMonotone(m - {k}, n - {k});
      } else {
        TotalMonotone(m, n - {k});
      }
    }
  }
}
