/**
  Sums of natural-number weights over the entries of a finite map. Every
  conservation law of the model is stated with such a sum.
*/
module MapSum {

  ghost function Sum<K, V>(m: map<K, V>, w: (K, V) -> nat): nat
    decreases |m|
  {
    if m == map[] then 0
    else
      var k :| k in m;
      assert (m - {k}).Keys == m.Keys - {k};
      w(k, m[k]) + Sum(m - {k}, w)
  }

  /** The sum does not depend on which entry is taken out first. */
  lemma {:induction false} SumRemove<K, V>(m: map<K, V>, k: K, w: (K, V) -> nat)
    requires k in m
    ensures Sum(m, w) == w(k, m[k]) + Sum(m - {k}, w)
    decreases |m|
  {
    var j :| j in m && Sum(m, w) == w(j, m[j]) + Sum(m - {j}, w);
    if j != k {
      assert (m - {j}).Keys == m.Keys - {j};
      assert (m - {k}).Keys == m.Keys - {k};
      SumRemove(m - {j}, k, w);
      SumRemove(m - {k}, j, w);
      assert m - {j} - {k} == m - {k} - {j};
    }
  }

  /** Weight of the entry at `k`, zero when there is none. */
  ghost function At<K, V>(m: map<K, V>, k: K, w: (K, V) -> nat): nat {
    if k in m then w(k, m[k]) else 0
  }

  lemma SumUpdate<K, V>(m: map<K, V>, k: K, v: V, w: (K, V) -> nat)
    ensures Sum(m[k := v], w) + At(m, k, w) == Sum(m, w) + w(k, v)
  {
    var m' := m[k := v];
    SumRemove(m', k, w);
    assert m' - {k} == m - {k};
    if k in m {
      SumRemove(m, k, w);
    } else {
      assert m - {k} == m;
    }
  }

  lemma SumDrop<K, V>(m: map<K, V>, k: K, w: (K, V) -> nat)
    ensures Sum(m - {k}, w) + At(m, k, w) == Sum(m, w)
  {
    if k in m {
      SumRemove(m, k, w);
    } else {
      assert m - {k} == m;
    }
  }

  lemma SumAtLeast<K, V>(m: map<K, V>, k: K, w: (K, V) -> nat)
    ensures At(m, k, w) <= Sum(m, w)
  {
    SumDrop(m, k, w);
  }
}
