/** Sums over finite maps. */
module Sums {
  ghost function Total<K>(w: map<K, int>): int {
    if w == map[] then 0
    else
      var k :| k in w;
      w[k] + Total(w - {k})
  }

  /** The sum does not depend on the order in which keys are taken. */
  lemma {:induction false} TotalRemove<K>(w: map<K, int>, k: K)
    requires k in w
    ensures Total(w) == w[k] + Total(w - {k})
    decreases |w|
  {
    var j :| j in w && Total(w) == w[j] + Total(w - {j});
    if j != k {
      TotalRemove(w - {j}, k);
      TotalRemove(w - {k}, j);
      assert w - {j} - {k} == w - {k} - {j};
    }
  }

  lemma TotalUpdate<K>(w: map<K, int>, k: K, v: int)
    ensures Total(w[k := v]) == Total(w) - (if k in w then w[k] else 0) + v
  {
    TotalRemove(w[k := v], k);
    assert w[k := v] - {k} == w - {k};
    if k in w {
      TotalRemove(w, k);
    } else {
      assert w - {k} == w;
    }
  }

  /** A pointwise smaller map over fewer keys has a smaller sum. */
  lemma {:induction false} TotalMonotone<K>(w: map<K, int>, w': map<K, int>)
    requires forall k :: k in w' ==> 0 <= w'[k]
    requires forall k :: k in w ==> k in w' && w[k] <= w'[k]
    ensures Total(w) <= Total(w')
    decreases |w'|
  {
    if w' == map[] {
      assert w == map[];
    } else {
      var k :| k in w';
      TotalRemove(w', k);
      TotalMonotone(w - {k}, w' - {k});
      if k in w {
        TotalRemove(w, k);
      } else {
        assert w - {k} == w;
      }
    }
  }
}
