/** Sums over the values of a finite map, independent of the order in which keys are visited. */
module Totals {
  import opened Amounts

  ghost function Total<K>(m: map<K, int>): int {
    if m == map[] then 0
    else var k :| k in m; m[k] + Total(m - {k})
  }

  ghost predicate NonNegative<K>(m: map<K, int>) {
    forall k :: k in m ==> 0 <= m[k]
  }

  lemma {:induction false} TotalRemove<K>(m: map<K, int>, k: K)
    requires k in m
    ensures Total(m) == m[k] + Total(m - {k})
    decreases |m|
  {
    var j :| j in m && Total(m) == m[j] + Total(m - {j});
    if j != k {
      TotalRemove(m - {j}, k);
      TotalRemove(m - {k}, j);
      assert m - {j} - {k} == m - {k} - {j};
    }
  }

  lemma TotalUpdate<K>(m: map<K, int>, k: K, v: int)
    ensures Total(m[k := v]) == Total(m) - Get(m, k) + v
  {
    TotalRemove(m[k := v], k);
    assert m[k := v] - {k} == m - {k};
    if k in m {
      TotalRemove(m, k);
    } else {
      assert m - {k} == m;
    }
  }

  /** Non-negative entries never exceed their total. */
  lemma {:induction false} TotalBounds<K>(m: map<K, int>)
    requires NonNegative(m)
    ensures 0 <= Total(m)
    ensures forall k :: k in m ==> m[k] <= Total(m)
    decreases |m|
  {
    if m != map[] {
      var j :| j in m && Total(m) == m[j] + Total(m - {j});
      TotalBounds(m - {j});
      forall k | k in m ensures m[k] <= Total(m) {
        if k != j {
          assert k in m - {j};
        }
      }
    }
  }

  /** Moving one key from the unvisited keys into the visited part adds its entry. */
  lemma TotalVisit<K>(m: map<K, int>, left: set<K>, k: K)
    requires k in m && k in left
    ensures Total(m - (left - {k})) == Total(m - left) + m[k]
  {
    var grown := m - (left - {k});
    TotalRemove(grown, k);
    assert grown - {k} == m - left;
  }

  /** The visited part of a non-negative map never exceeds the whole. */
  lemma {:induction false} TotalPart<K>(m: map<K, int>, left: set<K>)
    requires NonNegative(m)
    ensures 0 <= Total(m - left) <= Total(m)
    decreases left
  {
    TotalBounds(m - left);
    if k :| k in left {
      TotalPart(m, left - {k});
      if k in m {
        TotalVisit(m, left, k);
      } else {
        assert m - left == m - (left - {k});
      }
    } else {
      assert m - left == m;
    }
  }
}
