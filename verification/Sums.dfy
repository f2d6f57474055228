/** Totals over finite maps: what `sum(...)` over a table without an order means. */
module Sums {

  ghost function Total(m: map<nat, int>): int
    decreases |m|
  {
    if m == map[] then 0
    else var k :| k in m; m[k] + Total(m - {k})
  }

  /** The total does not depend on the order in which rows are visited. */
  lemma {:induction false} TotalPick(m: map<nat, int>, k: nat)
    requires k in m
    ensures Total(m) == m[k] + Total(m - {k})
    decreases |m|
  {
    var j :| j in m && Total(m) == m[j] + Total(m - {j});
    if j != k {
      assert (m - {j}) - {k} == (m - {k}) - {j};
      TotalPick(m - {j}, k);
      TotalPick(m - {k}, j);
    }
  }

  lemma TotalUpdate(m: map<nat, int>, k: nat, v: int)
    ensures Total(m[k := v]) == Total(m) + v - (if k in m then m[k] else 0)
  {
    TotalPick(m[k := v], k);
    assert m[k := v] - {k} == m - {k};
    if k in m {
      TotalPick(m, k);
    } else {
      assert m - {k} == m;
    }
  }

  lemma {:induction false} TotalAtLeastTwo(m: map<nat, int>, j: nat, k: nat)
    requires j in m && k in m && j != k
    requires forall i | i in m :: m[i] >= 0
    ensures Total(m) >= m[j] + m[k]
  {
    TotalPick(m, j);
    TotalPick(m - {j}, k);
    TotalIsNonNegative(m - {j} - {k});
  }

  lemma {:induction false} TotalIsNonNegative(m: map<nat, int>)
    requires forall i | i in m :: m[i] >= 0
    ensures Total(m) >= 0
    decreases |m|
  {
    if m != map[] {
      var k :| k in m;
      TotalPick(m, k);
      TotalIsNonNegative(m - {k});
    }
  }

  lemma {:induction false} TotalOfZeros(m: map<nat, int>)
    requires forall i | i in m :: m[i] == 0
    ensures Total(m) == 0
    decreases |m|
  {
    if m != map[] {
      var k :| k in m;
      TotalPick(m, k);
      TotalOfZeros(m - {k});
    }
  }
}
