/** Sums over the values of a finite map. */
module MapSum {

  ghost function Sum(m: map<string, int>): int {
    if m == map[] then 0
    else
      var k :| k in m;
      m[k] + Sum(m - {k})
  }

  /** The sum does not depend on the order in which the keys are taken. */
  lemma {:induction false} SumWithout(m: map<string, int>, k: string)
    requires k in m
    ensures Sum(m) == m[k] + Sum(m - {k})
    decreases |m|
  {
    var first :| first in m && Sum(m) == m[first] + Sum(m - {first});
    if first != k {
      SumWithout(m - {first}, k);
      SumWithout(m - {k}, first);
      assert m - {first} - {k} == m - {k} - {first};
    }
  }

  lemma SumUpdate(m: map<string, int>, k: string, v: int)
    ensures Sum(m[k := v]) == Sum(m) - (if k in m then m[k] else 0) + v
  {
    SumWithout(m[k := v], k);
    assert m[k := v] - {k} == m - {k};
    if k in m {
      SumWithout(m, k);
    } else {
      assert m - {k} == m;
    }
  }

  lemma {:induction false} SumMonotone(m: map<string, int>, n: map<string, int>)
    requires m.Keys == n.Keys && forall k :: k in m ==> m[k] <= n[k]
    ensures Sum(m) <= Sum(n)
    decreases |m|
  {
    if m == map[] {
      assert n == map[];
    } else {
      var k :| k in m;
      SumWithout(m, k);
      SumWithout(n, k);
      SumMonotone(m - {k}, n - {k});
    }
  }

  function At(m: map<string, int>, k: string): int {
    if k in m then m[k] else 0
  }

  lemma SumAt(m: map<string, int>, k: string)
    ensures Sum(m) == At(m, k) + Sum(m - {k})
  {
    if k in m {
      SumWithout(m, k);
    } else {
      assert m - {k} == m;
    }
  }

  /** n adds one to m at every key of ids, and counts a key that m lacks from zero. */
  ghost predicate Bumped(m: map<string, int>, n: map<string, int>, ids: set<string>) {
    m.Keys <= n.Keys && ids <= n.Keys && forall k :: k in n ==> n[k] == At(m, k) + if k in ids then 1 else 0
  }

  lemma {:induction false} SumBumps(m: map<string, int>, n: map<string, int>, ids: set<string>)
    requires Bumped(m, n, ids)
    ensures Sum(n) == Sum(m) + |ids|
    decreases |n|
  {
    hide Sum;
    if n == map[] {
      assert m == map[] && ids == {};
    } else {
      var k :| k in n;
      SumAt(m, k);
      SumAt(n, k);
      SumBumps(m - {k}, n - {k}, ids - {k});
      assert k in ids ==> |ids| == |ids - {k}| + 1;
      assert k !in ids ==> ids - {k} == ids;
    }
  }

  lemma SumStrictlyMonotone(m: map<string, int>, n: map<string, int>, k: string)
    requires m.Keys == n.Keys && (forall x :: x in m ==> m[x] <= n[x]) && k in m && m[k] < n[k]
    ensures Sum(m) < Sum(n)
  {
    SumUpdate(n, k, m[k]);
    SumMonotone(m, n[k := m[k]]);
  }
}
