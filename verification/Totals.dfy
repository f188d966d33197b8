/** Sums over the values of a map, which no visiting order can change. */
module Totals {

  ghost function Total(m: map<string, nat>): nat
    decreases |m|
  {
    if m == map[] then 0
    else
      var k :| k in m;
      m[k] + Total(m - {k})
  }

  lemma {:induction false} TotalSplit(m: map<string, nat>, k: string)
    requires k in m
    ensures Total(m) == m[k] + Total(m - {k})
    decreases |m|
  {
    var first :| first in m && Total(m) == m[first] + Total(m - {first});
    if first != k {
      TotalSplit(m - {first}, k);
      TotalSplit(m - {k}, first);
      assert m - {first} - {k} == m - {k} - {first};
    }
  }

  lemma TotalUpdate(m: map<string, nat>, k: string, v: nat)
    requires k in m
    ensures Total(m[k := v]) == Total(m) - m[k] + v
    ensures m[k] <= Total(m)
  {
    TotalSplit(m, k);
    TotalSplit(m[k := v], k);
    assert m[k := v] - {k} == m - {k};
  }

  lemma TotalAdd(m: map<string, nat>, k: string, v: nat)
    requires k !in m
    ensures Total(m[k := v]) == Total(m) + v
  {
    TotalSplit(m[k := v], k);
    assert m[k := v] - {k} == m;
  }

  lemma {:induction false} TotalLeq(m: map<string, nat>, m': map<string, nat>)
    requires m.Keys <= m'.Keys && forall k :: k in m ==> m[k] <= m'[k]
    ensures Total(m) <= Total(m')
    decreases |m'|
  {
    if m' != map[] {
      var k :| k in m';
      TotalSplit(m', k);
      if k in m {
        TotalSplit(m, k);
      } else {
        assert m - {k} == m;
      }
      TotalLeq(m - {k}, m' - {k});
    }
  }

  lemma {:induction false} TotalZero(m: map<string, nat>)
    requires forall k :: k in m ==> m[k] == 0
    ensures Total(m) == 0
    decreases |m|
  {
    if m != map[] {
      var k :| k in m;
      TotalSplit(m, k);
      TotalZero(m - {k});
    }
  }

  lemma {:induction false} TotalCounts(m: map<string, nat>)
    requires forall k :: k in m ==> m[k] >= 1
    ensures Total(m) >= |m|
    decreases |m|
  {
    if m != map[] {
      var k :| k in m;
      TotalSplit(m, k);
      TotalCounts(m - {k});
      assert |m - {k}| == |m| - 1 by {
        assert (m - {k}).Keys == m.Keys - {k};
        assert |(m - {k}).Keys| == |m - {k}| && |m.Keys| == |m|;
      }
    }
  }

  /** Visiting `k` next. */
  lemma TotalVisit(m: map<string, nat>, left: set<string>, k: string)
    requires k in m && k in left
    ensures Total(m - (left - {k})) == Total(m - left) + m[k] <= Total(m)
  {
    TotalAdd(m - left, k, m[k]);
    assert (m - left)[k := m[k]] == m - (left - {k});
    TotalLeq(m - (left - {k}), m);
  }
}
