/** Sums of the values of a finite map. */
module Sums {

  ghost function Sum(m: map<nat, nat>): nat
    decreases |m|
  {
    if m == map[] then 0
    else
      var k :| k in m;
      Smaller(m, k);
      m[k] + Sum(m - {k})
  }

  lemma Smaller(m: map<nat, nat>, k: nat)
    requires k in m
    ensures |m - {k}| < |m|
  {
    assert m == (m - {k})[k := m[k]];
  }

  /** Any key can be taken out first. */
  lemma {:induction false} SumWithout(m: map<nat, nat>, k: nat)
    requires k in m
    ensures Sum(m) == m[k] + Sum(m - {k})
    decreases |m|
  {
    var x :| x in m && Sum(m) == m[x] + Sum(m - {x});
    if x != k {
      Smaller(m, x);
      Smaller(m, k);
      SumWithout(m - {x}, k);
      SumWithout(m - {k}, x);
      assert m - {x} - {k} == m - {k} - {x};
    }
  }

  lemma SumChanged(m: map<nat, nat>, k: nat, v: nat)
    ensures Sum(m[k := v]) == Sum(m - {k}) + v
    ensures k in m ==> Sum(m) == Sum(m - {k}) + m[k]
    ensures k !in m ==> m - {k} == m
  {
    SumWithout(m[k := v], k);
    assert m[k := v] - {k} == m - {k};
    if k in m {
      SumWithout(m, k);
    }
  }

  /** Adding new keys with the same value each. */
  lemma {:induction false} SumAdded(m: map<nat, nat>, ids: set<nat>, value: nat)
    requires m.Keys !! ids
    ensures Sum(m + Each(ids, value)) == Sum(m) + value * |ids|
    decreases |ids|
  {
    if k :| k in ids {
      var rest := ids - {k};
      SumAdded(m, rest, value);
      OneMore(m, rest, k, value);
      assert ids == rest + {k};
      Times(value, |rest|);
    } else {
      assert m + Each(ids, value) == m;
    }
  }

  lemma Times(value: nat, n: nat)
    ensures value * (n + 1) == value * n + value
  {
  }

  ghost function Each(ids: set<nat>, value: nat): map<nat, nat> { map k | k in ids :: value }

  lemma OneMore(m: map<nat, nat>, ids: set<nat>, k: nat, value: nat)
    requires k !in m && k !in ids
    ensures Sum(m + Each(ids + {k}, value)) == Sum(m + Each(ids, value)) + value
  {
    var less := m + Each(ids, value);
    assert m + Each(ids + {k}, value) == less[k := value];
    SumChanged(less, k, value);
  }
}
