/** Sums over the values of a finite map, and how they change with one entry. */
module Sums {

  ghost function Sum<K>(m: map<K, int>): int
    decreases |m|
  {
    if m == map[] then 0 else
    var k :| k in m;
    assert |m - {k}| < |m| by { Smaller(m, k); }
    m[k] + Sum(m - {k})
  }

  lemma {:induction false} Smaller<K>(m: map<K, int>, k: K)
    requires k in m
    ensures |m - {k}| < |m|
  {
    assert (m - {k}).Keys == m.Keys - {k};
  }

  lemma {:induction false} SumRemove<K>(m: map<K, int>, k: K)
    requires k in m
    ensures Sum(m) == m[k] + Sum(m - {k})
    decreases |m|
  {
    var c :| c in m && Sum(m) == m[c] + Sum(m - {c});
    if c != k {
      Smaller(m, c);
      Smaller(m, k);
      SumRemove(m - {c}, k);
      SumRemove(m - {k}, c);
      assert m - {c} - {k} == m - {k} - {c};
    }
  }

  lemma {:induction false} SumUpdate<K>(m: map<K, int>, k: K, v: int)
    ensures Sum(m[k := v]) == Sum(m) + v - (if k in m then m[k] else 0)
  {
    var n := m[k := v];
    SumRemove(n, k);
    if k in m {
      SumRemove(m, k);
      assert n - {k} == m - {k};
    } else {
      assert n - {k} == m;
    }
  }

  /** Entry-wise bounds carry over to the sums: `c * |m|` is the slack allowed. */
  lemma {:induction false} SumCompare<K>(m: map<K, int>, n: map<K, int>, c: int)
    requires m.Keys == n.Keys
    requires forall k | k in m :: m[k] <= n[k] + c
    ensures Sum(m) <= Sum(n) + c * |m|
    decreases |m|
  {
    if m != map[] {
      var k :| k in m;
      Smaller(m, k);
      SumRemove(m, k);
      SumRemove(n, k);
      assert (m - {k}).Keys == m.Keys - {k};
      SumCompare(m - {k}, n - {k}, c);
      assert |m - {k}| == |m| - 1;
      assert c * |m| == c * (|m| - 1) + c;
    } else {
      assert n == map[];
    }
  }

  lemma {:induction false} SumNonNegative<K>(m: map<K, int>)
    requires forall k | k in m :: 0 <= m[k]
    ensures 0 <= Sum(m)
    ensures forall k | k in m :: m[k] <= Sum(m)
    decreases |m|
  {
    forall k | k in m ensures 0 <= Sum(m - {k}) && m[k] <= Sum(m) {
      Smaller(m, k);
      SumNonNegative(m - {k});
      SumRemove(m, k);
    }
    if m != map[] {
      var k :| k in m;
      assert m[k] <= Sum(m);
    }
  }

  lemma {:induction false} SumAdd<K>(m: map<K, int>, n: map<K, int>, s: map<K, int>)
    requires m.Keys == n.Keys == s.Keys
    requires forall k | k in m :: n[k] == m[k] + s[k]
    ensures Sum(n) == Sum(m) + Sum(s)
    decreases |m|
  {
    if m != map[] {
      var k :| k in m;
      Smaller(m, k);
      SumRemove(m, k);
      SumRemove(n, k);
      SumRemove(s, k);
      assert (m - {k}).Keys == (n - {k}).Keys == (s - {k}).Keys;
      SumAdd(m - {k}, n - {k}, s - {k});
    } else {
      assert n == map[] && s == map[];
    }
  }

  lemma {:induction false} Distribute(c: int, a: int, b: int)
    ensures c * (a + b) == c * a + c * b
  {}

  lemma {:induction false} SumTimes<K>(s: map<K, int>, p: map<K, int>, c: int)
    requires s.Keys == p.Keys
    requires forall k | k in s :: p[k] == c * s[k]
    ensures Sum(p) == c * Sum(s)
    decreases |s|
  {
    if s != map[] {
      var k :| k in s;
      Smaller(s, k);
      SumRemove(s, k);
      SumRemove(p, k);
      assert (s - {k}).Keys == (p - {k}).Keys;
      SumTimes(s - {k}, p - {k}, c);
      Distribute(c, s[k], Sum(s - {k}));
    } else {
      assert p == map[];
    }
  }
}
