/** Sums of the values of finite maps, and sizes of finite sets. */
module Sums {
  ghost function SumOf<K>(m: map<K, nat>): nat
    decreases |m|
  {
    if m == map[] then 0
    else
      var k :| k in m;
      m[k] + SumOf(m - {k})
  }

  lemma {:induction false} SumTakesOut<K>(m: map<K, nat>, k: K)
    requires k in m
    ensures SumOf(m) == m[k] + SumOf(m - {k})
    decreases |m|
  {
    var j :| j in m && SumOf(m) == m[j] + SumOf(m - {j});
    if j != k {
      SumTakesOut(m - {j}, k);
      SumTakesOut(m - {k}, j);
      assert m - {j} - {k} == m - {k} - {j};
    }
  }

  lemma SumPutsIn<K>(m: map<K, nat>, k: K, v: nat)
    requires k !in m
    ensures SumOf(m[k := v]) == SumOf(m) + v
  {
    SumTakesOut(m[k := v], k);
    assert m[k := v] - {k} == m;
  }

  /** A map that injects into another with no larger values has no larger sum. */
  lemma {:induction false} SumOfInjected<A, B>(m: map<A, nat>, n: map<B, nat>, f: map<A, B>)
    requires forall a :: a in m ==> a in f && f[a] in n && m[a] <= n[f[a]]
    requires forall a, b :: a in m && b in m && f[a] == f[b] ==> a == b
    ensures SumOf(m) <= SumOf(n)
    decreases |m|
  {
    if m != map[] {
      var a :| a in m;
      SumTakesOut(m, a);
      SumTakesOut(n, f[a]);
      SumOfInjected(m - {a}, n - {f[a]}, f);
    }
  }
}
