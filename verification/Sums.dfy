/** Sums over the values of a map. */
module Sums {

  ghost function Pick<K, V>(m: map<K, V>): (k: K)
    requires m != map[]
    ensures k in m
  {
    var k :| k in m;
    k
  }

  ghost function Sum<K, V>(m: map<K, V>, f: V -> nat): nat {
    if m == map[] then 0 else var k := Pick(m); f(m[k]) + Sum(m - {k}, f)
  }

  lemma {:induction false} SumDrop<K, V>(m: map<K, V>, f: V -> nat, k: K)
    requires k in m
    ensures Sum(m, f) == f(m[k]) + Sum(m - {k}, f)
    decreases |m|
  {
    var p := Pick(m);
    if p != k {
      assert |m - {p}| < |m| && |m - {k}| < |m| by {
        assert (m - {p}).Keys == m.Keys - {p} && (m - {k}).Keys == m.Keys - {k};
      }
      SumDrop(m - {p}, f, k);
      SumDrop(m - {k}, f, p);
      assert m - {p} - {k} == m - {k} - {p};
    }
  }

  lemma SumPut<K, V>(m: map<K, V>, f: V -> nat, k: K, v: V)
    ensures Sum(m[k := v], f) == f(v) + Sum(m - {k}, f)
    ensures k !in m ==> Sum(m[k := v], f) == f(v) + Sum(m, f)
  {
    SumDrop(m[k := v], f, k);
    assert m[k := v] - {k} == m - {k};
    if k !in m { assert m - {k} == m; }
  }
}
