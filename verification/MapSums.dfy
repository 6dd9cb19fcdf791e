/** Sums of a natural-valued field over the values of a finite map. */
module MapSums {

  ghost function Sum<K, V>(m: map<K, V>, f: V -> nat): nat
    decreases |m|
  {
    if m.Keys == {} then 0
    else
      var k :| k in m.Keys;
      assert |m - {k}| < |m| by { RemoveShrinks(m, k); }
      f(m[k]) + Sum(m - {k}, f)
  }

  lemma {:induction false} RemoveShrinks<K, V>(m: map<K, V>, k: K)
    requires k in m
    ensures |m - {k}| == |m| - 1
  {
    assert (m - {k}).Keys == m.Keys - {k};
  }

  /** The sum splits off any one key. */
  lemma {:induction false} SumRemove<K, V>(m: map<K, V>, f: V -> nat, k: K)
    requires k in m
    ensures Sum(m, f) == f(m[k]) + Sum(m - {k}, f)
    decreases |m|
  {
    var j :| j in m.Keys && Sum(m, f) == f(m[j]) + Sum(m - {j}, f);
    if j != k {
      RemoveShrinks(m, j);
      RemoveShrinks(m, k);
      assert m - {j} - {k} == m - {k} - {j};
      SumRemove(m - {j}, f, k);
      SumRemove(m - {k}, f, j);
    }
  }

  /** Writing one key moves the sum by the difference of its values. */
  lemma {:induction false} SumSet<K, V>(m: map<K, V>, f: V -> nat, k: K, v: V)
    ensures Sum(m[k := v], f) + (if k in m then f(m[k]) else 0) == Sum(m, f) + f(v)
  {
    SumRemove(m[k := v], f, k);
    if k in m {
      SumRemove(m, f, k);
      assert m[k := v] - {k} == m - {k};
    } else {
      assert m[k := v] - {k} == m;
    }
  }

  lemma {:induction false} SumAtLeast<K, V>(m: map<K, V>, f: V -> nat, k: K)
    requires k in m
    ensures f(m[k]) <= Sum(m, f)
  {
    SumRemove(m, f, k);
  }

  /** Dropping entries that contribute nothing leaves the sum unchanged. */
  lemma {:induction false} SumSub<K, V>(m: map<K, V>, n: map<K, V>, f: V -> nat)
    requires n.Keys <= m.Keys
    requires forall k :: k in n ==> n[k] == m[k]
    requires forall k :: k in m && k !in n ==> f(m[k]) == 0
    ensures Sum(n, f) == Sum(m, f)
    decreases |m|
  {
    if k :| k in m && k !in n {
      RemoveShrinks(m, k);
      SumRemove(m, f, k);
      SumSub(m - {k}, n, f);
    } else {
      assert n == m;
    }
  }

  /** A part of a map, taken out or emptied, and the rest add up to the whole. */
  lemma {:induction false} SumSplit<K, V>(m: map<K, V>, part: map<K, V>, rest: map<K, V>, f: V -> nat)
    requires part.Keys <= m.Keys && rest.Keys <= m.Keys && m.Keys - part.Keys <= rest.Keys
    requires forall k :: k in part ==> part[k] == m[k]
    requires forall k :: k in rest ==> if k in part then f(rest[k]) == 0 else rest[k] == m[k]
    ensures Sum(m, f) == Sum(part, f) + Sum(rest, f)
    decreases |part|
  {
    if k :| k in part {
      RemoveShrinks(part, k);
      SumRemove(m, f, k);
      SumRemove(part, f, k);
      if k in rest { SumRemove(rest, f, k); } else { assert rest - {k} == rest; }
      SumSplit(m - {k}, part - {k}, rest - {k}, f);
    } else {
      assert rest == m;
    }
  }

  /** A loop that adds the values up in any order computes the sum. */
  method AddUp<K, V>(m: map<K, V>, f: V -> nat) returns (t: nat)
    ensures t == Sum(m, f)
  {
    t := 0;
    var rest := m;
    while rest.Keys != {}
      invariant t + Sum(rest, f) == Sum(m, f)
      decreases |rest|
    {
      var k :| k in rest.Keys;
      SumRemove(rest, f, k);
      RemoveShrinks(rest, k);
      t := t + f(rest[k]);
      rest := rest - {k};
    }
  }
}
