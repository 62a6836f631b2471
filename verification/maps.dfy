/** Finite maps standing for the stores' JavaScript objects: sums over
    their values (the meaning of `Object.values(...).reduce(...)`) and the
    listing of their values (`Object.values`). */
module Maps {

  /** Sum of `f` over every value stored in `m`. */
  ghost function Sum<K, V>(m: map<K, V>, f: V -> nat): nat
    decreases |m|
  {
    if |m| == 0 then 0
    else
      var k :| k in m;
      f(m[k]) + Sum(m - {k}, f)
  }

  /** Any key can be taken out first: the sum does not depend on the order
      in which the values are visited. */
  lemma {:induction false} SumRemove<K, V>(m: map<K, V>, f: V -> nat, k: K)
    requires k in m
    ensures Sum(m, f) == f(m[k]) + Sum(m - {k}, f)
    decreases |m|
  {
    var j := Pick(m, f);
    if j != k {
      var mj, mk := m - {j}, m - {k};
      CardRemove(m, j);
      CardRemove(m, k);
      assert k in mj && j in mk;
      SumRemove(mj, f, k);
      SumRemove(mk, f, j);
      RemoveTwo(m, j, k);
    }
  }

  /** Taking out two keys in either order leaves the same map. */
  lemma RemoveTwo<K, V>(m: map<K, V>, j: K, k: K)
    ensures (m - {j}) - {k} == (m - {k}) - {j}
  {
    assert (m - {j}) - {k} == m - {j, k};
  }

  /** The key `Sum` visits first, with the unfolding it stands for. */
  lemma Pick<K, V>(m: map<K, V>, f: V -> nat) returns (j: K)
    requires |m| > 0
    ensures j in m && Sum(m, f) == f(m[j]) + Sum(m - {j}, f)
  {
    j :| j in m && Sum(m, f) == f(m[j]) + Sum(m - {j}, f);
  }

  lemma CardRemove<K, V>(m: map<K, V>, k: K)
    requires k in m
    ensures |m - {k}| == |m| - 1
  {
    assert (m - {k}).Keys == m.Keys - {k};
  }

  /** Overwriting or adding one entry changes the sum by exactly the
      difference between the new and the old value. */
  lemma SumUpdate<K, V>(m: map<K, V>, f: V -> nat, k: K, v: V)
    ensures Sum(m[k := v], f) + (if k in m then f(m[k]) else 0) == Sum(m, f) + f(v)
  {
    var m' := m[k := v];
    SumRemove(m', f, k);
    UpdateRemove(m, k, v);
    if k in m {
      SumRemove(m, f, k);
    } else {
      RemoveAbsent(m, k);
    }
  }

  lemma UpdateRemove<K, V>(m: map<K, V>, k: K, v: V)
    ensures m[k := v] - {k} == m - {k}
  {
    assert (m[k := v] - {k}).Keys == (m - {k}).Keys;
  }

  lemma RemoveAbsent<K, V>(m: map<K, V>, k: K)
    requires k !in m
    ensures m - {k} == m
  {
    assert (m - {k}).Keys == m.Keys;
  }

  /** Deleting one entry lowers the sum by that entry's value. */
  lemma SumDelete<K, V>(m: map<K, V>, f: V -> nat, k: K)
    ensures Sum(m - {k}, f) + (if k in m then f(m[k]) else 0) == Sum(m, f)
  {
    if k in m {
      SumRemove(m, f, k);
    } else {
      RemoveAbsent(m, k);
    }
  }

  /** `Object.values(m)`: every stored value once, in an order the model
      leaves open. */
  method ListValues<K, V>(m: map<K, V>) returns (vs: seq<V>)
    ensures |vs| == |m|
    ensures forall i :: 0 <= i < |vs| ==> exists k :: k in m && m[k] == vs[i]
    ensures forall k :: k in m ==> m[k] in vs
  {
    vs := [];
    var rest := m.Keys;
    while rest != {}
      invariant rest <= m.Keys
      invariant |vs| + |rest| == |m|
      invariant forall i :: 0 <= i < |vs| ==> exists k :: k in m && m[k] == vs[i]
      invariant forall k :: k in m && k !in rest ==> m[k] in vs
      decreases rest
    {
      var k :| k in rest;
      vs := vs + [m[k]];
      rest := rest - {k};
    }
  }

  /** `Object.values(m).reduce((t, v) => t + f(v), 0)`. */
  method SumValues<K, V>(m: map<K, V>, f: V -> nat) returns (total: nat)
    ensures total == Sum(m, f)
  {
    total := 0;
    var rest := m;
    while |rest| > 0
      invariant total + Sum(rest, f) == Sum(m, f)
      decreases |rest|
    {
      var k :| k in rest;
      SumRemove(rest, f, k);
      CardRemove(rest, k);
      total := total + f(rest[k]);
      rest := rest - {k};
    }
  }
}
