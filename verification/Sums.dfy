/** Sums over finite maps, and duplicate-free queues of identifiers. */
module Sums {

  /** The sum of all values of a map. */
  ghost function Total(m: map<nat, nat>): nat
    decreases |m|
  {
    if m == map[] then 0
    else
      var k :| k in m;
      assert |m - {k}| < |m| by { Smaller(m, k); }
      m[k] + Total(m - {k})
  }

  lemma Smaller(m: map<nat, nat>, k: nat)
    requires k in m
    ensures |m - {k}| == |m| - 1
  {
    assert (m - {k}).Keys == m.Keys - {k};
    assert |m.Keys| == |m|;
  }

  lemma {:induction false} TotalRemove(m: map<nat, nat>, k: nat)
    requires k in m
    ensures Total(m) == m[k] + Total(m - {k})
    decreases |m|
  {
    var j :| j in m && Total(m) == m[j] + Total(m - {j});
    if j != k {
      Smaller(m, j);
      Smaller(m, k);
      TotalRemove(m - {j}, k);
      TotalRemove(m - {k}, j);
      assert m - {j} - {k} == m - {k} - {j};
    }
  }

  lemma TotalUpdate(m: map<nat, nat>, k: nat, v: nat)
    ensures Total(m[k := v]) == v + Total(m - {k})
    ensures k in m ==> Total(m) == m[k] + Total(m - {k})
    ensures k !in m ==> Total(m[k := v]) == v + Total(m)
  {
    TotalRemove(m[k := v], k);
    assert m[k := v] - {k} == m - {k};
    if k in m {
      TotalRemove(m, k);
    } else {
      assert m - {k} == m;
    }
  }

  lemma {:induction false} TotalMonotone(a: map<nat, nat>, b: map<nat, nat>)
    requires a.Keys == b.Keys
    requires forall k :: k in a ==> a[k] <= b[k]
    ensures Total(a) <= Total(b)
    decreases |a|
  {
    if k :| k in a {
      Smaller(a, k);
      TotalRemove(a, k);
      TotalRemove(b, k);
      TotalMonotone(a - {k}, b - {k});
    } else {
      assert a == map[] && b == map[];
    }
  }

  ghost predicate NoDup<T>(q: seq<T>) {
    forall i, j :: 0 <= i < j < |q| ==> q[i] != q[j]
  }

  /** The sum along a queue, as the admission loop of src/scheduler.cc:188-195 accumulates it. */
  function Along(q: seq<nat>, m: map<nat, nat>): nat
    requires forall id :: id in q ==> id in m
  {
    if q == [] then 0 else m[q[0]] + Along(q[1..], m)
  }

  lemma {:induction false} AlongWeaken(q: seq<nat>, m: map<nat, nat>, k: nat)
    requires forall id :: id in q ==> id in m
    requires k !in q
    ensures forall id :: id in q ==> id in m - {k}
    ensures Along(q, m) == Along(q, m - {k})
  {
    if q != [] {
      assert q[0] in q;
      AlongWeaken(q[1..], m, k);
    }
  }

  lemma {:induction false} AlongIsTotal(q: seq<nat>, m: map<nat, nat>)
    requires NoDup(q)
    requires m.Keys == set id | id in q
    ensures Along(q, m) == Total(m)
  {
    if q == [] {
      assert m == map[];
    } else {
      assert q[0] in q;
      TotalRemove(m, q[0]);
      AlongWeaken(q[1..], m, q[0]);
      AlongIsTotal(q[1..], m - {q[0]});
    }
  }
}
