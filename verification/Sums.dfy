/** Sums over maps and along sequences, independent of the order in which a map is walked. */
module Sums {
  /** The sum of a map's values. */
  ghost function SumOver<K>(m: map<K, nat>): nat
    decreases |m|
  {
    if m == map[] then 0
    else
      var k :| k in m;
      m[k] + SumOver(m - {k})
  }

  lemma {:induction false} SumTakeOut<K>(m: map<K, nat>, k: K)
    requires k in m
    ensures SumOver(m) == m[k] + SumOver(m - {k})
    decreases |m|
  {
    var p :| p in m && SumOver(m) == m[p] + SumOver(m - {p});
    if p != k {
      SumTakeOut(m - {p}, k);
      SumTakeOut(m - {k}, p);
      assert m - {p} - {k} == m - {k} - {p};
    }
  }

  lemma SumPut<K>(m: map<K, nat>, k: K, v: nat)
    ensures SumOver(m[k := v]) == SumOver(m) + v - (if k in m then m[k] else 0)
  {
    var m' := m[k := v];
    SumTakeOut(m', k);
    if k in m {
      SumTakeOut(m, k);
      assert m' - {k} == m - {k};
    } else {
      assert m' - {k} == m;
    }
  }

  lemma {:induction false} SumMono<K>(m: map<K, nat>, m': map<K, nat>)
    requires m.Keys == m'.Keys && forall k | k in m :: m[k] <= m'[k]
    ensures SumOver(m) <= SumOver(m')
    decreases |m|
  {
    if m == map[] {
      assert m' == map[];
    } else {
      var k :| k in m;
      SumTakeOut(m, k);
      SumTakeOut(m', k);
      SumMono(m - {k}, m' - {k});
    }
  }

  /** Each key once, and no other: an order in which a map may be walked. */
  predicate Enumerates<K(==), V>(order: seq<K>, m: map<K, V>) {
    && (forall i, j | 0 <= i < j < |order| :: order[i] != order[j])
    && (forall i | 0 <= i < |order| :: order[i] in m)
    && (forall k | k in m :: k in order)
  }

  /** The sum of a sequence. */
  function Total(xs: seq<nat>): nat {
    if xs == [] then 0 else Total(xs[..|xs| - 1]) + xs[|xs| - 1]
  }

  lemma TotalSnoc(xs: seq<nat>, x: nat)
    ensures Total(xs + [x]) == Total(xs) + x
  {
    assert (xs + [x])[..|xs|] == xs;
  }

  lemma {:induction false} TotalUpdate(xs: seq<nat>, k: nat, v: nat)
    requires k < |xs|
    ensures Total(xs[k := v]) == Total(xs) - xs[k] + v
  {
    var n := |xs| - 1;
    if k < n {
      TotalUpdate(xs[..n], k, v);
      assert xs[k := v][..n] == xs[..n][k := v];
    } else {
      assert xs[k := v][..n] == xs[..n];
    }
  }

  lemma {:induction false} TotalMono(xs: seq<nat>, ys: seq<nat>)
    requires |xs| == |ys| && forall i | 0 <= i < |xs| :: xs[i] <= ys[i]
    ensures Total(xs) <= Total(ys)
    decreases |xs|
  {
    if xs != [] {
      TotalMono(xs[..|xs| - 1], ys[..|ys| - 1]);
    }
  }

  /** An order of a map's keys but the last is an order of the rest of the map. */
  lemma EnumeratesRest<K, V>(order: seq<K>, m: map<K, V>)
    requires Enumerates(order, m) && order != []
    ensures var n := |order| - 1; Enumerates(order[..n], m - {order[n]})
  {
    var n := |order| - 1;
    forall q | q in m - {order[n]}
      ensures q in order[..n]
    {
      var i :| 0 <= i < |order| && order[i] == q;
      assert order[..n][i] == q;
    }
  }

  /** Whatever the order, walking a map adds up the same sum. */
  lemma {:induction false} WalkSum<K>(order: seq<K>, m: map<K, nat>)
    requires Enumerates(order, m)
    ensures Total(seq(|order|, i requires 0 <= i < |order| => m[order[i]])) == SumOver(m)
    decreases |order|
  {
    if order == [] {
      assert forall k :: k !in m;
      assert m == map[];
    } else {
      var n := |order| - 1;
      var init, rest := order[..n], m - {order[n]};
      var xs := seq(|order|, i requires 0 <= i < |order| => m[order[i]]);
      EnumeratesRest(order, m);
      WalkSum(init, rest);
      assert xs[..n] == seq(|init|, i requires 0 <= i < |init| => rest[init[i]]);
      SumTakeOut(m, order[n]);
    }
  }
}
