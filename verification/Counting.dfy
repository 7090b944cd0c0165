/** Conditions counted as numbers, and sums. */
module Counting {
  function One(b: bool): nat {
    if b then 1 else 0
  }

  function Sum(v: seq<nat>): nat {
    if v == [] then 0 else Sum(v[..|v| - 1]) + v[|v| - 1]
  }

  lemma {:induction false} SumUpdate(v: seq<nat>, i: nat, x: nat)
    requires i < |v|
    ensures Sum(v[i := x]) + v[i] == Sum(v) + x
    decreases |v|
  {
    var k := |v| - 1;
    if i < k {
      SumUpdate(v[..k], i, x);
      assert v[i := x][..k] == v[..k][i := x];
    } else {
      assert v[i := x][..k] == v[..k];
    }
  }

  /** Two entries together get smaller, and the others stay. */
  lemma SumFalls(v: seq<nat>, w: seq<nat>, i: nat, j: nat)
    requires i < |v| == |w| && j < |v| && i != j && w[i] + w[j] < v[i] + v[j]
    requires forall k :: 0 <= k < |v| && k != i && k != j ==> w[k] == v[k]
    ensures Sum(w) < Sum(v)
  {
    SumUpdate(v, i, w[i]);
    SumUpdate(v[i := w[i]], j, w[j]);
    assert v[i := w[i]][j := w[j]] == w;
  }
}
