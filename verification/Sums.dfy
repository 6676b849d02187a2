/** Sums over sequences of naturals, used to count executors and to measure progress. */
module Sums {

  function Sum(xs: seq<nat>): nat {
    if xs == [] then 0 else Sum(xs[..|xs| - 1]) + xs[|xs| - 1]
  }

  lemma SumAppend(xs: seq<nat>, v: nat)
    ensures Sum(xs + [v]) == Sum(xs) + v
  {
    assert (xs + [v])[..|xs|] == xs;
  }

  lemma {:induction false} SumUpdate(xs: seq<nat>, k: nat, v: nat)
    requires k < |xs|
    ensures Sum(xs[k := v]) + xs[k] == Sum(xs) + v
  {
    var n := |xs| - 1;
    if k == n {
      assert xs[k := v][..n] == xs[..n];
    } else {
      assert xs[k := v][..n] == xs[..n][k := v];
      SumUpdate(xs[..n], k, v);
    }
  }

  lemma {:induction false} SumAtLeast(xs: seq<nat>, k: nat)
    requires k < |xs|
    ensures Sum(xs) >= xs[k]
  {
    if k < |xs| - 1 {
      SumAtLeast(xs[..|xs| - 1], k);
    }
  }

  lemma {:induction false} SumPositive(xs: seq<nat>) returns (k: nat)
    requires Sum(xs) > 0
    ensures k < |xs| && xs[k] > 0
  {
    k := |xs| - 1;
    if xs[k] == 0 {
      k := SumPositive(xs[..k]);
    }
  }

  lemma {:induction false} SumMonotone(xs: seq<nat>, ys: seq<nat>)
    requires |xs| == |ys|
    requires forall k :: 0 <= k < |xs| ==> xs[k] <= ys[k]
    ensures Sum(xs) <= Sum(ys)
  {
    if xs != [] {
      SumMonotone(xs[..|xs| - 1], ys[..|ys| - 1]);
    }
  }

  /** The positions of the ones. */
  function Ones(xs: seq<nat>): set<nat> {
    set k | 0 <= k < |xs| && xs[k] == 1
  }

  /** A sum of zeros and ones counts the ones. */
  lemma {:induction false} SumCountsOnes(xs: seq<nat>)
    requires forall k | 0 <= k < |xs| :: xs[k] <= 1
    ensures Sum(xs) == |Ones(xs)|
  {
    if xs != [] {
      var n := |xs| - 1;
      SumCountsOnes(xs[..n]);
      assert Ones(xs) == Ones(xs[..n]) + if xs[n] == 1 then {n} else {};
    }
  }
}
