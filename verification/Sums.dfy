/** Sums of integer sequences shared by the other modules. */
module Sums {

  function Sum(xs: seq<int>): int {
    if xs == [] then 0 else xs[0] + Sum(xs[1..])
  }

  lemma {:induction false} SumUpdate(xs: seq<int>, j: nat, v: int)
    requires j < |xs|
    ensures Sum(xs[j := v]) == Sum(xs) - xs[j] + v
  {
    if j > 0 {
      SumUpdate(xs[1..], j - 1, v);
      assert xs[j := v][1..] == xs[1..][j - 1 := v];
    } else {
      assert xs[0 := v][1..] == xs[1..];
    }
  }

  lemma {:induction false} SumSplit(xs: seq<int>, k: nat)
    requires k <= |xs|
    ensures Sum(xs) == Sum(xs[..k]) + Sum(xs[k..])
  {
    if k == 0 {
      assert xs[0..] == xs;
    } else {
      SumSplit(xs[1..], k - 1);
      assert xs[..k][1..] == xs[1..][..k - 1];
      assert xs[1..][k - 1..] == xs[k..];
    }
  }

  lemma {:induction false} SumSnoc(xs: seq<int>, n: int)
    ensures Sum(xs + [n]) == Sum(xs) + n
  {
    if xs == [] {
      assert xs + [n] == [n];
    } else {
      assert (xs + [n])[1..] == xs[1..] + [n];
      SumSnoc(xs[1..], n);
    }
  }

  lemma {:induction false} SumRemove(xs: seq<int>, i: nat)
    requires i < |xs|
    ensures Sum(xs[..i] + xs[i + 1..]) == Sum(xs) - xs[i]
  {
    if i == 0 {
      assert xs[..0] + xs[1..] == xs[1..];
    } else {
      assert (xs[..i] + xs[i + 1..])[1..] == xs[1..][..i - 1] + xs[1..][i..];
      SumRemove(xs[1..], i - 1);
    }
  }

  lemma {:induction false} SumOfZeros(xs: seq<int>)
    requires forall i :: 0 <= i < |xs| ==> xs[i] == 0
    ensures Sum(xs) == 0
  {
    if xs != [] { SumOfZeros(xs[1..]); }
  }

  lemma {:induction false} SumOfNats(xs: seq<nat>)
    ensures Sum(xs) >= 0
  {
    if xs != [] { SumOfNats(xs[1..]); }
  }
}
