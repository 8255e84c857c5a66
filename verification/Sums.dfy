/** Totals over the goroutines of a system, for measures of the work left. */
module Sums {
  function Total<T>(weight: T -> nat, xs: seq<T>): nat {
    if xs == [] then 0 else Total(weight, xs[..|xs| - 1]) + weight(xs[|xs| - 1])
  }

  lemma {:induction false} TotalUpdate<T>(weight: T -> nat, xs: seq<T>, i: nat, x: T)
    requires i < |xs|
    ensures Total(weight, xs[i := x]) + weight(xs[i]) == Total(weight, xs) + weight(x)
    decreases |xs|
  {
    var n := |xs| - 1;
    var ys := xs[i := x];
    if i == n {
      assert ys[..n] == xs[..n];
    } else {
      assert ys[..n] == xs[..n][i := x];
      TotalUpdate(weight, xs[..n], i, x);
    }
  }

  lemma {:induction false} TotalSame<T>(weight: T -> nat, xs: seq<T>, ys: seq<T>)
    requires |xs| == |ys| && forall i :: 0 <= i < |xs| ==> weight(xs[i]) == weight(ys[i])
    ensures Total(weight, xs) == Total(weight, ys)
    decreases |xs|
  {
    if xs != [] {
      TotalSame(weight, xs[..|xs| - 1], ys[..|ys| - 1]);
    }
  }
}
