/** Finite sums, for counting over threads and clients. */
module Sums {
  function Sum(xs: seq<nat>): nat {
    if xs == [] then 0 else Sum(xs[..|xs| - 1]) + xs[|xs| - 1]
  }

  lemma {:induction false} SumUpdate(xs: seq<nat>, i: nat, x: nat)
    requires i < |xs|
    ensures Sum(xs[i := x]) == Sum(xs) - xs[i] + x
  {
    var last := |xs| - 1;
    if i == last {
      assert xs[i := x][..last] == xs[..last];
    } else {
      SumUpdate(xs[..last], i, x);
      assert xs[i := x][..last] == xs[..last][i := x];
    }
  }

  lemma {:induction false} SumBound(xs: seq<nat>, x: nat)
    requires forall i | 0 <= i < |xs| :: xs[i] <= x
    ensures Sum(xs) <= |xs| * x
    ensures Sum(xs) == |xs| * x <==> forall i | 0 <= i < |xs| :: xs[i] == x
  {
    if xs != [] {
      var last := |xs| - 1;
      SumBound(xs[..last], x);
      assert |xs| * x == last * x + x;
      if Sum(xs) == |xs| * x {
        forall i | 0 <= i < |xs|
          ensures xs[i] == x
        {
          if i < last {
            assert xs[..last][i] == x;
          }
        }
      }
    }
  }

  lemma {:induction false} SumOfZeros(xs: seq<nat>)
    requires forall i | 0 <= i < |xs| :: xs[i] == 0
    ensures Sum(xs) == 0
  {
    if xs != [] {
      SumOfZeros(xs[..|xs| - 1]);
    }
  }

  /** If one term falls by d, or rises if d is negative, and no other one grows, the sum falls
      by d. */
  lemma {:induction false} SumFalls(xs: seq<nat>, ys: seq<nat>, i: nat, d: int)
    requires |xs| == |ys| && i < |xs| && ys[i] + d <= xs[i]
    requires forall j | 0 <= j < |xs| && j != i :: ys[j] <= xs[j]
    ensures Sum(ys) + d <= Sum(xs)
  {
    var last := |xs| - 1;
    if i == last {
      SumGrowsNot(xs[..last], ys[..last]);
    } else {
      SumFalls(xs[..last], ys[..last], i, d);
    }
  }

  lemma {:induction false} SumGrowsNot(xs: seq<nat>, ys: seq<nat>)
    requires |xs| == |ys| && forall j | 0 <= j < |xs| :: ys[j] <= xs[j]
    ensures Sum(ys) <= Sum(xs)
  {
    if xs != [] {
      SumGrowsNot(xs[..|xs| - 1], ys[..|ys| - 1]);
    }
  }

  /** The amortised bound: if each of a number of steps takes one from the work left, but may add
      what it pays for, there are no more steps than the work at first and all that was paid. */
  lemma {:induction false} Amortised(work: seq<nat>, pay: seq<nat>)
    requires |work| == |pay| + 1
    requires forall i | 0 <= i < |pay| :: work[i + 1] + 1 <= work[i] + pay[i]
    ensures |pay| + work[|pay|] <= work[0] + Sum(pay)
  {
    if pay != [] {
      var last := |pay| - 1;
      Amortised(work[..last + 1], pay[..last]);
      assert work[last + 1] + 1 <= work[last] + pay[last];
    }
  }
}
