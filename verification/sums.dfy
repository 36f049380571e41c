/**
 Sums over sequences of counters and of rates, folded from the right end so
 that appending one element (the next trial) unfolds the definition once.
 */
module Sums {

  /** The sum of an integer sequence, as numpy's `sum` of a counter array. */
  function Sum(s: seq<int>): int
  {
    if |s| == 0 then 0 else Sum(s[..|s| - 1]) + s[|s| - 1]
  }

  /** The sum of a sequence of exact reals, as Python's `sum` of a rate list. */
  function RealSum(s: seq<real>): real
  {
    if |s| == 0 then 0.0 else RealSum(s[..|s| - 1]) + s[|s| - 1]
  }

  /** Every element is at least zero. */
  predicate NonNegative(s: seq<int>)
  {
    forall i :: 0 <= i < |s| ==> 0 <= s[i]
  }

  lemma SumAppend(s: seq<int>, x: int)
    ensures Sum(s + [x]) == Sum(s) + x
  {
    assert (s + [x])[..|s|] == s;
  }

  /** Overwriting one entry changes the sum by exactly the difference. */
  lemma {:induction false} SumUpdate(s: seq<int>, i: int, v: int)
    requires 0 <= i < |s|
    ensures Sum(s[i := v]) == Sum(s) - s[i] + v
  {
    var last := |s| - 1;
    if i == last {
      assert s[i := v][..last] == s[..last];
    } else {
      SumUpdate(s[..last], i, v);
      assert s[i := v][..last] == s[..last][i := v];
    }
  }

  /** An all-zero sequence sums to zero. */
  lemma {:induction false} SumZeros(n: nat)
    ensures Sum(seq(n, _ => 0)) == 0
  {
    if n > 0 {
      assert seq(n, _ => 0)[..n - 1] == seq(n - 1, _ => 0);
      SumZeros(n - 1);
    }
  }

  /** The sum of non-negative numbers bounds each of them. */
  lemma {:induction false} SumBoundsElement(s: seq<int>, i: int)
    requires NonNegative(s)
    requires 0 <= i < |s|
    ensures 0 <= s[i] <= Sum(s)
  {
    var last := |s| - 1;
    if i < last {
      SumBoundsElement(s[..last], i);
    } else {
      SumNonNegative(s[..last]);
    }
  }

  lemma {:induction false} SumNonNegative(s: seq<int>)
    requires NonNegative(s)
    ensures 0 <= Sum(s)
  {
    if |s| > 0 {
      SumNonNegative(s[..|s| - 1]);
    }
  }

  /** Multiplying every element by `c` multiplies the sum by `c`. */
  lemma {:induction false} RealSumScaled(s: seq<real>, t: seq<real>, c: real)
    requires |t| == |s|
    requires forall i :: 0 <= i < |s| ==> t[i] == c * s[i]
    ensures RealSum(t) == c * RealSum(s)
  {
    if |s| > 0 {
      var last := |s| - 1;
      RealSumScaled(s[..last], t[..last], c);
    }
  }

  /** A sum of non-negative rates is non-negative. */
  lemma {:induction false} RealSumNonNegative(s: seq<real>)
    requires forall i :: 0 <= i < |s| ==> 0.0 <= s[i]
    ensures 0.0 <= RealSum(s)
  {
    if |s| > 0 {
      RealSumNonNegative(s[..|s| - 1]);
    }
  }
}
