/**
 One bandit (one reward source): a fixed success rate and the coin throw
 that pays out when a uniform draw falls at or below that rate. The uniform
 draws are inputs here; each is meant to lie in [0, 1) like numpy's
 `random()`, but nothing below depends on that.
 */
module Arm {

  datatype Bandit = Bandit(rate: real)

  /**
   Construction of a bandit: a non-negative requested rate is kept as given
   (there is no upper bound), a negative one (the default is -1) is replaced
   by the uniform `draw`. So with a draw in [0, 1) the rate is never negative.
   */
  function Make(returnRate: real, draw: real): (b: Bandit)
    ensures returnRate >= 0.0 ==> b.rate == returnRate
    ensures returnRate < 0.0 ==> b.rate == draw
    ensures 0.0 <= draw ==> 0.0 <= b.rate
  {
    if returnRate >= 0.0 then Bandit(returnRate) else Bandit(draw)
  }

  /** Whether a single uniform draw pays out against `b`. */
  predicate Pays(b: Bandit, u: real)
  {
    u <= b.rate
  }

  /**
   Throwing `|draws|` coins: the number of draws at or below the rate.
   */
  function Throw(b: Bandit, draws: seq<real>): (k: nat)
    ensures k <= |draws|
  {
    if |draws| == 0 then 0
    else Throw(b, draws[..|draws| - 1]) + (if Pays(b, draws[|draws| - 1]) then 1 else 0)
  }

  /** Every coin pays out exactly when every draw is at or below the rate. */
  lemma {:induction false} ThrowAllPay(b: Bandit, draws: seq<real>)
    ensures Throw(b, draws) == |draws| <==> forall i :: 0 <= i < |draws| ==> Pays(b, draws[i])
  {
    if |draws| > 0 {
      var last := |draws| - 1;
      ThrowAllPay(b, draws[..last]);
      assert forall i :: 0 <= i < last ==> draws[..last][i] == draws[i];
    }
  }

  /** No coin pays out exactly when every draw is above the rate. */
  lemma {:induction false} ThrowNonePay(b: Bandit, draws: seq<real>)
    ensures Throw(b, draws) == 0 <==> forall i :: 0 <= i < |draws| ==> !Pays(b, draws[i])
  {
    if |draws| > 0 {
      var last := |draws| - 1;
      ThrowNonePay(b, draws[..last]);
      assert forall i :: 0 <= i < last ==> draws[..last][i] == draws[i];
    }
  }

  /** Throwing two batches of coins pays what throwing them together pays. */
  lemma {:induction false} ThrowSplit(b: Bandit, xs: seq<real>, ys: seq<real>)
    ensures Throw(b, xs + ys) == Throw(b, xs) + Throw(b, ys)
  {
    if |ys| > 0 {
      var last := |ys| - 1;
      ThrowSplit(b, xs, ys[..last]);
      assert (xs + ys)[..|xs + ys| - 1] == xs + ys[..last];
    } else {
      assert xs + ys == xs;
    }
  }

  /** Against the same draws, a higher rate never pays out less. */
  lemma {:induction false} ThrowMonotone(lo: Bandit, hi: Bandit, draws: seq<real>)
    requires lo.rate <= hi.rate
    ensures Throw(lo, draws) <= Throw(hi, draws)
  {
    if |draws| > 0 {
      ThrowMonotone(lo, hi, draws[..|draws| - 1]);
    }
  }

  /**
   The single-coin throw the simulator performs on every trial: its reward
   is 0 or 1, and 1 exactly when the draw is at or below the rate.
   */
  function Reward(b: Bandit, u: real): (r: int)
    ensures r == 0 || r == 1
    ensures r == 1 <==> Pays(b, u)
  {
    assert [u][..0] == [];
    Throw(b, [u])
  }
}
