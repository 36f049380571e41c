/**
 Concrete situations over the model: the sticky strategy's first call,
 Thompson sampling without data, a rescaled rate above 1, balanced
 construction over a zero sum, the payout edge of a zero rate, and a
 two-bandit pool whose second bandit never pays.
 */
module Scenarios {
  import opened Sums
  import opened Arm
  import opened Strategies
  import opened Simulator

  /**
   A fresh sticky strategy over three bandits, shown one win on bandit 0,
   stays on bandit 0 whatever the random index.
   */
  lemma RepeatFirstCallStays(randomIndex: int)
    requires 0 <= randomIndex < 3
    ensures RepeatCall(NewRepeat(3), [1, 0, 0], randomIndex).0 == 0
    ensures RepeatCall(NewRepeat(3), [1, 0, 0], randomIndex).1 == RepeatStrategy(3, 0, 1)
  {
  }

  /** A fresh sticky strategy shown no win jumps to the random index. */
  lemma RepeatFirstCallJumps(randomIndex: int)
    requires 0 <= randomIndex < 3
    ensures RepeatCall(NewRepeat(3), [0, 0, 0], randomIndex).0 == randomIndex
  {
  }

  /** With no data and the default prior strength every posterior is Beta(1, 1), the uniform distribution. */
  lemma NoDataPosteriorIsUniform(thrown: seq<int>, returned: seq<int>)
    requires |thrown| == |returned|
    requires forall j :: 0 <= j < |thrown| ==> thrown[j] == 0 && returned[j] == 0
    ensures forall j :: 0 <= j < |thrown| ==> Posterior(DefaultBase, thrown, returned)[j] == Beta(1.0, 1.0)
  {
  }

  /** Ties among the samples go to the first bandit. */
  lemma BayesTieGoesFirst(s: BayesStrategy, x: real)
    requires s.nBandits == 3
    ensures BayesCall(s, [0, 0, 0], [0, 0, 0], [x, x, x]).0 == 0
  {
    ArgMaxUnique([x, x, x], 0);
  }

  /** Balanced rescaling can push a rate above 1: 0.9 among 0.1 and 0.1 becomes 2.7 / 2.2. */
  lemma RescaleCanExceedOne()
    ensures RealSum([0.9, 0.1, 0.1]) == 1.1
    ensures Rescale(3, [0.9, 0.1, 0.1])[0] > 1.0
  {
    var rates := [0.9, 0.1, 0.1];
    assert [0.9][..0] == [];
    assert RealSum([0.9]) == 0.9;
    assert [0.9, 0.1][..1] == [0.9];
    assert RealSum([0.9, 0.1]) == 1.0;
    assert rates[..2] == [0.9, 0.1];
    assert RealSum(rates) == 1.1;
    var r := Rescale(3, rates);
    assert r[0] * 2.2 == 2.7;
  }

  /** With no bandits, balanced construction divides nothing by zero and builds an empty pool. */
  lemma EmptyBalancedPool()
    ensures New(0, [], true, [], []) == Ok(Bandits([], [], [], 0, 0))
  {
  }

  /**
   Balanced rates that are all zero become NaN, which fails the bandit's
   `>= 0` test, so every bandit draws its own rate.
   */
  lemma ZeroBalancedRatesDrawTheirOwn(randomRates: seq<real>, fallbacks: seq<real>)
    requires |randomRates| == 2 && |fallbacks| == 2
    ensures New(2, [0.0, 0.0], true, randomRates, fallbacks).Ok?
    ensures New(2, [0.0, 0.0], true, randomRates, fallbacks).value.bandits == [Bandit(fallbacks[0]), Bandit(fallbacks[1])]
  {
    assert [0.0, 0.0][..1] == [0.0];
    assert [0.0][..0] == [];
    assert RealSum([0.0, 0.0]) == 0.0;
  }

  /** Rates [1.0, -1.0] sum to zero, and balancing would give bandit 0 an infinite rate. */
  lemma OppositeBalancedRatesOverflow(randomRates: seq<real>, fallbacks: seq<real>)
    requires |randomRates| == 2 && |fallbacks| == 2
    ensures New(2, [1.0, -1.0], true, randomRates, fallbacks) == Err(InfiniteRate)
  {
    assert [1.0, -1.0][..1] == [1.0];
    assert [1.0][..0] == [];
    assert RealSum([1.0, -1.0]) == 0.0;
    assert [1.0, -1.0][0] > 0.0;
  }

  /**
   A bandit of rate 0 pays nothing over draws that are all above 0, but a
   draw of exactly 0 meets the `<=` test and pays.
   */
  lemma ZeroRateEdge(draws: seq<real>)
    requires forall i :: 0 <= i < |draws| ==> 0.0 < draws[i]
    ensures Arm.Throw(Bandit(0.0), draws) == 0
    ensures Reward(Bandit(0.0), 0.0) == 1
  {
    ThrowNonePay(Bandit(0.0), draws);
  }

  /** A two-bandit pool in which bandit 0 always pays and bandit 1 never has. */
  predicate OnlyFirstPays(p: Bandits)
  {
    && |p.bandits| == 2 && |p.thrown| == 2 && |p.returned| == 2
    && p.bandits[0].rate == 1.0 && p.bandits[1].rate == 0.0
    && p.returned[0] == p.thrown[0] && p.returned[1] == 0
  }

  lemma SumPair(s: seq<int>)
    requires |s| == 2
    ensures Sum(s) == s[0] + s[1]
  {
    assert s[..1][..0] == [];
    assert Sum(s[..1]) == s[0];
  }

  /** One trial keeps the two-bandit situation when the uniform draw lies strictly inside (0, 1). */
  lemma TwoArmStep(p: Bandits, s: Strategy, d: Draw)
    requires Consistent(p) && Ready(s, 2) && Fits(d, 2) && OnlyFirstPays(p)
    requires 0.0 < d.uniform < 1.0
    ensures OnlyFirstPays(Step(p, s, d).pool)
  {
    StepRecords(p, s, d);
  }

  /**
   With rates 1.0 and 0.0 and uniform draws strictly inside (0, 1), every
   coin thrown into bandit 0 comes back and none into bandit 1, whichever
   strategy chooses: the returned total equals bandit 0's thrown count.
   */
  lemma TwoArmRun(p: Bandits, s: Strategy, draws: seq<Draw>, i: nat)
    requires Consistent(p) && Ready(s, 2) && AllFit(draws, 2) && OnlyFirstPays(p)
    requires forall k :: 0 <= k < |draws| ==> 0.0 < draws[k].uniform < 1.0
    requires i <= |draws|
    ensures OnlyFirstPays(Run(p, s, draws, i).pool)
    ensures Run(p, s, draws, i).pool.totReturned == Run(p, s, draws, i).pool.thrown[0]
  {
    TwoArmRunKeeps(p, s, draws, i);
    OnlyFirstPaysTotal(Run(p, s, draws, i).pool);
  }

  /** The two-bandit situation survives every trial of the batch. */
  lemma {:induction false} TwoArmRunKeeps(p: Bandits, s: Strategy, draws: seq<Draw>, i: nat)
    requires Consistent(p) && Ready(s, 2) && AllFit(draws, 2) && OnlyFirstPays(p)
    requires forall k :: 0 <= k < |draws| ==> 0.0 < draws[k].uniform < 1.0
    requires i <= |draws|
    ensures OnlyFirstPays(Run(p, s, draws, i).pool)
  {
    if i > 0 {
      TwoArmRunKeeps(p, s, draws, i - 1);
      var o := Run(p, s, draws, i - 1);
      TwoArmStep(o.pool, o.strategy, draws[i - 1]);
      RunNext(p, s, draws, i);
    }
  }

  /** In a consistent two-bandit pool where only bandit 0 pays, tot_returned is bandit 0's thrown count. */
  lemma OnlyFirstPaysTotal(p: Bandits)
    requires Consistent(p) && OnlyFirstPays(p)
    ensures p.totReturned == p.thrown[0]
  {
    SumPair(p.returned);
  }

  /**
   The end-to-end case: a fresh pool with rates [1.0, 0.0] run for any batch
   of draws has thrown exactly one coin per draw and got back exactly the
   coins thrown into bandit 0.
   */
  lemma TwoArmFromScratch(s: Strategy, draws: seq<Draw>, randomRates: seq<real>, fallbacks: seq<real>)
    requires |randomRates| == 2 && |fallbacks| == 2
    requires Ready(s, 2) && AllFit(draws, 2)
    requires forall k :: 0 <= k < |draws| ==> 0.0 < draws[k].uniform < 1.0
    ensures New(2, [1.0, 0.0], false, randomRates, fallbacks).Ok?
    ensures
      var o := Run(New(2, [1.0, 0.0], false, randomRates, fallbacks).value, s, draws, |draws|);
      o.pool.totThrown == |draws| && o.pool.totReturned == o.pool.thrown[0]
  {
    var p := New(2, [1.0, 0.0], false, randomRates, fallbacks).value;
    TwoArmRun(p, s, draws, |draws|);
    RunAdvances(p, s, draws, |draws|);
  }
}
