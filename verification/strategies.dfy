/**
 The two strategies that pick the next bandit from the per-bandit counters
 `thrown` (coins thrown) and `returned` (coins won): the sticky random
 strategy and Thompson sampling over Beta posteriors. A strategy reads the
 counters and never changes them; whatever it remembers between calls is
 part of its own state, returned next to the chosen index.

 The random inputs of a call come in a `Draw`: the index `randint` would
 produce, the vector of Beta samples, and the uniform draw that decides the
 bandit's payout in the trial that follows.
 */
module Strategies {

  datatype Draw = Draw(randomIndex: int, samples: seq<real>, uniform: real)

  /** The random inputs of one call over `n` bandits have the shapes the generators produce. */
  predicate Fits(d: Draw, n: nat)
  {
    0 <= d.randomIndex < n && |d.samples| == n
  }

  // ---------------------------------------------------------------------
  // Sticky random strategy
  // ---------------------------------------------------------------------

  datatype RepeatStrategy = RepeatStrategy(nBandits: nat, lastBandit: int, lastReturn: int)

  /** The strategy can be called with counters of `n` bandits. */
  predicate RepeatReady(s: RepeatStrategy, n: nat)
  {
    s.nBandits == n && 0 <= s.lastBandit < n
  }

  /** A fresh sticky strategy is committed to bandit 0 having seen no win. */
  function NewRepeat(n: nat): (s: RepeatStrategy)
    ensures n > 0 ==> RepeatReady(s, n)
    ensures s.lastBandit == 0 && s.lastReturn == 0
  {
    RepeatStrategy(n, 0, 0)
  }

  /**
   One call: stay on the last bandit when its win count rose above the one
   remembered, otherwise jump to `randomIndex` (which may be the same
   bandit); then remember the chosen bandit's current win count.
   */
  function RepeatCall(s: RepeatStrategy, returned: seq<int>, randomIndex: int): (res: (int, RepeatStrategy))
    requires RepeatReady(s, |returned|)
    requires 0 <= randomIndex < s.nBandits
    ensures RepeatReady(res.1, |returned|)
    ensures res.0 == res.1.lastBandit
    ensures res.1.lastReturn == returned[res.0]
    ensures returned[s.lastBandit] > s.lastReturn ==> res.0 == s.lastBandit
    ensures returned[s.lastBandit] <= s.lastReturn ==> res.0 == randomIndex
  {
    var b := if returned[s.lastBandit] <= s.lastReturn then randomIndex else s.lastBandit;
    (b, RepeatStrategy(s.nBandits, b, returned[b]))
  }

  // ---------------------------------------------------------------------
  // Thompson sampling
  // ---------------------------------------------------------------------

  /** Parameters of one Beta distribution. */
  datatype Beta = Beta(alpha: real, beta: real)

  /** `posterior` holds the parameters computed by the latest call. */
  datatype BayesStrategy = BayesStrategy(nBandits: nat, base: real, posterior: seq<Beta>)

  const DefaultBase: real := 2.0

  /** Thompson sampling can be called once there is a bandit and the prior strength is positive. */
  function NewBayes(n: nat, base: real): (s: BayesStrategy)
    ensures s.nBandits == n && s.base == base
    ensures n > 0 && base > 0.0 ==> Ready(Bayes(s), n)
  {
    BayesStrategy(n, base, [])
  }

  /**
   The Beta posterior of every bandit under a Beta(base/2, base/2) prior:
   the prior pseudo-counts plus the wins for alpha, plus the losses for beta.
   */
  function Posterior(base: real, thrown: seq<int>, returned: seq<int>): (ps: seq<Beta>)
    requires |thrown| == |returned|
    ensures |ps| == |thrown|
    ensures forall j :: 0 <= j < |ps| ==>
      ps[j].alpha - base / 2.0 == returned[j] as real &&
      ps[j].alpha + ps[j].beta == base + thrown[j] as real
  {
    seq(|thrown|, j requires 0 <= j < |thrown| =>
      Beta(0.5 * base + returned[j] as real, 0.5 * base + thrown[j] as real - returned[j] as real))
  }

  /**
   With a positive prior strength and no bandit having won more coins than
   it was thrown, every posterior parameter is strictly positive, which is
   what the Beta sampler demands.
   */
  lemma PosteriorPositive(base: real, thrown: seq<int>, returned: seq<int>)
    requires |thrown| == |returned|
    requires base > 0.0
    requires forall j :: 0 <= j < |thrown| ==> 0 <= returned[j] <= thrown[j]
    ensures forall j :: 0 <= j < |thrown| ==>
      Posterior(base, thrown, returned)[j].alpha > 0.0 &&
      Posterior(base, thrown, returned)[j].beta > 0.0
  {
  }

  /**
   The index of the first maximum, as `np.argmax`: in range, at least every
   other element, and strictly above every element before it.
   */
  function ArgMax(xs: seq<real>): (k: nat)
    requires |xs| > 0
    ensures k < |xs|
    ensures forall j :: 0 <= j < |xs| ==> xs[j] <= xs[k]
    ensures forall j :: 0 <= j < k ==> xs[j] < xs[k]
  {
    if |xs| == 1 then 0
    else
      var m := ArgMax(xs[..|xs| - 1]);
      if xs[|xs| - 1] > xs[m] then |xs| - 1 else m
  }

  /** The three properties above single out one index: the first maximum is unique. */
  lemma ArgMaxUnique(xs: seq<real>, k: nat)
    requires k < |xs|
    requires forall j :: 0 <= j < |xs| ==> xs[j] <= xs[k]
    requires forall j :: 0 <= j < k ==> xs[j] < xs[k]
    ensures ArgMax(xs) == k
  {
  }

  /**
   One call: compute the posterior parameters (kept on the strategy) and
   play the bandit whose Beta sample is the largest, the first one on ties.
   */
  function BayesCall(s: BayesStrategy, thrown: seq<int>, returned: seq<int>, samples: seq<real>)
    : (res: (int, BayesStrategy))
    requires |thrown| == |returned| == |samples| == s.nBandits > 0
    ensures 0 <= res.0 < s.nBandits
    ensures forall j :: 0 <= j < |samples| ==> samples[j] <= samples[res.0]
    ensures forall j :: 0 <= j < res.0 ==> samples[j] < samples[res.0]
    ensures res.1 == s.(posterior := Posterior(s.base, thrown, returned))
  {
    (ArgMax(samples), s.(posterior := Posterior(s.base, thrown, returned)))
  }

  // ---------------------------------------------------------------------
  // The strategy capability
  // ---------------------------------------------------------------------

  datatype Strategy = Repeat(repeat: RepeatStrategy) | Bayes(bayes: BayesStrategy)

  /**
   The strategy was built for `n` bandits and can be called with their
   counters. Thompson sampling also needs a bandit to take the arg-max of
   and a positive prior strength, without which the Beta sampler refuses
   the parameters of a bandit never thrown.
   */
  predicate Ready(s: Strategy, n: nat)
  {
    match s
    case Repeat(r) => RepeatReady(r, n)
    case Bayes(b) => b.nBandits == n && n > 0 && b.base > 0.0
  }

  /**
   Ask a strategy for the next bandit. The index is always in range and the
   strategy stays ready for the same number of bandits.
   */
  function Choose(s: Strategy, thrown: seq<int>, returned: seq<int>, d: Draw): (res: (int, Strategy))
    requires |thrown| == |returned|
    requires Ready(s, |thrown|)
    requires Fits(d, |thrown|)
    ensures 0 <= res.0 < |thrown|
    ensures Ready(res.1, |thrown|)
    ensures res.1.Repeat? == s.Repeat?
  {
    match s
    case Repeat(r) =>
      var (b, r') := RepeatCall(r, returned, d.randomIndex);
      (b, Repeat(r'))
    case Bayes(t) =>
      var (b, t') := BayesCall(t, thrown, returned, d.samples);
      (b, Bayes(t'))
  }
}
