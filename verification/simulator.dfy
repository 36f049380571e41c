/**
 The bandit pool: the bandits, the per-bandit counters `thrown` (coins put
 into each bandit) and `returned` (coins it paid back), and their totals.
 A trial asks the strategy for a bandit, throws one coin into it and
 updates that bandit's counters and the two totals.
 */
module Simulator {
  import opened Sums
  import opened Arm
  import opened Strategies

  datatype Bandits = Bandits(
    bandits: seq<Bandit>,
    thrown: seq<int>,
    returned: seq<int>,
    totThrown: int,
    totReturned: int)

  /**
   The counter invariant: one pair of counters per bandit, no bandit paid
   back more coins than it was given, and the totals are the sums of the
   per-bandit counters.
   */
  predicate Consistent(p: Bandits)
  {
    && |p.thrown| == |p.bandits|
    && |p.returned| == |p.bandits|
    && (forall i :: 0 <= i < |p.bandits| ==> 0 <= p.returned[i] <= p.thrown[i])
    && Sum(p.thrown) == p.totThrown
    && Sum(p.returned) == p.totReturned
  }

  /** Restart a simulation: all counters back to zero, bandits kept. */
  function Reset(p: Bandits): (p': Bandits)
    ensures p'.bandits == p.bandits
    ensures p'.totThrown == 0 && p'.totReturned == 0
    ensures |p'.thrown| == |p.bandits| && |p'.returned| == |p.bandits|
    ensures forall i :: 0 <= i < |p.bandits| ==> p'.thrown[i] == 0 && p'.returned[i] == 0
    ensures Consistent(p')
  {
    SumZeros(|p.bandits|);
    Bandits(p.bandits, seq(|p.bandits|, _ => 0), seq(|p.bandits|, _ => 0), 0, 0)
  }

  /** In a consistent pool no per-bandit counter exceeds its total. */
  lemma ArmWithinTotals(p: Bandits, i: int)
    requires Consistent(p)
    requires 0 <= i < |p.bandits|
    ensures 0 <= p.returned[i] <= p.thrown[i] <= p.totThrown
    ensures p.returned[i] <= p.totReturned
  {
    SumBoundsElement(p.thrown, i);
    SumBoundsElement(p.returned, i);
  }

  // ---------------------------------------------------------------------
  // Construction
  // ---------------------------------------------------------------------

  datatype ConfigError =
    | InfiniteRate            // balanced rescaling over a zero sum turns a positive rate into +inf
    | MissingRate(index: nat) // fewer rates than bandits: the first index that is missing

  datatype Result<T> = Ok(value: T) | Err(error: ConfigError)

  /**
   Balanced rescaling: every rate is multiplied by n / (2 * sum), so the
   proportions are kept and the rates sum to n / 2. Individual rates may
   end up above 1.
   */
  function Rescale(n: nat, rates: seq<real>): (r: seq<real>)
    requires RealSum(rates) != 0.0
    ensures |r| == |rates|
    ensures forall i :: 0 <= i < |r| ==> r[i] * (2.0 * RealSum(rates)) == n as real * rates[i]
    ensures RealSum(r) == n as real / 2.0
  {
    var total := RealSum(rates);
    var c := n as real / (2.0 * total);
    var r := seq(|rates|, i requires 0 <= i < |rates| => c * rates[i]);
    RealSumScaled(rates, r, c);
    assert c * total == n as real / 2.0;
    r
  }

  /** The rates asked for; an empty list counts as none, and random rates are used. */
  function Requested(rates: seq<real>, randomRates: seq<real>): seq<real>
  {
    if |rates| == 0 then randomRates else rates
  }

  /** The rate of every bandit of a pool, in order. */
  function Rates(bs: seq<Bandit>): (r: seq<real>)
    ensures |r| == |bs|
    ensures forall i :: 0 <= i < |bs| ==> r[i] == bs[i].rate
  {
    seq(|bs|, i requires 0 <= i < |bs| => bs[i].rate)
  }

  /**
   Balanced rescaling over a zero sum divides `n * rate` by zero. Following
   IEEE arithmetic that gives +inf for a positive product, and NaN (for a
   zero product) or -inf otherwise. This predicate says some bandit would get
   +inf.
   */
  predicate ZeroSumOverflows(n: nat, rates: seq<real>)
  {
    exists i :: 0 <= i < n && i < |rates| && rates[i] > 0.0
  }

  /**
   Build a pool of `n` bandits. `randomRates` stands for the uniform rates
   drawn when none are given, `fallbacks[i]` for the draw bandit `i` makes
   when its rate is not a non-negative number.
   - A rate list shorter than `n` fails at the first missing index.
   - Balanced rescaling over a zero sum leaves NaN or -inf for every
     bandit whose rate is not positive, and the bandit draws its own rate.
     A positive rate would become +inf, which is an error here.
   - Otherwise bandit `i` gets the (possibly rescaled) `i`-th rate.
   All counters start at zero. With `n = 0` the pool is empty whatever the
   rates.
   */
  function New(n: nat, rates: seq<real>, balanced: bool, randomRates: seq<real>, fallbacks: seq<real>)
    : (res: Result<Bandits>)
    requires |randomRates| == n && |fallbacks| == n
    ensures res == Err(MissingRate(|Requested(rates, randomRates)|)) <==> |Requested(rates, randomRates)| < n
    ensures res == Err(InfiniteRate) <==>
      && |Requested(rates, randomRates)| >= n
      && balanced && RealSum(Requested(rates, randomRates)) == 0.0
      && ZeroSumOverflows(n, Requested(rates, randomRates))
    ensures res.Ok? ==>
      && |res.value.bandits| == n
      && res.value.totThrown == 0 && res.value.totReturned == 0
      && Consistent(res.value)
    ensures res.Ok? && balanced && RealSum(Requested(rates, randomRates)) == 0.0 ==>
      forall i :: 0 <= i < n ==> res.value.bandits[i] == Bandit(fallbacks[i])
    ensures res.Ok? && !(balanced && RealSum(Requested(rates, randomRates)) == 0.0) ==>
      var eff := if balanced then Rescale(n, Requested(rates, randomRates)) else Requested(rates, randomRates);
      forall i :: 0 <= i < n ==> res.value.bandits[i] == Make(eff[i], fallbacks[i])
  {
    var requested := Requested(rates, randomRates);
    if |requested| < n then Err(MissingRate(|requested|))
    else if balanced && RealSum(requested) == 0.0 then
      if ZeroSumOverflows(n, requested) then Err(InfiniteRate)
      else
        var bs := seq(n, i requires 0 <= i < n => Bandit(fallbacks[i]));
        Ok(Reset(Bandits(bs, [], [], 0, 0)))
    else
      var eff := if balanced then Rescale(n, requested) else requested;
      var bs := seq(n, i requires 0 <= i < n => Make(eff[i], fallbacks[i]));
      Ok(Reset(Bandits(bs, [], [], 0, 0)))
  }

  /** Rescaling non-negative rates of positive sum keeps every rate non-negative. */
  lemma RescaleNonNegative(n: nat, rates: seq<real>)
    requires forall i :: 0 <= i < |rates| ==> 0.0 <= rates[i]
    requires RealSum(rates) != 0.0
    ensures forall i :: 0 <= i < |rates| ==> 0.0 <= Rescale(n, rates)[i]
  {
    RealSumNonNegative(rates);
    var total := RealSum(rates);
    var r := Rescale(n, rates);
    forall i | 0 <= i < |rates|
      ensures 0.0 <= r[i]
    {
      assert r[i] * (2.0 * total) == n as real * rates[i];
    }
  }

  /**
   With non-negative requested rates, one per bandit, of positive sum, a
   balanced pool is built and its bandits' rates sum to n / 2.
   */
  lemma BalancedPoolSum(n: nat, rates: seq<real>, randomRates: seq<real>, fallbacks: seq<real>)
    requires |randomRates| == n && |fallbacks| == n
    requires |Requested(rates, randomRates)| == n
    requires forall i :: 0 <= i < n ==> 0.0 <= Requested(rates, randomRates)[i]
    requires RealSum(Requested(rates, randomRates)) != 0.0
    ensures New(n, rates, true, randomRates, fallbacks).Ok?
    ensures RealSum(Rates(New(n, rates, true, randomRates, fallbacks).value.bandits)) == n as real / 2.0
  {
    var eff := Rescale(n, Requested(rates, randomRates));
    RescaleNonNegative(n, Requested(rates, randomRates));
    assert Rates(New(n, rates, true, randomRates, fallbacks).value.bandits) == eff;
  }

  // ---------------------------------------------------------------------
  // Trials
  // ---------------------------------------------------------------------

  /**
   Record one coin thrown into bandit `b` with reward `r`. Only bandit `b`'s
   counters and the two totals change, and the counter invariant survives a
   reward of 0 or 1.
   */
  function Trial(p: Bandits, b: int, r: int): (p': Bandits)
    requires 0 <= b < |p.thrown| && b < |p.returned|
    ensures p'.bandits == p.bandits
    ensures |p'.thrown| == |p.thrown| && |p'.returned| == |p.returned|
    ensures forall i :: 0 <= i < |p.thrown| && i != b ==> p'.thrown[i] == p.thrown[i]
    ensures forall i :: 0 <= i < |p.returned| && i != b ==> p'.returned[i] == p.returned[i]
    ensures p'.thrown[b] == p.thrown[b] + 1 && p'.returned[b] == p.returned[b] + r
    ensures p'.totThrown == p.totThrown + 1 && p'.totReturned == p.totReturned + r
    ensures Consistent(p) && 0 <= r <= 1 ==> Consistent(p')
  {
    SumUpdate(p.thrown, b, p.thrown[b] + 1);
    SumUpdate(p.returned, b, p.returned[b] + r);
    p.(thrown := p.thrown[b := p.thrown[b] + 1],
       returned := p.returned[b := p.returned[b] + r],
       totReturned := p.totReturned + r,
       totThrown := p.totThrown + 1)
  }

  /**
   `q` is `p` after `n` more trials: both keep the counter invariant over the
   same bandits, tot_thrown grew by exactly `n`, tot_returned by at most `n`,
   and no per-bandit counter decreased.
   */
  predicate Advanced(p: Bandits, q: Bandits, n: nat)
  {
    && Consistent(p) && Consistent(q)
    && q.bandits == p.bandits
    && q.totThrown == p.totThrown + n
    && p.totReturned <= q.totReturned <= p.totReturned + n
    && (forall j :: 0 <= j < |p.bandits| ==> p.thrown[j] <= q.thrown[j] && p.returned[j] <= q.returned[j])
  }

  lemma AdvancedTrans(p: Bandits, q: Bandits, r: Bandits, m: nat, n: nat)
    requires Advanced(p, q, m) && Advanced(q, r, n)
    ensures Advanced(p, r, m + n)
  {
  }

  datatype TrialResult = TrialResult(pool: Bandits, strategy: Strategy, choice: int, reward: int)

  /**
   One trial: the strategy chooses from the current counters, the chosen
   bandit's single coin pays 0 or 1, and the trial is recorded.
   */
  function Step(p: Bandits, s: Strategy, d: Draw): (t: TrialResult)
    requires Consistent(p) && Ready(s, |p.bandits|) && Fits(d, |p.bandits|)
    ensures 0 <= t.choice < |p.bandits|
    ensures t.reward == 0 || t.reward == 1
    ensures t.reward == 1 <==> Pays(p.bandits[t.choice], d.uniform)
    ensures Ready(t.strategy, |p.bandits|)
    ensures Advanced(p, t.pool, 1)
    ensures t.pool.totReturned == p.totReturned + t.reward
  {
    var (b, s') := Choose(s, p.thrown, p.returned, d);
    var r := Reward(p.bandits[b], d.uniform);
    TrialResult(Trial(p, b, r), s', b, r)
  }

  /** A trial's pool is the recording of its own choice and reward. */
  lemma StepRecords(p: Bandits, s: Strategy, d: Draw)
    requires Consistent(p) && Ready(s, |p.bandits|) && Fits(d, |p.bandits|)
    ensures Step(p, s, d).pool == Trial(p, Step(p, s, d).choice, Step(p, s, d).reward)
  {
  }

  /** Every draw of a batch fits a pool of `n` bandits. */
  predicate AllFit(draws: seq<Draw>, n: nat)
  {
    forall k :: 0 <= k < |draws| ==> Fits(draws[k], n)
  }

  datatype Outcome = Outcome(pool: Bandits, strategy: Strategy, choices: seq<int>, rewards: seq<int>)

  /**
   The first `i` trials of a batch, run one after the other, each seeing the
   counters left by the ones before; with the bandits chosen and the rewards
   paid. The counter invariant holds throughout and the strategy stays
   callable.
   */
  function Run(p: Bandits, s: Strategy, draws: seq<Draw>, i: nat): (o: Outcome)
    requires Consistent(p) && Ready(s, |p.bandits|) && AllFit(draws, |p.bandits|)
    requires i <= |draws|
    ensures Consistent(o.pool) && Ready(o.strategy, |p.bandits|)
    ensures o.pool.bandits == p.bandits
    ensures |o.choices| == i && |o.rewards| == i
  {
    if i == 0 then Outcome(p, s, [], [])
    else
      var o := Run(p, s, draws, i - 1);
      var t := Step(o.pool, o.strategy, draws[i - 1]);
      Outcome(t.pool, t.strategy, o.choices + [t.choice], o.rewards + [t.reward])
  }

  /** Trial i runs on the pool and strategy the first i - 1 trials left. */
  lemma RunNext(p: Bandits, s: Strategy, draws: seq<Draw>, i: nat)
    requires Consistent(p) && Ready(s, |p.bandits|) && AllFit(draws, |p.bandits|)
    requires 0 < i <= |draws|
    ensures var o := Run(p, s, draws, i - 1);
      var t := Step(o.pool, o.strategy, draws[i - 1]);
      Run(p, s, draws, i).pool == t.pool && Run(p, s, draws, i).strategy == t.strategy
  {
  }

  /** Trial i extends the trace of the first i - 1 trials by its choice and its reward. */
  lemma RunNextTrace(p: Bandits, s: Strategy, draws: seq<Draw>, i: nat)
    requires Consistent(p) && Ready(s, |p.bandits|) && AllFit(draws, |p.bandits|)
    requires 0 < i <= |draws|
    ensures var o := Run(p, s, draws, i - 1);
      var t := Step(o.pool, o.strategy, draws[i - 1]);
      Run(p, s, draws, i) == Outcome(t.pool, t.strategy, o.choices + [t.choice], o.rewards + [t.reward])
  {
  }

  /**
   The first `i` trials advance the pool by `i` trials: tot_thrown grows by
   exactly i, tot_returned by at most i, and no counter decreases.
   */
  lemma {:induction false} RunAdvances(p: Bandits, s: Strategy, draws: seq<Draw>, i: nat)
    requires Consistent(p) && Ready(s, |p.bandits|) && AllFit(draws, |p.bandits|)
    requires i <= |draws|
    ensures Advanced(p, Run(p, s, draws, i).pool, i)
  {
    if i > 0 {
      RunAdvances(p, s, draws, i - 1);
      var o := Run(p, s, draws, i - 1);
      var t := Step(o.pool, o.strategy, draws[i - 1]);
      RunNext(p, s, draws, i);
      AdvancedTrans(p, o.pool, t.pool, i - 1, 1);
    }
  }

  /**
   The trace `choices`, `rewards` took pool `p` to pool `q`: every chosen
   bandit is in range, every reward is 0 or 1, and tot_returned grew by the
   sum of the rewards.
   */
  predicate Traced(p: Bandits, q: Bandits, choices: seq<int>, rewards: seq<int>)
  {
    && (forall k :: 0 <= k < |choices| ==> 0 <= choices[k] < |p.bandits|)
    && (forall k :: 0 <= k < |rewards| ==> rewards[k] == 0 || rewards[k] == 1)
    && q.totReturned == p.totReturned + Sum(rewards)
  }

  /** One more in-range trial with a 0/1 reward extends the trace. */
  lemma TracedTrial(p: Bandits, q: Bandits, q': Bandits, choices: seq<int>, rewards: seq<int>, c: int, r: int)
    requires Traced(p, q, choices, rewards)
    requires 0 <= c < |p.bandits| && (r == 0 || r == 1)
    requires q'.totReturned == q.totReturned + r
    ensures Traced(p, q', choices + [c], rewards + [r])
  {
    SumAppend(rewards, r);
  }

  /**
   The trace of the first `i` trials: every chosen bandit is in range, every
   reward is 0 or 1, and tot_returned grew by the sum of the rewards.
   */
  lemma {:induction false} RunTrace(p: Bandits, s: Strategy, draws: seq<Draw>, i: nat)
    requires Consistent(p) && Ready(s, |p.bandits|) && AllFit(draws, |p.bandits|)
    requires i <= |draws|
    ensures Traced(p, Run(p, s, draws, i).pool, Run(p, s, draws, i).choices, Run(p, s, draws, i).rewards)
  {
    if i > 0 {
      RunTrace(p, s, draws, i - 1);
      TracedRunNext(p, s, draws, i);
    }
  }

  /** Trial i extends the trace of the first i - 1 trials. */
  lemma TracedRunNext(p: Bandits, s: Strategy, draws: seq<Draw>, i: nat)
    requires Consistent(p) && Ready(s, |p.bandits|) && AllFit(draws, |p.bandits|)
    requires 0 < i <= |draws|
    requires Traced(p, Run(p, s, draws, i - 1).pool, Run(p, s, draws, i - 1).choices, Run(p, s, draws, i - 1).rewards)
    ensures Traced(p, Run(p, s, draws, i).pool, Run(p, s, draws, i).choices, Run(p, s, draws, i).rewards)
  {
    var o := Run(p, s, draws, i - 1);
    var t := Step(o.pool, o.strategy, draws[i - 1]);
    RunNextTrace(p, s, draws, i);
    TracedTrial(p, o.pool, t.pool, o.choices, o.rewards, t.choice, t.reward);
  }

  /** The rewards paid by bandit `b` over a batch. */
  function Earned(choices: seq<int>, rewards: seq<int>, b: int): int
    requires |choices| == |rewards|
  {
    if |choices| == 0 then 0
    else
      var last := |choices| - 1;
      Earned(choices[..last], rewards[..last], b) + (if choices[last] == b then rewards[last] else 0)
  }

  lemma EarnedAppend(choices: seq<int>, rewards: seq<int>, c: int, r: int, b: int)
    requires |choices| == |rewards|
    ensures Earned(choices + [c], rewards + [r], b) == Earned(choices, rewards, b) + (if c == b then r else 0)
  {
    assert (choices + [c])[..|choices|] == choices;
    assert (rewards + [r])[..|rewards|] == rewards;
  }

  /**
   Per-bandit ledger of pool `q` against starting pool `p`: each bandit's
   thrown count grew by the times it was chosen and its returned count by
   the rewards it paid.
   */
  predicate Ledger(p: Bandits, q: Bandits, choices: seq<int>, rewards: seq<int>)
    requires |choices| == |rewards|
  {
    && |q.thrown| == |p.thrown| && |q.returned| == |p.returned|
    && (forall b :: 0 <= b < |p.thrown| ==> q.thrown[b] == p.thrown[b] + multiset(choices)[b])
    && (forall b :: 0 <= b < |p.returned| ==> q.returned[b] == p.returned[b] + Earned(choices, rewards, b))
  }

  /** Recording one more trial extends the ledger by that trial. */
  lemma LedgerTrial(p: Bandits, q: Bandits, choices: seq<int>, rewards: seq<int>, c: int, r: int)
    requires |choices| == |rewards|
    requires Ledger(p, q, choices, rewards)
    requires 0 <= c < |q.thrown| && c < |q.returned|
    ensures Ledger(p, Trial(q, c, r), choices + [c], rewards + [r])
  {
    var q' := Trial(q, c, r);
    forall b | 0 <= b < |p.thrown|
      ensures q'.thrown[b] == p.thrown[b] + multiset(choices + [c])[b]
    {
      assert multiset(choices + [c])[b] == multiset(choices)[b] + (if c == b then 1 else 0);
    }
    forall b | 0 <= b < |p.returned|
      ensures q'.returned[b] == p.returned[b] + Earned(choices + [c], rewards + [r], b)
    {
      EarnedAppend(choices, rewards, c, r, b);
    }
  }

  /**
   The per-bandit ledger of the first `i` trials: each bandit was thrown one
   more coin per time it was chosen and paid back the rewards of those
   trials; so a bandit never chosen keeps its counters.
   */
  lemma {:induction false} RunLedger(p: Bandits, s: Strategy, draws: seq<Draw>, i: nat)
    requires Consistent(p) && Ready(s, |p.bandits|) && AllFit(draws, |p.bandits|)
    requires i <= |draws|
    ensures var o := Run(p, s, draws, i);
      forall b :: 0 <= b < |p.bandits| ==>
        && o.pool.thrown[b] == p.thrown[b] + multiset(o.choices)[b]
        && o.pool.returned[b] == p.returned[b] + Earned(o.choices, o.rewards, b)
  {
    RunLedgerHolds(p, s, draws, i);
  }

  /** The ledger of the first `i` trials, by induction on `i`. */
  lemma {:induction false} RunLedgerHolds(p: Bandits, s: Strategy, draws: seq<Draw>, i: nat)
    requires Consistent(p) && Ready(s, |p.bandits|) && AllFit(draws, |p.bandits|)
    requires i <= |draws|
    ensures Ledger(p, Run(p, s, draws, i).pool, Run(p, s, draws, i).choices, Run(p, s, draws, i).rewards)
  {
    if i > 0 {
      RunLedgerHolds(p, s, draws, i - 1);
      LedgerRunNext(p, s, draws, i);
    }
  }

  /** Trial i extends the ledger of the first i - 1 trials. */
  lemma LedgerRunNext(p: Bandits, s: Strategy, draws: seq<Draw>, i: nat)
    requires Consistent(p) && Ready(s, |p.bandits|) && AllFit(draws, |p.bandits|)
    requires 0 < i <= |draws|
    requires Ledger(p, Run(p, s, draws, i - 1).pool, Run(p, s, draws, i - 1).choices, Run(p, s, draws, i - 1).rewards)
    ensures Ledger(p, Run(p, s, draws, i).pool, Run(p, s, draws, i).choices, Run(p, s, draws, i).rewards)
  {
    var o := Run(p, s, draws, i - 1);
    var t := Step(o.pool, o.strategy, draws[i - 1]);
    RunNextTrace(p, s, draws, i);
    StepRecords(o.pool, o.strategy, draws[i - 1]);
    LedgerTrial(p, o.pool, o.choices, o.rewards, t.choice, t.reward);
  }

  /**
   The sticky strategy inside the engine: after a trial on bandit `b`, the
   next call keeps `b` without consulting the random index exactly when
   that trial paid out, and otherwise takes the random index (which may be
   `b` again).
   */
  lemma RepeatSticksAfterWin(p: Bandits, r: RepeatStrategy, d1: Draw, d2: Draw)
    requires Consistent(p) && RepeatReady(r, |p.bandits|)
    requires Fits(d1, |p.bandits|) && Fits(d2, |p.bandits|)
    ensures
      var t := Step(p, Repeat(r), d1);
      var next := Choose(t.strategy, t.pool.thrown, t.pool.returned, d2).0;
      (t.reward == 1 ==> next == t.choice) && (t.reward == 0 ==> next == d2.randomIndex)
  {
  }

  /**
   Thompson sampling inside the engine only ever asks the Beta sampler for
   strictly positive parameters.
   */
  lemma BayesStepPositive(p: Bandits, b: BayesStrategy, d: Draw)
    requires Consistent(p) && Ready(Bayes(b), |p.bandits|) && Fits(d, |p.bandits|)
    ensures var t := Step(p, Bayes(b), d);
      && t.strategy.Bayes?
      && |t.strategy.bayes.posterior| == |p.bandits|
      && forall j :: 0 <= j < |p.bandits| ==>
        t.strategy.bayes.posterior[j].alpha > 0.0 && t.strategy.bayes.posterior[j].beta > 0.0
  {
    PosteriorPositive(b.base, p.thrown, p.returned);
  }

  /**
   Throwing a batch of coins according to a strategy, one trial per draw.
   Returns the new pool, the strategy's new state and the total of coins
   returned. The result is the sequential run of all the trials: the thrown
   total grows by exactly the batch size, the returned total by at most
   that, and no counter decreases.
   */
  method Throw(p: Bandits, s: Strategy, draws: seq<Draw>) returns (p': Bandits, s': Strategy, total: int)
    requires Consistent(p) && Ready(s, |p.bandits|) && AllFit(draws, |p.bandits|)
    ensures p' == Run(p, s, draws, |draws|).pool && s' == Run(p, s, draws, |draws|).strategy
    ensures Ready(s', |p.bandits|)
    ensures Advanced(p, p', |draws|)
    ensures total == p'.totReturned
  {
    p', s' := p, s;
    var i := 0;
    while i < |draws|
      invariant 0 <= i <= |draws|
      invariant p' == Run(p, s, draws, i).pool && s' == Run(p, s, draws, i).strategy
    {
      var t := Step(p', s', draws[i]);
      i := i + 1;
      RunNext(p, s, draws, i);
      p', s' := t.pool, t.strategy;
    }
    RunAdvances(p, s, draws, |draws|);
    total := p'.totReturned;
  }
}
