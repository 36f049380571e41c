# Multi-armed bandit simulator, modelled in Dafny

This project models the bookkeeping and decision logic of a multi-armed
bandit simulator. It has these parts:

- **bandits**: each has a fixed success rate and a coin throw that pays when a
  uniform draw is at or below that rate;
- **the pool** (`Bandits`): it owns the bandits and keeps two counters per
  bandit, `thrown` and `returned`, plus the totals `tot_thrown` and
  `tot_returned`;
- **two strategies** that pick the next bandit from those counters:
  - the sticky random strategy (`RepeatStrategy`);
  - Thompson sampling over Beta posteriors (`BayesStrategy`).

All randomness is an input to the model, so every operation is a
deterministic function. The inputs are:

- the uniform draws of a bandit's throw;
- the index `randint` would return;
- the vector of Beta samples;
- the uniform rates drawn when a pool is built without rates;
- the draw a bandit makes when its requested rate is negative.

One trial's inputs are bundled in a `Draw`.

Files, one module each:

- `sums.dfy` (`Sums`): sums of counter and rate sequences, with helper lemmas.
- `arm.dfy` (`Arm`): one bandit, its construction, the `n`-coin throw and the single-coin reward.
- `strategies.dfy` (`Strategies`): the sticky random strategy, the Beta posterior parameters, first-maximum arg-max, Thompson sampling, and the `Choose` dispatcher that stands for the abstract strategy call.
- `simulator.dfy` (`Simulator`): the pool and its counter invariant, `reset`, construction with optional balanced rescaling, one trial, a batch of trials as a pure reference `Run`, and the imperative `Throw` loop that is proved equal to it.
- `scenarios.dfy` (`Scenarios`): concrete situations: the sticky strategy's first call, posteriors with no data, ties, a rescaled rate above 1, the zero-rate edge, and a two-bandit pool with rates 1.0 and 0.0.

The counter invariant (`Simulator.Consistent`) has three parts:

- every bandit has one `thrown` and one `returned` counter;
- `0 <= returned[i] <= thrown[i]` for every bandit;
- the totals are the sums of the per-bandit counters.

`reset` establishes it and every trial keeps it.

## Model

Two small helpers have no row of their own. `Simulator.Requested` stands for `if not rates` (bandits.py:38) and is covered by the `Simulator.New` row. `Arm.Pays` stands for the `<=` test (bandits.py:18) and is covered by the `Arm.Throw`, `Arm.Reward` and `Scenarios.ZeroRateEdge` rows.

| member | source | states |
|---|---|---|
| Arm.Make | practice/week_8_bayes_bandits/bandits.py:11-12 | a non-negative requested rate is kept as is (no upper bound); a negative one is replaced by the draw; with a non-negative draw the rate is never negative |
| Arm.Throw | practice/week_8_bayes_bandits/bandits.py:17-18 | throwing n coins pays back between 0 and n of them |
| Arm.ThrowAllPay | practice/week_8_bayes_bandits/bandits.py:17-18 | all n coins pay exactly when every draw is at or below the rate |
| Arm.ThrowNonePay | practice/week_8_bayes_bandits/bandits.py:17-18 | no coin pays exactly when every draw is above the rate |
| Arm.ThrowSplit | practice/week_8_bayes_bandits/bandits.py:17-18 | the payout of a batch is the sum of the payouts of its two halves, as a count of independent Bernoulli trials |
| Arm.ThrowMonotone | practice/week_8_bayes_bandits/bandits.py:17-18 | against the same draws, a higher rate never pays less |
| Arm.Reward | practice/week_8_bayes_bandits/bandits.py:17-18 | the single-coin throw made on each trial pays 0 or 1, and pays 1 exactly when the draw is at or below the rate |
| Strategies.NewRepeat | practice/week_8_bayes_bandits/bandits.py:82-85 | a new sticky strategy is committed to bandit 0 with remembered return 0, and can be called whenever there is at least one bandit |
| Strategies.RepeatCall | practice/week_8_bayes_bandits/bandits.py:87-93 | it stays on the last bandit when that bandit's win count rose above the remembered one, and otherwise takes the random index (possibly the same bandit); afterwards it remembers the chosen bandit's win count and returns that bandit, which is in range |
| Strategies.NewBayes | practice/week_8_bayes_bandits/bandits.py:99-101 | a Thompson-sampling strategy keeps its number of bandits and prior strength, and can be called once there is a bandit and the prior strength is positive |
| Strategies.Posterior | practice/week_8_bayes_bandits/bandits.py:105-106 | one Beta per bandit; alpha exceeds half the prior strength by the wins, and alpha + beta is the prior strength plus the coins thrown |
| Strategies.PosteriorPositive | practice/week_8_bayes_bandits/bandits.py:105-106 | with a positive prior strength and returned <= thrown, every alpha and beta is strictly positive, as the Beta sampler requires |
| Strategies.ArgMax | practice/week_8_bayes_bandits/bandits.py:109 | the result is an index in range; its element is at least every element; every earlier element is strictly smaller (first maximum) |
| Strategies.ArgMaxUnique | practice/week_8_bayes_bandits/bandits.py:109 | those three properties determine the index: any index having them is the arg-max |
| Strategies.BayesCall | practice/week_8_bayes_bandits/bandits.py:103-109 | it plays the bandit with the largest Beta sample, the first on ties, and keeps the posterior parameters of this call on the strategy |
| Strategies.Choose | practice/week_8_bayes_bandits/bandits.py:68-70 | either strategy returns an index of one of the bandits and stays callable for the same number of bandits |
| Simulator.Reset | practice/week_8_bayes_bandits/bandits.py:30-34 | all counters and totals become zero, one pair of counters per bandit, and the counter invariant holds |
| Simulator.ArmWithinTotals | practice/week_8_bayes_bandits/bandits.py:45-55 | under the invariant, returned[i] <= thrown[i] <= tot_thrown and returned[i] <= tot_returned |
| Simulator.Rescale | practice/week_8_bayes_bandits/bandits.py:39 | balanced rescaling keeps every rate's proportion to the sum, and the rescaled rates sum to n_bandits / 2 |
| Simulator.New | practice/week_8_bayes_bandits/bandits.py:36-43 | a rate list shorter than n_bandits fails at its first missing index; a balanced request over a zero sum fails exactly when some bandit's rate is positive (it would become +inf), and otherwise every bandit draws its own rate (NaN and -inf fail `>= 0`); otherwise bandit i gets the (rescaled) i-th rate, or the random one when no rates are given; with n_bandits = 0 the pool is empty; all counters are zero and consistent |
| Simulator.RescaleNonNegative | practice/week_8_bayes_bandits/bandits.py:39 | balanced rescaling of non-negative rates with a non-zero sum leaves every rate non-negative |
| Simulator.BalancedPoolSum | practice/week_8_bayes_bandits/bandits.py:36-43 | with one non-negative rate per bandit and a non-zero sum, a balanced pool is built and its bandits' rates sum to n_bandits / 2 |
| Simulator.Trial | practice/week_8_bayes_bandits/bandits.py:50-53 | recording a coin changes only the chosen bandit's two counters and the two totals, each by one and by the reward, and keeps the invariant for a 0/1 reward |
| Simulator.Step | practice/week_8_bayes_bandits/bandits.py:47-53 | one trial plays an in-range bandit, gets a 0/1 reward (1 exactly when the draw is at or below that bandit's rate), adds one to tot_thrown and the reward to tot_returned, never decreases a counter and keeps the invariant |
| Simulator.Run | practice/week_8_bayes_bandits/bandits.py:45-55 | n sequential trials, each seeing the counters the previous ones left, keep the counter invariant and the bandits, leave the strategy callable, and record one choice and one reward per trial |
| Simulator.RunAdvances | practice/week_8_bayes_bandits/bandits.py:45-55 | after n trials tot_thrown grew by exactly n, tot_returned by at most n, and no per-bandit counter decreased |
| Simulator.RunTrace | practice/week_8_bayes_bandits/bandits.py:45-55 | every chosen bandit of a batch is in range, every reward is 0 or 1, and tot_returned grew by exactly the sum of the rewards |
| Simulator.RunLedger | practice/week_8_bayes_bandits/bandits.py:47-53 | after a batch, each bandit's thrown count grew by the number of times it was chosen and its returned count by the rewards of those trials; so a bandit never chosen is unchanged |
| Simulator.RepeatSticksAfterWin | practice/week_8_bayes_bandits/bandits.py:87-93 | in the engine, after a trial on bandit b the next sticky call keeps b without consulting the random index exactly when that trial paid, and otherwise takes the random index (which may be b again) |
| Simulator.BayesStepPositive | practice/week_8_bayes_bandits/bandits.py:105-108 | in the engine, Thompson sampling only asks the Beta sampler for strictly positive alpha and beta, one pair per bandit |
| Simulator.Throw | practice/week_8_bayes_bandits/bandits.py:45-55 | the imperative loop ends in the pool and strategy of the sequential run; it returns the new tot_returned; tot_thrown grew by exactly the number of draws and tot_returned by at most that; no counter decreased and the invariant holds |
| Scenarios.RepeatFirstCallStays | practice/week_8_bayes_bandits/bandits.py:84-93 | a fresh sticky strategy that sees returned = [1, 0, 0] stays on bandit 0 and remembers return 1 |
| Scenarios.RepeatFirstCallJumps | practice/week_8_bayes_bandits/bandits.py:84-93 | a fresh sticky strategy that sees no wins jumps to the random index |
| Scenarios.NoDataPosteriorIsUniform | practice/week_8_bayes_bandits/bandits.py:99-106 | with no data and prior strength 2.0, every posterior is Beta(1, 1) |
| Scenarios.BayesTieGoesFirst | practice/week_8_bayes_bandits/bandits.py:108-109 | equal samples select bandit 0 |
| Scenarios.RescaleCanExceedOne | practice/week_8_bayes_bandits/bandits.py:39 | rescaling rates [0.9, 0.1, 0.1] gives a first rate above 1 |
| Scenarios.EmptyBalancedPool | practice/week_8_bayes_bandits/bandits.py:36-43 | balanced construction of zero bandits builds an empty pool |
| Scenarios.ZeroBalancedRatesDrawTheirOwn | practice/week_8_bayes_bandits/bandits.py:11-12 | balancing rates [0.0, 0.0] gives NaN rates, so both bandits draw their own |
| Scenarios.OppositeBalancedRatesOverflow | practice/week_8_bayes_bandits/bandits.py:39 | balancing rates [1.0, -1.0] divides a positive rate by a zero sum |
| Scenarios.ZeroRateEdge | practice/week_8_bayes_bandits/bandits.py:17-18 | a rate-0 bandit pays nothing over positive draws, but a draw of exactly 0 pays |
| Scenarios.TwoArmStep | practice/week_8_bayes_bandits/bandits.py:47-53 | with rates 1.0 and 0.0, a trial whose draw is strictly inside (0, 1) keeps bandit 0 paying every coin and bandit 1 paying none |
| Scenarios.TwoArmRun | practice/week_8_bayes_bandits/bandits.py:45-55 | with rates 1.0 and 0.0 and draws strictly inside (0, 1), tot_returned equals bandit 0's thrown count after any batch, whichever strategy chooses |
| Scenarios.TwoArmFromScratch | practice/week_8_bayes_bandits/bandits.py:36-55 | a fresh pool with rates [1.0, 0.0] throws exactly one coin per draw and gets back exactly the coins thrown into bandit 0 |

## Left out

- Random number generation (`np.random.random`, `randint`, `beta`) is replaced by injected values. The Beta distribution itself is not modelled, and neither is any statistical or convergence claim about the strategies.
- Floating point is not modelled. Rates, draws and samples are exact reals, so the `<=` comparison and the rescaling division are exact.
- String rendering of bandits and pools, the strategy `name` class method, and the unused plotting and copy imports are left out. They only affect presentation.
- Counters are unbounded integers. numpy's 64-bit counters could overflow, but no reachable run comes close.
- Two Python type accidents are not modelled. `not rates` is ambiguous for a numpy array of more than one element. `n_bandits * rates` repeats a Python list instead of scaling it. The model treats a given rate list (empty counts as absent) as numbers and scales it.
- Simulator.New: a balanced request over a zero sum turns a positive rate into +inf in numpy, and that bandit then pays on every draw. The model has no infinite rates, so it reports `InfiniteRate` instead. NaN and -inf rates from the same division are modelled: they fail `return_rate >= 0`, so the bandit draws its own rate. A rate list shorter than `n_bandits` ends in an IndexError in the source and in `MissingRate` here. Extra rates never become bandits, in either; under balanced rescaling they still count in the sum, in both.
- Class-level mutable defaults are not modelled. All state is per instance, and every operation returns new values.
- Strategies.Choose requires the strategy to have been built for the pool's number of bandits, which the engine always does. In the source, a mismatch is not always an error: a sticky strategy built for fewer bandits never jumps to the last ones, and one built for 0 bandits makes `randint` raise ValueError; Thompson sampling built for fewer bandits ignores the last ones; either strategy built for more bandits can index past the end of the counters and raise an IndexError.
- Strategies.BayesCall requires at least one bandit, because `np.argmax` of an empty list raises ValueError.
- Strategies.BayesCall on its own does not reject non-positive Beta parameters, which the sampler would reject; the samples are inputs. The engine only calls it on a strategy whose prior strength is positive (`Strategies.Ready`), and `Simulator.BayesStepPositive` shows that every parameter it then computes is positive.
- Strategies.Choose excludes every Thompson-sampling strategy with a non-positive prior strength. The source is more permissive: `np.random.beta` raises ValueError only on a call where some bandit's alpha or beta is not positive. That always happens on the first call after a reset, where every parameter is half the prior strength. It need not happen later: with base 0.0, thrown = [2, 2] and returned = [1, 1], every parameter is 1.0 and the call runs.
- Strategies.Choose cannot be called for a pool of 0 bandits, because no strategy is ready for it. So `Simulator.Run` and `Simulator.Throw` do not model `throw(strategy, n)` on an empty pool. The source runs that call without touching the strategy when n = 0, and returns 0.
- Strategy indices are in range by construction, and the engine requires that. Python's negative-index wrap-around is therefore never reached and is not modelled.
- Python's in-place mutation of the counter arrays is modelled as a new `Bandits` value returned by each operation. Likewise, the strategy's updated state is returned next to its choice.

## Notes

- One might expect a bandit of rate 0 never to pay. The code compares `draw <= rate`, so a uniform draw of exactly 0.0 pays even at rate 0. The model follows the code: `Scenarios.ZeroRateEdge` shows both facts, and the two-bandit scenarios assume draws strictly above 0.
