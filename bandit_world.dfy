/** The multi-arm bandit world: Bernoulli bandits that count their plays and
    wins, a casino that plays one bandit and reports the outcome to every
    registered learner (the observer pattern), and the learners — epsilon
    greedy, annealing epsilon greedy, optimistic initial values, upper
    confidence bound and Thompson sampling — which keep per-arm pull counts
    and running-average reward estimates.

    The five learner classes of the source share one class `Agent` tagged by
    its `Kind`; `Feedback`, `Reset` and `Solve` branch on the kind where the
    source overrides a method. Every random draw (uniform samples, the
    random arm, the Beta samples) is a parameter. */
module BanditWorld {
  import opened Seqs
  import opened BanditHistory

  /** A classic one-armed bandit paying 1 with probability `pSuccess`. */
  class BernoulliBandit {
    const pSuccess: real
    var plays: nat
    var totalReward: nat

    /** A bandit never pays more than once per play. */
    predicate Valid()
      reads this
    {
      totalReward <= plays
    }

    constructor (pSuccess: real)
      ensures this.pSuccess == pSuccess && plays == 0 && totalReward == 0
      ensures Valid()
    {
      this.pSuccess := pSuccess;
      plays := 0;
      totalReward := 0;
    }

    /** One pull with uniform draw `draw`: reward 1 iff the draw is at most
        the success probability; the play and the reward are counted. */
    method Play(draw: real) returns (reward: int)
      modifies this
      ensures reward == Reward(draw, pSuccess)
      ensures plays == old(plays) + 1 && totalReward == old(totalReward) + reward
      ensures old(Valid()) ==> Valid()
    {
      var sample := draw;
      if sample > pSuccess {
        reward := 0;
      } else {
        reward := 1;
      }
      totalReward := totalReward + reward;
      plays := plays + 1;
    }

    method Reset()
      modifies this
      ensures plays == 0 && totalReward == 0 && Valid()
    {
      plays := 0;
      totalReward := 0;
    }

    /** The empirical success rate: wins over plays, or 0.0 before any play;
        always a proportion. */
    function WinProportion(): (r: real)
      reads this
      requires Valid()
      ensures 0.0 <= r <= 1.0
      ensures plays == 0 ==> r == 0.0
      ensures plays > 0 ==> r * plays as real == totalReward as real
    {
      if plays > 0 then totalReward as real / plays as real else 0.0
    }
  }

  /** `custom_bandit_problem(*means)`: one new bandit per mean, in order. */
  method CustomBanditProblem(means: seq<real>) returns (bandits: seq<BernoulliBandit>)
    ensures |bandits| == |means|
    ensures forall i :: 0 <= i < |means| ==>
      fresh(bandits[i]) && bandits[i].pSuccess == means[i] && bandits[i].plays == 0 && bandits[i].totalReward == 0
    ensures forall i, j :: 0 <= i < j < |bandits| ==> bandits[i] != bandits[j]
  {
    bandits := [];
    for i := 0 to |means|
      invariant |bandits| == i
      invariant forall k :: 0 <= k < i ==>
        fresh(bandits[k]) && bandits[k].pSuccess == means[k] && bandits[k].plays == 0 && bandits[k].totalReward == 0
      invariant forall k, j :: 0 <= k < j < i ==> bandits[k] != bandits[j]
    {
      var b := new BernoulliBandit(means[i]);
      bandits := bandits + [b];
    }
  }

  /** The success probabilities of the standard ten-armed problem. */
  const StandardMeans: seq<real> := [0.1, 0.7, 0.1, 0.2, 0.3, 0.4, 0.45, 0.6, 0.9, 0.75]

  /** The success probabilities of the small problem: three arms (its
      documentation says ten). */
  const SmallMeans: seq<real> := [0.3, 0.5, 0.1]

  method StandardBanditProblem() returns (bandits: seq<BernoulliBandit>)
    ensures |bandits| == 10
    ensures forall i :: 0 <= i < 10 ==>
      fresh(bandits[i]) && bandits[i].pSuccess == StandardMeans[i] && bandits[i].plays == 0 && bandits[i].totalReward == 0
    ensures forall i, j :: 0 <= i < j < |bandits| ==> bandits[i] != bandits[j]
  {
    bandits := CustomBanditProblem(StandardMeans);
  }

  method SmallBanditProblem() returns (bandits: seq<BernoulliBandit>)
    ensures |bandits| == 3
    ensures forall i :: 0 <= i < 3 ==>
      fresh(bandits[i]) && bandits[i].pSuccess == SmallMeans[i] && bandits[i].plays == 0 && bandits[i].totalReward == 0
    ensures forall i, j :: 0 <= i < j < |bandits| ==> bandits[i] != bandits[j]
  {
    bandits := CustomBanditProblem(SmallMeans);
  }

  /** The learner classes. */
  datatype Kind =
    | EpsilonGreedy
    | AnnealingEpsilonGreedy
    | OptimisticInitialValues
    | UpperConfidenceBound
    | ThompsonSamplingBeta

  /** The part of a learner's state that the feedback contracts compare
      against: its history, epsilon, starting estimates, budget and round
      counter. */
  datatype Learner = Learner(history: seq<Pull>, epsilon: real, start: seq<real>, budget: int, currentRound: int)

  /** A constructor argument as Python sees it: an int or a float. */
  datatype Number = IntNumber(i: int) | FloatNumber(f: real)

  /** `_validate_epsilon`: a float between 0 and 1 inclusive; an int, even
      0 or 1, is refused. */
  predicate ValidEpsilon(e: Number)
  {
    e.FloatNumber? && 0.0 <= e.f <= 1.0
  }

  /** `range(budget)` runs no round for a negative budget. */
  function Rounds(budget: int): (n: nat)
    ensures budget >= 0 ==> n == budget
    ensures budget < 0 ==> n == 0
  {
    if budget < 0 then 0 else budget
  }

  /** The random draws one `solve` consumes, round by round: the uniform
      sample that decides between exploring and exploiting, the arm that
      `random_action` picks, the uniform draw of the bandit that is played,
      and the Beta sampler as (round, arm, alpha, beta) ↦ sample. */
  datatype Draws = Draws(samples: seq<real>, choices: seq<nat>, plays: seq<real>,
                         beta: (nat, nat, nat, nat) -> real)

  /** The draws cover `rounds` rounds, and every random arm is one of `arms`
      (there is nothing to require of the arm when there are no arms: the
      draw itself raises then). */
  predicate Covers(d: Draws, rounds: nat, arms: nat)
  {
    rounds <= |d.samples| && rounds <= |d.choices| && rounds <= |d.plays|
    && (arms > 0 ==> forall t :: 0 <= t < rounds ==> d.choices[t] < arms)
  }

  /** The Beta sample of arm `a` in round `t`, drawn with parameters
      successes + 1 and failures + 1. */
  function Draw(beta: (nat, nat, nat, nat) -> real, t: nat, w: seq<nat>, l: seq<nat>, a: nat): real
    requires a < |w| == |l|
  {
    beta(t, a, w[a] + 1, l[a] + 1)
  }

  /** `np.argmax` of the first `n` Beta samples. */
  function PickBelow(beta: (nat, nat, nat, nat) -> real, t: nat, w: seq<nat>, l: seq<nat>, n: nat): (k: nat)
    requires 0 < n <= |w| == |l|
    ensures k < n
  {
    if n == 1 then 0
    else
      var k := PickBelow(beta, t, w, l, n - 1);
      if Draw(beta, t, w, l, n - 1) > Draw(beta, t, w, l, k) then n - 1 else k
  }

  /** The picked arm has the largest sample, and every arm before it a
      smaller one: numpy's first maximum. */
  lemma {:induction false} PickIsFirstMax(beta: (nat, nat, nat, nat) -> real, t: nat, w: seq<nat>, l: seq<nat>, n: nat)
    requires 0 < n <= |w| == |l|
    ensures var k := PickBelow(beta, t, w, l, n);
      (forall i :: 0 <= i < n ==> Draw(beta, t, w, l, i) <= Draw(beta, t, w, l, k))
      && (forall i :: 0 <= i < k ==> Draw(beta, t, w, l, i) < Draw(beta, t, w, l, k))
    decreases n
  {
    if n > 1 {
      PickIsFirstMax(beta, t, w, l, n - 1);
    }
  }

  /** The arm Thompson sampling plays after history `h` on `arms` arms. */
  function ThompsonPick(beta: (nat, nat, nat, nat) -> real, t: nat, h: seq<Pull>, arms: nat): (a: nat)
    requires arms > 0
    ensures a < arms
  {
    PickBelow(beta, t, WinCounts(h, arms), LossCounts(h, arms), arms)
  }

  /** The arm a learner plays in round `t` of `solve`: Thompson sampling the
      largest Beta sample, optimistic initial values always the best
      estimate, the epsilon-greedy learners the best estimate when the
      sample exceeds epsilon and the random arm otherwise. */
  function Choice(kind: Kind, eps: real, est: seq<real>, h: seq<Pull>, d: Draws, t: nat): (a: nat)
    requires kind != UpperConfidenceBound
    requires |est| > 0 && Covers(d, t + 1, |est|)
    ensures a < |est|
    ensures kind == OptimisticInitialValues ==> a == ArgMax(est)
    ensures (kind == EpsilonGreedy || kind == AnnealingEpsilonGreedy) ==>
      a == if d.samples[t] > eps then ArgMax(est) else d.choices[t]
    ensures kind == ThompsonSamplingBeta ==> a == ThompsonPick(d.beta, t, h, |est|)
  {
    match kind
    case ThompsonSamplingBeta => ThompsonPick(d.beta, t, h, |est|)
    case OptimisticInitialValues => ArgMax(est)
    case EpsilonGreedy => if d.samples[t] > eps then ArgMax(est) else d.choices[t]
    case AnnealingEpsilonGreedy => if d.samples[t] > eps then ArgMax(est) else d.choices[t]
  }

  /** The epsilon after `k` rounds: the annealing learner cools it after
      every feedback to `cooling(plays + 1)`; the others keep it. */
  function EpsilonAt(kind: Kind, cooling: nat -> real, eps0: real, played: nat, k: nat): real
  {
    if kind == AnnealingEpsilonGreedy && k > 0 then cooling(played + k + 1) else eps0
  }

  /** The feedback of round `t`: the chosen arm and what its bandit pays. */
  function NextPull(kind: Kind, eps: real, start: seq<real>, h: seq<Pull>, probs: seq<real>, d: Draws, t: nat): (p: Pull)
    requires kind != UpperConfidenceBound
    requires |start| == |probs| > 0 && Covers(d, t + 1, |probs|)
    ensures p.arm < |probs| && (p.reward == 0 || p.reward == 1)
  {
    var a := Choice(kind, eps, Estimates(start, h), h, d, t);
    Pull(a, Reward(d.plays[t], probs[a]))
  }

  /** The feedbacks of the first `k` rounds of `solve`, for a learner that
      starts from estimates `start`, history `h0` and epsilon `eps0` in a
      casino whose bandits have success probabilities `probs`. */
  function Played(kind: Kind, cooling: nat -> real, eps0: real, start: seq<real>, h0: seq<Pull>,
                  probs: seq<real>, d: Draws, k: nat): (ps: seq<Pull>)
    requires kind != UpperConfidenceBound
    requires |start| == |probs| && (k > 0 ==> |probs| > 0) && Covers(d, k, |probs|)
    ensures |ps| == k && ArmsBelow(ps, |probs|)
    decreases k
  {
    if k == 0 then []
    else
      var prev := Played(kind, cooling, eps0, start, h0, probs, d, k - 1);
      var eps := EpsilonAt(kind, cooling, eps0, |h0|, k - 1);
      prev + [NextPull(kind, eps, start, h0 + prev, probs, d, k - 1)]
  }

  /** A learner's vectors agree with its history on `arms` arms: each
      arm's count is its number of feedbacks, its mean the average of its
      rewards (its starting value before its first feedback), the total the
      sum of all rewards, and Thompson's counters its wins and losses. */
  ghost predicate Consistent(kind: Kind, arms: nat, start: seq<real>, h: seq<Pull>, actions: seq<nat>,
                             means: seq<real>, total: int, wins: seq<nat>, losses: seq<nat>)
  {
    |start| == arms && ArmsBelow(h, arms)
    && CountsOf(actions, h, arms) && MeansOf(means, start, h) && total == TotalReward(h)
    && (if kind == ThompsonSamplingBeta then WinsOf(wins, h, arms) && LossesOf(losses, h, arms)
        else wins == [] && losses == [])
  }

  /** `feedback` keeps a learner consistent: after pull `p` the history
      `h1` is one longer, the count of the pulled arm goes up by one, its
      mean takes the running-average step, the reward joins the total and,
      for Thompson sampling, the success counter (reward exactly 1) or the
      failure counter (any other reward) of the arm goes up by one; the
      counts then add up to the longer history. */
  lemma ConsistentAfterPull(kind: Kind, arms: nat, start: seq<real>, h: seq<Pull>, actions: seq<nat>,
                            means: seq<real>, total: int, wins: seq<nat>, losses: seq<nat>, p: Pull,
                            h1: seq<Pull>, actions1: seq<nat>, means1: seq<real>, total1: int,
                            wins1: seq<nat>, losses1: seq<nat>)
    requires Consistent(kind, arms, start, h, actions, means, total, wins, losses) && p.arm < arms
    requires h1 == h + [p] && total1 == total + p.reward
    requires actions1 == actions[p.arm := actions[p.arm] + 1]
    requires means1 == means[p.arm := UpdatedEstimate(actions[p.arm] + 1, means[p.arm], p.reward)]
    requires wins1 == if kind == ThompsonSamplingBeta && p.reward == 1 then wins[p.arm := wins[p.arm] + 1] else wins
    requires losses1 == if kind == ThompsonSamplingBeta && p.reward != 1 then losses[p.arm := losses[p.arm] + 1] else losses
    ensures Consistent(kind, arms, start, h1, actions1, means1, total1, wins1, losses1)
    ensures SumNats(actions1) == |h1|
  {
    CountsAfterPull(actions, h, p, arms);
    MeansAfterPull(means, actions, start, h, p);
    if kind == ThompsonSamplingBeta {
      WinsAfterPull(wins, h, p, arms);
      LossesAfterPull(losses, h, p, arms);
    }
    AppendPull(h, p, p.arm);
    assert ArmsBelow(h1, arms) by {
      assert forall t :: 0 <= t < |h| ==> h1[t] == h[t];
    }
    CountsAddUp(h1, arms);
    VectorsOf(actions1, wins, losses, means, start, h1, arms);
  }

  /** A consistent learner's vectors are determined by its history, so
      those after a feedback are exactly the stepped vectors: the pulled
      arm's count up by one, its mean moved by the running-average step, the
      reward added to the total, and for Thompson sampling one more success
      (reward exactly 1) or failure (any other reward) of that arm; every other
      arm keeps its entries. */
  lemma FeedbackSteps(kind: Kind, arms: nat, start: seq<real>, h: seq<Pull>, actions: seq<nat>,
                      means: seq<real>, total: int, wins: seq<nat>, losses: seq<nat>, p: Pull,
                      actions1: seq<nat>, means1: seq<real>, total1: int, wins1: seq<nat>, losses1: seq<nat>)
    requires Consistent(kind, arms, start, h, actions, means, total, wins, losses) && p.arm < arms
    requires Consistent(kind, arms, start, h + [p], actions1, means1, total1, wins1, losses1)
    ensures actions1 == actions[p.arm := actions[p.arm] + 1]
    ensures means1 == means[p.arm := UpdatedEstimate(actions[p.arm] + 1, means[p.arm], p.reward)]
    ensures total1 == total + p.reward
    ensures wins1 == if kind == ThompsonSamplingBeta && p.reward == 1 then wins[p.arm := wins[p.arm] + 1] else wins
    ensures losses1 == if kind == ThompsonSamplingBeta && p.reward != 1 then losses[p.arm := losses[p.arm] + 1] else losses
  {
    var a2 := actions[p.arm := actions[p.arm] + 1];
    var m2 := means[p.arm := UpdatedEstimate(actions[p.arm] + 1, means[p.arm], p.reward)];
    var w2 := if kind == ThompsonSamplingBeta && p.reward == 1 then wins[p.arm := wins[p.arm] + 1] else wins;
    var l2 := if kind == ThompsonSamplingBeta && p.reward != 1 then losses[p.arm := losses[p.arm] + 1] else losses;
    ConsistentAfterPull(kind, arms, start, h, actions, means, total, wins, losses, p, h + [p], a2, m2, total + p.reward, w2, l2);
    VectorsOf(actions1, wins1, losses1, means1, start, h + [p], arms);
    VectorsOf(a2, w2, l2, m2, start, h + [p], arms);
  }

  /** A learner. `actions`, `means`, `wins` and `losses` are the numpy
      vectors `_actions`, `_means`, `_number_of_rewards_1` and
      `_number_of_rewards_0` (the last two only for Thompson sampling, empty
      otherwise); `history` records the feedbacks since the last reset and
      `start` the estimate of an arm not yet played. */
  class Agent {
    const kind: Kind
    const env: Casino
    /** False for a learner whose `__init__` raised after it had registered
        itself: none of its vectors or totals exist. */
    const initialised: bool
    /** The annealing schedule t ↦ 1 / log(t + 1e-6). */
    const cooling: nat -> real
    var epsilon: real
    var budget: int
    var totalReward: int
    var currentRound: int
    var actions: seq<nat>
    var means: seq<real>
    var wins: seq<nat>
    var losses: seq<nat>
    ghost var start: seq<real>
    ghost var history: seq<Pull>

    /** Counts, sums and means agree with the history: each arm's count is
        its number of feedbacks, its mean the average of its rewards (its
        starting value before its first feedback), the total the sum of all
        rewards, and Thompson's counters its wins and losses. */
    ghost predicate Valid()
      reads this
    {
      Consistent(kind, |env.bandits|, start, history, actions, means, totalReward, wins, losses)
    }

    /** The state after construction or reset: no feedback yet, every count
        zero and every mean the starting value. */
    ghost predicate Fresh(startValue: real)
      reads this
    {
      Valid() && history == [] && currentRound == 0 && start == seq(|env.bandits|, _ => startValue)
    }

    /** The fields as `__init__` sets them; epsilon is 0.0 for the learners
        that have none, and the annealing learner cools it to
        `cooling(sum of counts + 1)` at once. */
    constructor (kind: Kind, env: Casino, cooling: nat -> real, epsilon: real, budget: int, startValue: real)
      ensures this.kind == kind && this.env == env && this.cooling == cooling && this.budget == budget && initialised
      ensures this.epsilon == if kind == AnnealingEpsilonGreedy then cooling(1) else epsilon
      ensures Fresh(startValue) && totalReward == 0
      ensures actions == seq(|env.bandits|, _ => 0) && means == seq(|env.bandits|, _ => startValue)
    {
      var arms := |env.bandits|;
      this.kind := kind;
      this.env := env;
      this.cooling := cooling;
      this.budget := budget;
      initialised := true;
      totalReward := 0;
      currentRound := 0;
      var zeros: seq<nat> := seq(arms, _ => 0);
      actions := zeros;
      means := seq(arms, _ => startValue);
      wins := if kind == ThompsonSamplingBeta then zeros else [];
      losses := if kind == ThompsonSamplingBeta then zeros else [];
      start := seq(arms, _ => startValue);
      history := [];
      this.epsilon := epsilon;
      new;
      Zeroed(startValue);
      if kind == AnnealingEpsilonGreedy {
        SumNatsZero(arms);
        AnnealEpsilon();
      }
    }

    /** The object a learner's `__init__` has registered before raising:
        nothing past the registration was set. */
    constructor Unbuilt(kind: Kind, env: Casino)
      ensures this.kind == kind && this.env == env && !initialised
    {
      this.kind := kind;
      this.env := env;
      cooling := _ => 0.0;
      initialised := false;
    }

    /** Zero counts and constant means are the state of an empty history. */
    lemma Zeroed(startValue: real)
      requires actions == seq(|env.bandits|, _ => 0) && means == seq(|env.bandits|, _ => startValue)
      requires start == seq(|env.bandits|, _ => startValue) && history == [] && totalReward == 0
      requires if kind == ThompsonSamplingBeta then wins == actions && losses == actions else wins == [] && losses == []
      ensures Valid()
    {
      var arms := |env.bandits|;
      assert CountsOf(actions, [], arms) && MeansOf(means, start, []);
      assert kind == ThompsonSamplingBeta ==> WinsOf(wins, [], arms) && LossesOf(losses, [], arms);
    }

    /** The pull counts add up to the number of feedbacks since the reset. */
    lemma CountsAreFeedbacks()
      requires Valid()
      ensures SumNats(actions) == |history|
    {
      VectorsOf(actions, wins, losses, means, start, history, |env.bandits|);
      CountsAddUp(history, |env.bandits|);
    }

    /** Thompson's successes and failures add up to the pulls of each arm. */
    lemma ThompsonCounters()
      requires Valid() && kind == ThompsonSamplingBeta
      ensures forall a :: 0 <= a < |actions| ==> wins[a] + losses[a] == actions[a]
    {
      forall a | 0 <= a < |actions|
        ensures wins[a] + losses[a] == actions[a]
      {
        WinsAndLosses(history, a);
      }
    }

    /** `feedback(sender, arm, reward)`, as the casino calls it: the
        vectors take one step (`Update`), the annealing learner cools its
        epsilon, and the learner stays consistent with its history, which is
        one feedback longer. */
    method Feedback(arm: nat, reward: int)
      requires Valid() && arm < |actions|
      modifies this
      ensures Valid() && AfterFeedback(old(Snap()), Pull(arm, reward), 0)
    {
      ghost var p := Pull(arm, reward);
      ghost var h0, a0, m0, t0, w0, l0 := history, actions, means, totalReward, wins, losses;
      Update(arm, reward);
      if kind == AnnealingEpsilonGreedy {
        AnnealEpsilon();
      }
      ConsistentAfterPull(kind, |env.bandits|, start, h0, a0, m0, t0, w0, l0, p,
                          history, actions, means, totalReward, wins, losses);
    }

    /** The statements of `feedback`: the reward is added to the total,
        only this arm's count goes up by one and only its mean moves, by the
        running-average step for the new count; Thompson sampling counts a
        reward of exactly 1 as a success of the arm and anything else as a
        failure. */
    method Update(arm: nat, reward: int)
      requires arm < |actions| && arm < |means|
      requires kind == ThompsonSamplingBeta ==> arm < |wins| && arm < |losses|
      modifies this
      ensures totalReward == old(totalReward) + reward
      ensures actions == old(actions)[arm := old(actions)[arm] + 1]
      ensures means == old(means)[arm := UpdatedEstimate(old(actions)[arm] + 1, old(means)[arm], reward)]
      ensures wins == if kind == ThompsonSamplingBeta && reward == 1 then old(wins)[arm := old(wins)[arm] + 1] else old(wins)
      ensures losses == if kind == ThompsonSamplingBeta && reward != 1 then old(losses)[arm := old(losses)[arm] + 1] else old(losses)
      ensures history == old(history) + [Pull(arm, reward)]
      ensures epsilon == old(epsilon) && budget == old(budget) && currentRound == old(currentRound) && start == old(start)
    {
      totalReward := totalReward + reward;
      if kind == ThompsonSamplingBeta {
        if reward == 1 {
          wins := wins[arm := wins[arm] + 1];
        } else {
          losses := losses[arm := losses[arm] + 1];
        }
      }
      actions := actions[arm := actions[arm] + 1];
      means := means[arm := UpdatedEstimate(actions[arm], means[arm], reward)];
      history := history + [Pull(arm, reward)];
    }

    /** `_anneal_epsilon`: epsilon cools to `cooling(sum of counts + 1)`. */
    method AnnealEpsilon()
      modifies this
      ensures epsilon == cooling(SumNats(actions) + 1)
      ensures budget == old(budget) && totalReward == old(totalReward) && currentRound == old(currentRound)
      ensures actions == old(actions) && means == old(means) && wins == old(wins) && losses == old(losses)
      ensures history == old(history) && start == old(start)
    {
      epsilon := cooling(SumNats(actions) + 1);
    }

    /** The state compared by the feedback contracts. */
    ghost function Snap(): Learner
      reads this
    {
      Learner(history, epsilon, start, budget, currentRound)
    }

    /** The state after one feedback `p` from state `b`, with `rounds`
        rounds counted meanwhile: the history one pull longer, the annealing learner's epsilon cooled to
        `cooling(feedbacks + 1)`, everything else as in `b`. */
    ghost predicate AfterFeedback(b: Learner, p: Pull, rounds: nat)
      reads this
    {
      history == b.history + [p]
      && start == b.start && budget == b.budget && currentRound == b.currentRound + rounds
      && epsilon == (if kind == AnnealingEpsilonGreedy then cooling(|history| + 1) else b.epsilon)
    }

    /** `reset`: total and round back to zero and new zero vectors for the
        counts and means (the optimistic learner inherits this reset, so its
        means become 0, not its initial value); epsilon and budget are kept,
        so an annealed epsilon carries over. */
    method Reset()
      modifies this
      ensures Fresh(0.0) && totalReward == 0
      ensures epsilon == old(epsilon) && budget == old(budget)
      ensures actions == seq(|env.bandits|, _ => 0) && means == seq(|env.bandits|, _ => 0.0)
    {
      var arms := |env.bandits|;
      totalReward := 0;
      currentRound := 0;
      actions := seq(arms, _ => 0);
      means := seq(arms, _ => 0.0);
      if kind == ThompsonSamplingBeta {
        wins := seq(arms, _ => 0);
        losses := seq(arms, _ => 0);
      } else {
        wins := [];
        losses := [];
      }
      history := [];
      start := seq(arms, _ => 0.0);
      Zeroed(0.0);
    }

    /** The epsilon and budget properties of the epsilon-greedy family;
        neither setter validates. Upper confidence bound and Thompson
        sampling define neither property: assigning `epsilon` there adds an
        attribute that no method reads, and assigning `budget` adds one that
        `solve` ignores, since it still runs `_total_rounds` rounds. */
    method SetEpsilon(e: real)
      modifies this
      ensures epsilon == e && budget == old(budget) && history == old(history) && start == old(start)
      ensures totalReward == old(totalReward) && currentRound == old(currentRound)
      ensures actions == old(actions) && means == old(means) && wins == old(wins) && losses == old(losses)
    {
      epsilon := e;
    }

    method SetBudget(b: int)
      modifies this
      ensures budget == if kind == UpperConfidenceBound || kind == ThompsonSamplingBeta then old(budget) else b
      ensures epsilon == old(epsilon) && history == old(history) && start == old(start)
      ensures totalReward == old(totalReward) && currentRound == old(currentRound)
      ensures actions == old(actions) && means == old(means) && wins == old(wins) && losses == old(losses)
    {
      if kind != UpperConfidenceBound && kind != ThompsonSamplingBeta {
        budget := b;
      }
    }

    /** `best_arm`: the lowest index of the largest mean; numpy raises
        ValueError when there are no arms. */
    function BestArm(): (r: Result<nat>)
      reads this
      ensures r.Failure? <==> |means| == 0
      ensures r.Failure? ==> r.error == ValueError
      ensures r.Success? ==> (r.value < |means|
        && (forall i :: 0 <= i < |means| ==> means[i] <= means[r.value])
        && (forall i :: 0 <= i < r.value ==> means[i] < means[r.value]))
    {
      if |means| == 0 then Failure(ValueError) else Success(ArgMax(means))
    }

    /** One round of `solve`: choose an arm (explore through
        `random_action` or exploit the best mean, or take the largest Beta
        sample), let the casino play it, and count the round. Every observer
        is told the same feedback. */
    method Round(d: Draws, t: nat)
      requires kind != UpperConfidenceBound
      requires env.Valid() && this in env.observers
      requires |env.bandits| > 0 && Covers(d, t + 1, |env.bandits|)
      modifies env.bandits, env.observers
      ensures env.Valid()
      ensures var p := NextPull(kind, old(epsilon), old(start), old(history), env.Probs(), d, t);
        AfterFeedback(old(Snap()), p, 1) && env.Told(old(env.Snapshot()), p, this)
    {
      var arms := |env.bandits|;
      ghost var before := env.Snapshot();
      ghost var p := NextPull(kind, epsilon, start, history, env.Probs(), d, t);
      VectorsOf(actions, wins, losses, means, start, history, arms);
      if kind == ThompsonSamplingBeta || kind == OptimisticInitialValues || d.samples[t] > epsilon {
        var arm := if kind == ThompsonSamplingBeta then PickBelow(d.beta, t, wins, losses, arms) else ArgMax(means);
        assert p == Pull(arm, Reward(d.plays[t], env.bandits[arm].pSuccess));
        PlayArm(arm, d.plays[t]);
      } else {
        assert p == Pull(d.choices[t], Reward(d.plays[t], env.bandits[d.choices[t]].pSuccess));
        Explore(d.choices[t], d.plays[t]);
      }
      CountRound(before, p);
    }

    /** `self._env.action(arm)` in `_exploit` and in Thompson sampling's
        `solve`: in a valid casino the arm is played and every observer is
        told its reward. */
    method PlayArm(arm: nat, draw: real)
      requires env.Valid() && arm < |env.bandits|
      modifies env.bandits, env.observers
      ensures env.Valid() && env.Told(old(env.Snapshot()), Pull(arm, Reward(draw, env.bandits[arm].pSuccess)), null)
    {
      env.NoneUnbuilt();
      var r := env.Action(arm, draw);
    }

    /** `_explore`: `random_action` on a valid casino with arms plays the
        random arm `choice` and tells every observer its reward. */
    method Explore(choice: nat, draw: real)
      requires env.Valid() && choice < |env.bandits|
      modifies env.bandits, env.observers
      ensures env.Valid() && env.Told(old(env.Snapshot()), Pull(choice, Reward(draw, env.bandits[choice].pSuccess)), null)
    {
      env.NoneUnbuilt();
      var r := env.RandomAction(choice, draw);
    }

    /** `self._current_round += 1` after the casino has told every
        observer: only this learner's round counter moves. */
    method CountRound(ghost before: seq<Learner>, ghost p: Pull)
      requires env.Valid() && this in env.observers && env.Told(before, p, null)
      modifies this
      ensures env.Valid() && env.Told(before, p, this)
    {
      currentRound := currentRound + 1;
    }

    /** `solve` after `t` of its rounds, started from history `h0`,
        epsilon `e0`, round `c0` and observer states `before0`: `t` more
        rounds counted, epsilon as `EpsilonAt` says, and the feedbacks
        `Played` describes appended to this learner's history and to every
        observer's history. */
    ghost predicate Solving(h0: seq<Pull>, e0: real, c0: int, before0: seq<Learner>, probs: seq<real>, d: Draws, t: nat)
      reads this, env, env.observers
    {
      kind != UpperConfidenceBound && |start| == |probs| && (t > 0 ==> |probs| > 0) && Covers(d, t, |probs|)
      && currentRound == c0 + t && epsilon == EpsilonAt(kind, cooling, e0, |h0|, t)
      && var ps := Played(kind, cooling, e0, start, h0, probs, d, t);
         history == h0 + ps && env.Extended(before0, ps)
    }

    /** One more round of `solve` keeps `Solving`, with one more round. */
    method Step(d: Draws, t: nat, ghost h0: seq<Pull>, ghost e0: real, ghost c0: int,
                ghost before0: seq<Learner>, ghost probs: seq<real>)
      requires env.Valid() && this in env.observers && probs == env.Probs()
      requires |env.bandits| > 0 && Covers(d, t + 1, |env.bandits|)
      requires Solving(h0, e0, c0, before0, probs, d, t)
      modifies env.bandits, env.observers
      ensures env.Valid() && budget == old(budget) && start == old(start)
      ensures Solving(h0, e0, c0, before0, probs, d, t + 1)
    {
      ghost var before := env.Snapshot();
      ghost var ps := Played(kind, cooling, e0, start, h0, probs, d, t);
      ghost var p := NextPull(kind, epsilon, start, history, probs, d, t);
      ghost var b := Snap();
      Round(d, t);
      env.ToldExtends(before0, before, ps, p, this);
      SolvingStep(h0, e0, c0, before0, probs, d, t, b, ps, p);
    }

    /** `Solving` after one more feedback `p`, the one `NextPull` gives for
        round `t`, from state `b` after `t` rounds. */
    lemma SolvingStep(h0: seq<Pull>, e0: real, c0: int, before0: seq<Learner>, probs: seq<real>, d: Draws, t: nat,
                      b: Learner, ps: seq<Pull>, p: Pull)
      requires kind != UpperConfidenceBound && |start| == |probs| > 0 && Covers(d, t + 1, |probs|)
      requires ps == Played(kind, cooling, e0, start, h0, probs, d, t) && b.history == h0 + ps
      requires b.epsilon == EpsilonAt(kind, cooling, e0, |h0|, t) && b.currentRound == c0 + t && b.start == start
      requires p == NextPull(kind, b.epsilon, start, b.history, probs, d, t)
      requires AfterFeedback(b, p, 1) && env.Extended(before0, ps + [p])
      ensures Solving(h0, e0, c0, before0, probs, d, t + 1)
    {
      assert Played(kind, cooling, e0, start, h0, probs, d, t + 1) == ps + [p];
      assert history == h0 + (ps + [p]);
      assert epsilon == EpsilonAt(kind, cooling, e0, |h0|, t + 1);
    }

    /** `solve`: `budget` rounds (none for a negative budget), each counted
        in `currentRound`; every observer of the casino, this learner among
        them, is told the feedbacks `Played` describes. With no arms the
        first round raises ValueError (numpy's argmax, and its random choice,
        of an empty range). */
    method Solve(d: Draws) returns (err: Option<PyError>)
      requires kind != UpperConfidenceBound
      requires env.Valid() && this in env.observers
      requires Covers(d, Rounds(budget), |env.bandits|)
      modifies env.bandits, env.observers
      ensures env.Valid() && budget == old(budget) && start == old(start)
      ensures err.Some? <==> Rounds(budget) > 0 && |env.bandits| == 0
      ensures err.Some? ==> err == Some(ValueError) && history == old(history) && currentRound == old(currentRound)
      ensures err.None? ==> (currentRound == old(currentRound) + Rounds(budget)
        && epsilon == EpsilonAt(kind, cooling, old(epsilon), |old(history)|, Rounds(budget))
        && history == old(history) + Played(kind, cooling, old(epsilon), old(start), old(history), env.Probs(), d, Rounds(budget))
        && env.Extended(old(env.Snapshot()), Played(kind, cooling, old(epsilon), old(start), old(history), env.Probs(), d, Rounds(budget))))
    {
      var rounds := Rounds(budget);
      if rounds > 0 && |env.bandits| == 0 {
        return Some(ValueError);
      }
      ghost var probs := env.Probs();
      ghost var before0 := env.Snapshot();
      for t := 0 to rounds
        invariant env.Valid() && budget == old(budget) && start == old(start)
        invariant Solving(old(history), old(epsilon), old(currentRound), before0, probs, d, t)
      {
        Step(d, t, old(history), old(epsilon), old(currentRound), before0, probs);
      }
      return None;
    }
  }

  /** `EpsilonGreedy(epsilon, budget, environment)`: the arguments are
      validated first, and only a valid learner is registered. */
  method NewEpsilonGreedy(epsilon: Number, budget: int, env: Casino) returns (r: Result<Agent>)
    requires env.Registered()
    modifies env
    ensures env.Registered() && (old(env.Valid()) ==> env.Valid())
    ensures r.Failure? <==> !ValidEpsilon(epsilon) || budget < 0
    ensures r.Failure? ==> r.error == ValueError && env.observers == old(env.observers)
    ensures r.Success? ==> (fresh(r.value)
      && r.value.kind == EpsilonGreedy && r.value.epsilon == epsilon.f && r.value.budget == budget
      && r.value.Fresh(0.0) && r.value.totalReward == 0
      && env.observers == old(env.observers) + [r.value])
  {
    if !ValidEpsilon(epsilon) || budget < 0 {
      return Failure(ValueError);
    }
    var a := new Agent(EpsilonGreedy, env, _ => 0.0, epsilon.f, budget, 0.0);
    env.RegisterObserver(a);
    r := Success(a);
  }

  /** `AnnealingEpsilonGreedy(budget, environment)`: no validation;
      epsilon starts at `cooling(1)`. */
  method NewAnnealingEpsilonGreedy(budget: int, env: Casino, cooling: nat -> real) returns (a: Agent)
    requires env.Registered()
    modifies env
    ensures fresh(a)
    ensures a.kind == AnnealingEpsilonGreedy && a.cooling == cooling && a.epsilon == cooling(1) && a.budget == budget
    ensures a.Fresh(0.0) && a.totalReward == 0
    ensures env.observers == old(env.observers) + [a]
    ensures env.Registered() && (old(env.Valid()) ==> env.Valid())
  {
    a := new Agent(AnnealingEpsilonGreedy, env, cooling, 0.0, budget, 0.0);
    env.RegisterObserver(a);
  }

  /** `OptimisticInitialValues(budget, environment, init_value)`: no
      validation; every mean starts at `initValue`. */
  method NewOptimisticInitialValues(budget: int, env: Casino, initValue: real) returns (a: Agent)
    requires env.Registered()
    modifies env
    ensures fresh(a)
    ensures a.kind == OptimisticInitialValues && a.budget == budget
    ensures a.Fresh(initValue) && a.totalReward == 0
    ensures a.means == seq(|env.bandits|, _ => initValue)
    ensures env.observers == old(env.observers) + [a]
    ensures env.Registered() && (old(env.Valid()) ==> env.Valid())
  {
    a := new Agent(OptimisticInitialValues, env, _ => 0.0, 0.0, budget, initValue);
    env.RegisterObserver(a);
  }

  /** `UpperConfidenceBound(budget, environment)` and
      `ThompsonSamplingBeta(budget, environment)`: the learner registers
      itself before the budget is validated, so a refused one stays
      registered with nothing else set, and every later `action` of the
      casino raises AttributeError when it reaches it. */
  method NewRegisteredFirst(kind: Kind, budget: int, env: Casino) returns (r: Result<Agent>)
    requires kind == UpperConfidenceBound || kind == ThompsonSamplingBeta
    requires env.Registered()
    modifies env
    ensures |env.observers| == |old(env.observers)| + 1 && env.observers[..|old(env.observers)|] == old(env.observers)
    ensures fresh(env.observers[|old(env.observers)|]) && env.Registered()
    ensures r.Failure? <==> budget < 0
    ensures r.Failure? ==> (r.error == ValueError && !env.observers[|old(env.observers)|].initialised
      && FirstUnbuilt(env.observers) < |env.observers| && !env.Valid())
    ensures r.Success? ==> (r.value == env.observers[|old(env.observers)|] && r.value.initialised
      && r.value.kind == kind && r.value.budget == budget && r.value.Fresh(0.0) && r.value.totalReward == 0
      && (old(env.Valid()) ==> env.Valid()))
  {
    if budget < 0 {
      var a := new Agent.Unbuilt(kind, env);
      env.RegisterObserver(a);
      return Failure(ValueError);
    }
    var a := new Agent(kind, env, _ => 0.0, 0.0, budget, 0.0);
    env.RegisterObserver(a);
    r := Success(a);
  }

  /** The position of the first observer whose `__init__` raised, or the
      number of observers when every one is complete. */
  function FirstUnbuilt(obs: seq<Agent>): (k: nat)
    ensures k <= |obs| && forall j :: 0 <= j < k ==> obs[j].initialised
    ensures k < |obs| ==> !obs[k].initialised
  {
    if obs == [] || !obs[0].initialised then 0 else 1 + FirstUnbuilt(obs[1..])
  }

  /** The environment: a list of bandits, the position of its one-shot
      iterator, and the registered observers. */
  class Casino {
    const bandits: seq<BernoulliBandit>
    var currentIndex: nat
    var observers: seq<Agent>

    constructor (bandits: seq<BernoulliBandit>)
      requires forall b :: b in bandits ==> b.Valid()
      ensures this.bandits == bandits && currentIndex == 0 && observers == []
      ensures Valid()
    {
      this.bandits := bandits;
      currentIndex := 0;
      observers := [];
    }

    /** Every bandit is consistent; every observer is registered once, is
        of this casino and, when its `__init__` completed, is a consistent
        learner. */
    ghost predicate Registered()
      reads this, bandits, observers
    {
      (forall b :: b in bandits ==> b.Valid())
      && (forall i, j :: 0 <= i < j < |observers| ==> observers[i] != observers[j])
      && (forall o :: o in observers ==> o.env == this && (o.initialised ==> o.Valid()))
    }

    /** Every observer completed its `__init__`. */
    predicate Complete()
      reads this
    {
      forall o :: o in observers ==> o.initialised
    }

    /** As `Registered`, and every observer is a complete learner. */
    ghost predicate Valid()
      reads this, bandits, observers
    {
      Registered() && Complete()
    }

    /** The success probability of each arm. */
    function Probs(): (p: seq<real>)
      ensures |p| == |bandits| && forall i :: 0 <= i < |bandits| ==> p[i] == bandits[i].pSuccess
    {
      seq(|bandits|, i requires 0 <= i < |bandits| => bandits[i].pSuccess)
    }

    /** `number_of_arms`. */
    function NumberOfArms(): (n: nat)
      ensures n == |bandits|
    {
      |bandits|
    }

    /** `casino[index]`, with Python's list indexing: a negative index
        counts from the end, anything else out of range raises IndexError. */
    function Get(index: int): (r: Result<BernoulliBandit>)
      ensures r.Failure? <==> index < -|bandits| || index >= |bandits|
      ensures r.Failure? ==> r.error == IndexError
      ensures r.Success? && index >= 0 ==> r.value == bandits[index]
      ensures r.Success? && index < 0 ==> r.value == bandits[|bandits| + index]
    {
      if index < -|bandits| || index >= |bandits| then Failure(IndexError)
      else if index < 0 then Success(bandits[|bandits| + index])
      else Success(bandits[index])
    }

    method RegisterObserver(o: Agent)
      modifies this
      ensures observers == old(observers) + [o] && currentIndex == old(currentIndex)
      ensures old(Registered()) && o.env == this && o !in old(observers) && (o.initialised ==> o.Valid())
        ==> Registered()
    {
      observers := observers + [o];
    }

    /** The compared state of every observer, in registration order. */
    ghost function Snapshot(): (s: seq<Learner>)
      reads this, observers
      ensures |s| == |observers| && forall j :: 0 <= j < |observers| ==> s[j] == observers[j].Snap()
    {
      seq(|observers|, j reads this, observers requires 0 <= j < |observers| => observers[j].Snap())
    }

    /** Every observer took feedback `p` from its state in `before`, and
        `counted`, if it is one of them, has also counted a round. */
    ghost predicate Told(before: seq<Learner>, p: Pull, counted: Agent?)
      reads this, observers
    {
      |before| == |observers|
      && forall j :: 0 <= j < |observers| ==>
           observers[j].AfterFeedback(before[j], p, if observers[j] == counted then 1 else 0)
    }

    /** In a valid casino every observer completed its `__init__`, so no
        report stops early. */
    lemma NoneUnbuilt()
      requires Valid()
      ensures FirstUnbuilt(observers) == |observers|
    {
    }

    /** Every observer's history is its history in `before` followed by `ps`. */
    ghost predicate Extended(before: seq<Learner>, ps: seq<Pull>)
      reads this, observers
    {
      |before| == |observers| && forall j :: 0 <= j < |observers| ==> observers[j].history == before[j].history + ps
    }

    /** Telling every observer one more feedback extends the histories by it. */
    lemma ToldExtends(before0: seq<Learner>, before: seq<Learner>, ps: seq<Pull>, p: Pull, counted: Agent?)
      requires Told(before, p, counted) && |before0| == |before|
      requires forall j :: 0 <= j < |before| ==> before[j].history == before0[j].history + ps
      ensures Extended(before0, ps + [p])
    {
    }

    /** `notify_observers(arm, reward)`: `feedback` on every registered
        learner, in registration order, until one whose `__init__` raised:
        its `feedback` raises AttributeError and the later observers are
        not told. */
    method NotifyObservers(arm: nat, reward: int) returns (err: Option<PyError>)
      requires Registered() && arm < |bandits|
      modifies observers
      ensures Registered() && (old(Complete()) ==> Complete())
      ensures err.Some? <==> FirstUnbuilt(observers) < |observers|
      ensures err.Some? ==> err.value == AttributeError
      ensures TellingAt(old(Snapshot()), Pull(arm, reward), FirstUnbuilt(observers))
      ensures err.None? ==> Told(old(Snapshot()), Pull(arm, reward), null)
    {
      ghost var before := Snapshot();
      var k := 0;
      while k < |observers| && observers[k].initialised
        invariant 0 <= k <= FirstUnbuilt(observers)
        invariant Registered()
        invariant TellingAt(before, Pull(arm, reward), k)
      {
        TellNext(before, arm, reward, k);
        k := k + 1;
      }
      if k < |observers| {
        return Some(AttributeError);
      }
      return None;
    }

    /** Feedback taken by every observer is `Told`. */
    lemma AllTold(before: seq<Learner>, p: Pull)
      requires TellingAt(before, p, |observers|)
      ensures Told(before, p, null)
    {
    }

    /** The first `k` observers took feedback `p` from their states in
        `before`; the others still have them. */
    ghost predicate TellingAt(before: seq<Learner>, p: Pull, k: nat)
      reads this, observers
    {
      |before| == |observers| && k <= |observers|
      && (forall j :: 0 <= j < k ==> observers[j].AfterFeedback(before[j], p, 0))
      && forall j :: k <= j < |observers| ==> observers[j].Snap() == before[j]
    }

    /** `feedback` on the `k`-th observer, a complete learner. */
    method TellNext(ghost before: seq<Learner>, arm: nat, reward: int, k: nat)
      requires Registered() && arm < |bandits| && k < |observers| && observers[k].initialised
      requires TellingAt(before, Pull(arm, reward), k)
      modifies observers[k]
      ensures Registered()
      ensures TellingAt(before, Pull(arm, reward), k + 1)
    {
      observers[k].Feedback(arm, reward);
    }

    /** `action(i)`: plays bandit `i` only (IndexError when there is none)
        and reports (i, reward) to the observers, AttributeError stopping
        the report at the first one whose `__init__` raised. */
    method Action(i: nat, draw: real) returns (r: Result<int>)
      requires Registered()
      modifies bandits, observers
      ensures Registered() && (old(Valid()) ==> Valid())
      ensures r.Failure? <==> i >= |bandits| || FirstUnbuilt(observers) < |observers|
      ensures r.Failure? ==> r.error == if i >= |bandits| then IndexError else AttributeError
      ensures i >= |bandits| ==> unchanged(observers) && unchanged(bandits)
      ensures i < |bandits| ==> (bandits[i].plays == old(bandits[i].plays) + 1
        && bandits[i].totalReward == old(bandits[i].totalReward) + Reward(draw, bandits[i].pSuccess)
        && (forall b :: b in bandits && b != bandits[i] ==> b.plays == old(b.plays) && b.totalReward == old(b.totalReward))
        && TellingAt(old(Snapshot()), Pull(i, Reward(draw, bandits[i].pSuccess)), FirstUnbuilt(observers)))
      ensures r.Success? ==> (r.value == Reward(draw, bandits[i].pSuccess) && Told(old(Snapshot()), Pull(i, r.value), null))
    {
      if i >= |bandits| {
        return Failure(IndexError);
      }
      var reward := PlayBandit(i, draw);
      var err := NotifyObservers(i, reward);
      if err.Some? {
        return Failure(err.value);
      }
      return Success(reward);
    }

    /** `self._bandits[i].play()`: only that bandit changes. */
    method PlayBandit(i: nat, draw: real) returns (reward: int)
      requires Registered() && i < |bandits|
      modifies bandits[i]
      ensures reward == Reward(draw, bandits[i].pSuccess)
      ensures bandits[i].plays == old(bandits[i].plays) + 1 && bandits[i].totalReward == old(bandits[i].totalReward) + reward
      ensures Registered() && Snapshot() == old(Snapshot()) && (old(Valid()) ==> Valid())
    {
      reward := bandits[i].Play(draw);
    }

    /** `random_action()`: plays the randomly chosen arm `choice`; numpy
        raises ValueError when there are no arms to choose from. */
    method RandomAction(choice: nat, draw: real) returns (r: Result<int>)
      requires Registered()
      requires |bandits| > 0 ==> choice < |bandits|
      modifies bandits, observers
      ensures Registered() && (old(Valid()) ==> Valid())
      ensures r.Failure? <==> |bandits| == 0 || FirstUnbuilt(observers) < |observers|
      ensures r.Failure? ==> r.error == if |bandits| == 0 then ValueError else AttributeError
      ensures |bandits| == 0 ==> unchanged(observers) && unchanged(bandits)
      ensures |bandits| > 0 ==> (bandits[choice].plays == old(bandits[choice].plays) + 1
        && bandits[choice].totalReward == old(bandits[choice].totalReward) + Reward(draw, bandits[choice].pSuccess)
        && (forall b :: b in bandits && b != bandits[choice] ==> b.plays == old(b.plays) && b.totalReward == old(b.totalReward))
        && TellingAt(old(Snapshot()), Pull(choice, Reward(draw, bandits[choice].pSuccess)), FirstUnbuilt(observers)))
      ensures r.Success? ==> (r.value == Reward(draw, bandits[choice].pSuccess)
        && Told(old(Snapshot()), Pull(choice, r.value), null))
    {
      if |bandits| == 0 {
        return Failure(ValueError);
      }
      r := Action(choice, draw);
    }

    /** `next(casino)`: the index moves on at every call, also past the end,
        and is never reset. */
    method Next() returns (b: Option<BernoulliBandit>)
      modifies this
      ensures currentIndex == old(currentIndex) + 1 && observers == old(observers)
      ensures b.None? <==> currentIndex > |bandits|
      ensures b.Some? ==> b.value == bandits[currentIndex - 1]
    {
      currentIndex := currentIndex + 1;
      if currentIndex > |bandits| {
        return None;
      }
      return Some(bandits[currentIndex - 1]);
    }

    /** `for bandit in casino`: `__iter__` returns the casino itself, so a
        first loop yields every bandit in order and any later loop nothing. */
    method Iterate() returns (yielded: seq<BernoulliBandit>)
      modifies this
      ensures yielded == if old(currentIndex) < |bandits| then bandits[old(currentIndex)..] else []
      ensures currentIndex == (if old(currentIndex) < |bandits| then |bandits| else old(currentIndex)) + 1
      ensures observers == old(observers)
    {
      yielded := [];
      var b := Next();
      while b.Some?
        invariant observers == old(observers) && currentIndex > old(currentIndex)
        invariant b.Some? ==> currentIndex <= |bandits| && b.value == bandits[currentIndex - 1]
        invariant b.None? ==> currentIndex > |bandits|
        invariant old(currentIndex) < |bandits| ==>
          currentIndex <= |bandits| + 1 && yielded == bandits[old(currentIndex)..currentIndex - 1]
        invariant old(currentIndex) >= |bandits| ==> b.None? && yielded == [] && currentIndex == old(currentIndex) + 1
        decreases |bandits| + 1 - currentIndex
      {
        yielded := yielded + [b.value];
        b := Next();
      }
    }
  }

  /** The arms and rewards of the first `k` rounds of `thompson_sampling`
      on the reward table `data` (`bandits` columns): each round plays the
      arm of the largest Beta sample and receives that row's cell. */
  function Sampled(data: seq<seq<int>>, bandits: nat, beta: (nat, nat, nat, nat) -> real, k: nat): (ps: seq<Pull>)
    requires k <= |data| && (k > 0 ==> bandits > 0)
    requires forall t :: 0 <= t < |data| ==> |data[t]| == bandits
    ensures |ps| == k
    decreases k
  {
    if k == 0 then []
    else
      var prev := Sampled(data, bandits, beta, k - 1);
      var a := ThompsonPick(beta, k - 1, prev, bandits);
      prev + [Pull(a, data[k - 1][a])]
  }

  /** Every sampled pull is one of the table's arms, paid that row's cell. */
  lemma {:induction false} SampledPulls(data: seq<seq<int>>, bandits: nat, beta: (nat, nat, nat, nat) -> real, k: nat)
    requires k <= |data| && (k > 0 ==> bandits > 0)
    requires forall t :: 0 <= t < |data| ==> |data[t]| == bandits
    ensures var ps := Sampled(data, bandits, beta, k);
      ArmsBelow(ps, bandits) && forall t :: 0 <= t < k ==> ps[t].reward == data[t][ps[t].arm]
    decreases k
  {
    if k > 0 {
      SampledPulls(data, bandits, beta, k - 1);
      var prev := Sampled(data, bandits, beta, k - 1);
      assert forall t :: 0 <= t < k - 1 ==> Sampled(data, bandits, beta, k)[t] == prev[t];
    }
  }

  /** A longer run begins with a shorter one: the first k rounds do not
      depend on how many rounds follow. */
  lemma {:induction false} SampledPrefix(data: seq<seq<int>>, bandits: nat, beta: (nat, nat, nat, nat) -> real, n: nat, k: nat)
    requires k <= n <= |data| && (n > 0 ==> bandits > 0)
    requires forall t :: 0 <= t < |data| ==> |data[t]| == bandits
    ensures Sampled(data, bandits, beta, n)[..k] == Sampled(data, bandits, beta, k)
    decreases n
  {
    if k < n {
      var prev := Sampled(data, bandits, beta, n - 1);
      assert Sampled(data, bandits, beta, n)[..k] == prev[..k];
      SampledPrefix(data, bandits, beta, n - 1, k);
    }
  }

  /** Round k of any run plays the Thompson arm of the rounds before it. */
  lemma SampledRound(data: seq<seq<int>>, bandits: nat, beta: (nat, nat, nat, nat) -> real, n: nat, k: nat)
    requires k < n <= |data| && bandits > 0
    requires forall t :: 0 <= t < |data| ==> |data[t]| == bandits
    ensures var ps := Sampled(data, bandits, beta, n);
      var a := ThompsonPick(beta, k, ps[..k], bandits);
      ps[k] == Pull(a, data[k][a])
  {
    SampledPrefix(data, bandits, beta, n, k + 1);
    SampledPrefix(data, bandits, beta, n, k);
    var ps := Sampled(data, bandits, beta, n);
    assert ps[..k + 1][..k] == ps[..k];
  }

  /** The state of the Thompson loop after `t` rounds: the selections,
      the success and failure counters and the total reward are those of
      the first t sampled rounds. */
  predicate Progress(data: seq<seq<int>>, bandits: nat, beta: (nat, nat, nat, nat) -> real, t: nat,
                     adsSelected: array<nat>, rewards1: array<nat>, rewards0: array<nat>, totalReward: int)
    requires forall u :: 0 <= u < |data| ==> |data[u]| == bandits
    reads adsSelected, rewards1, rewards0
  {
    t <= |data| && (t > 0 ==> bandits > 0) && adsSelected.Length == |data|
    && adsSelected != rewards1 && adsSelected != rewards0 && rewards1 != rewards0
    && rewards1.Length == bandits && rewards0.Length == bandits
    && var ps := Sampled(data, bandits, beta, t);
    (forall u :: 0 <= u < t ==> adsSelected[u] == ps[u].arm)
    && totalReward == TotalReward(ps)
    && forall a :: 0 <= a < bandits ==> rewards1[a] == ArmWins(ps, a) && rewards0[a] == ArmLosses(ps, a)
  }

  method ThompsonSampling(data: seq<seq<int>>, bandits: nat, beta: (nat, nat, nat, nat) -> real)
    returns (adsSelected: array<nat>, totalReward: int, err: Option<PyError>)
    requires forall t :: 0 <= t < |data| ==> |data[t]| == bandits
    ensures fresh(adsSelected) && adsSelected.Length == |data|
    ensures err.Some? <==> |data| > 0 && bandits == 0
    ensures err.Some? ==> err == Some(ValueError)
    ensures err.None? ==> var ps := Sampled(data, bandits, beta, |data|);
      (forall t :: 0 <= t < |data| ==> adsSelected[t] == ps[t].arm) && totalReward == TotalReward(ps)
  {
    adsSelected := new nat[|data|](_ => 0);
    var rewards1 := new nat[bandits](_ => 0);
    var rewards0 := new nat[bandits](_ => 0);
    totalReward := 0;
    if |data| > 0 && bandits == 0 {
      return adsSelected, totalReward, Some(ValueError);
    }
    for t := 0 to |data|
      invariant Progress(data, bandits, beta, t, adsSelected, rewards1, rewards0, totalReward)
    {
      totalReward := ThompsonRound(data, bandits, beta, t, adsSelected, rewards1, rewards0, totalReward);
    }
    err := None;
  }

  /** Round `t` of the Thompson loop: draw every arm's Beta sample from its
      counters, select the argmax, record it and count its reward. */
  method ThompsonRound(data: seq<seq<int>>, bandits: nat, beta: (nat, nat, nat, nat) -> real, t: nat,
                       adsSelected: array<nat>, rewards1: array<nat>, rewards0: array<nat>, totalReward: int)
    returns (total: int)
    requires forall u :: 0 <= u < |data| ==> |data[u]| == bandits
    requires t < |data| && bandits > 0
    requires Progress(data, bandits, beta, t, adsSelected, rewards1, rewards0, totalReward)
    modifies adsSelected, rewards1, rewards0
    ensures Progress(data, bandits, beta, t + 1, adsSelected, rewards1, rewards0, total)
  {
    ghost var ps := Sampled(data, bandits, beta, t);
    var w, l := rewards1[..], rewards0[..];
    assert w == WinCounts(ps, bandits) && l == LossCounts(ps, bandits);
    var maxIndex := PickBelow(beta, t, w, l, bandits);
    adsSelected[t] := maxIndex;
    var reward := data[t][maxIndex];
    Tally(rewards1, rewards0, maxIndex, reward, ps);
    total := totalReward + reward;
    ghost var next := ps + [Pull(maxIndex, reward)];
    assert next == Sampled(data, bandits, beta, t + 1);
    assert forall u :: 0 <= u < t ==> next[u] == ps[u];
  }

  /** One Thompson feedback: the success or the failure counter of the
      played arm goes up by one. */
  method Tally(rewards1: array<nat>, rewards0: array<nat>, arm: nat, reward: int, ghost ps: seq<Pull>)
    requires rewards1 != rewards0 && rewards1.Length == rewards0.Length && arm < rewards1.Length
    requires forall a :: 0 <= a < rewards1.Length ==> rewards1[a] == ArmWins(ps, a) && rewards0[a] == ArmLosses(ps, a)
    modifies rewards1, rewards0
    ensures forall a :: 0 <= a < rewards1.Length ==>
      rewards1[a] == ArmWins(ps + [Pull(arm, reward)], a) && rewards0[a] == ArmLosses(ps + [Pull(arm, reward)], a)
  {
    if reward == 1 {
      rewards1[arm] := rewards1[arm] + 1;
    } else {
      rewards0[arm] := rewards0[arm] + 1;
    }
    forall a | 0 <= a < rewards1.Length
      ensures rewards1[a] == ArmWins(ps + [Pull(arm, reward)], a) && rewards0[a] == ArmLosses(ps + [Pull(arm, reward)], a)
    {
      AppendPull(ps, Pull(arm, reward), a);
    }
  }

}
