/** What a bandit learner has been told: the history of (arm, reward)
    feedbacks since its last reset, and the per-arm quantities the learners
    keep in step with it — pull counts, reward sums, Thompson win and loss
    counts, and the running-average reward estimates. */
module BanditHistory {
  import opened Seqs

  /** One feedback: the arm that was played and the reward it returned. */
  datatype Pull = Pull(arm: nat, reward: int)

  /** How often arm `a` was played. */
  function ArmCount(h: seq<Pull>, a: nat): (n: nat)
    ensures n <= |h|
  {
    if h == [] then 0 else ArmCount(h[..|h| - 1], a) + (if h[|h| - 1].arm == a then 1 else 0)
  }

  /** The sum of the rewards arm `a` returned. */
  function ArmTotal(h: seq<Pull>, a: nat): int
  {
    if h == [] then 0 else ArmTotal(h[..|h| - 1], a) + (if h[|h| - 1].arm == a then h[|h| - 1].reward else 0)
  }

  /** Plays of arm `a` whose reward was exactly 1. */
  function ArmWins(h: seq<Pull>, a: nat): (n: nat)
    ensures n <= ArmCount(h, a)
  {
    if h == [] then 0
    else ArmWins(h[..|h| - 1], a) + (if h[|h| - 1].arm == a && h[|h| - 1].reward == 1 then 1 else 0)
  }

  /** Plays of arm `a` whose reward was anything other than 1. */
  function ArmLosses(h: seq<Pull>, a: nat): (n: nat)
    ensures n <= ArmCount(h, a)
  {
    if h == [] then 0
    else ArmLosses(h[..|h| - 1], a) + (if h[|h| - 1].arm == a && h[|h| - 1].reward != 1 then 1 else 0)
  }

  /** The sum of all rewards. */
  function TotalReward(h: seq<Pull>): int
  {
    if h == [] then 0 else TotalReward(h[..|h| - 1]) + h[|h| - 1].reward
  }

  /** Every pull names one of the first `arms` arms. */
  predicate ArmsBelow(h: seq<Pull>, arms: nat)
  {
    forall t :: 0 <= t < |h| ==> h[t].arm < arms
  }

  /** The per-arm pull counts, as the learners' `_actions` vector. */
  function Counts(h: seq<Pull>, arms: nat): (c: seq<nat>)
    ensures |c| == arms && forall a :: 0 <= a < arms ==> c[a] == ArmCount(h, a)
  {
    seq(arms, a requires 0 <= a < arms => ArmCount(h, a))
  }

  /** The per-arm Thompson success counters, `_number_of_rewards_1`. */
  function WinCounts(h: seq<Pull>, arms: nat): (c: seq<nat>)
    ensures |c| == arms && forall a :: 0 <= a < arms ==> c[a] == ArmWins(h, a)
  {
    seq(arms, a requires 0 <= a < arms => ArmWins(h, a))
  }

  /** The per-arm Thompson failure counters, `_number_of_rewards_0`. */
  function LossCounts(h: seq<Pull>, arms: nat): (c: seq<nat>)
    ensures |c| == arms && forall a :: 0 <= a < arms ==> c[a] == ArmLosses(h, a)
  {
    seq(arms, a requires 0 <= a < arms => ArmLosses(h, a))
  }

  /** The reward estimate of one arm: the average reward of its plays, or
      `s`, its starting value, before its first play. */
  function Estimate(s: real, h: seq<Pull>, a: nat): real
  {
    if ArmCount(h, a) == 0 then s else ArmTotal(h, a) as real / ArmCount(h, a) as real
  }

  /** The per-arm reward estimates from the starting values `start`. */
  function Estimates(start: seq<real>, h: seq<Pull>): (e: seq<real>)
    ensures |e| == |start| && forall a :: 0 <= a < |start| ==> e[a] == Estimate(start[a], h, a)
  {
    seq(|start|, a requires 0 <= a < |start| => Estimate(start[a], h, a))
  }

  /** `c` holds the pull count of each of `arms` arms. */
  predicate CountsOf(c: seq<nat>, h: seq<Pull>, arms: nat)
  {
    |c| == arms && forall a :: 0 <= a < arms ==> c[a] == ArmCount(h, a)
  }

  /** `w` holds the wins of each of `arms` arms. */
  predicate WinsOf(w: seq<nat>, h: seq<Pull>, arms: nat)
  {
    |w| == arms && forall a :: 0 <= a < arms ==> w[a] == ArmWins(h, a)
  }

  /** `l` holds the losses of each of `arms` arms. */
  predicate LossesOf(l: seq<nat>, h: seq<Pull>, arms: nat)
  {
    |l| == arms && forall a :: 0 <= a < arms ==> l[a] == ArmLosses(h, a)
  }

  /** `m` holds the estimate of each arm from the starting values `start`. */
  predicate MeansOf(m: seq<real>, start: seq<real>, h: seq<Pull>)
  {
    |m| == |start| && forall a :: 0 <= a < |start| ==> m[a] == Estimate(start[a], h, a)
  }

  /** `updated_reward_estimate`: the running-average step for the `n`-th
      reward of an arm whose estimate was `current`. */
  function UpdatedEstimate(n: nat, current: real, reward: int): real
    requires n > 0
  {
    ((n - 1) as real / n as real) * current + (1.0 / n as real) * reward as real
  }

  /** A Bernoulli bandit pays 1 when its uniform draw is at most the success
      probability and 0 otherwise. */
  function Reward(draw: real, pSuccess: real): (r: int)
    ensures r == 0 || r == 1
    ensures r == 1 <==> draw <= pSuccess
  {
    if draw > pSuccess then 0 else 1
  }

  /** Once an arm has been played, the running-average step turns the
      average of its first n-1 rewards into the average of n, whatever the
      starting value was before its first play. */
  lemma IncrementalMean(n: nat, sum: int, current: real, reward: int)
    requires n > 0
    requires n == 1 ==> sum == 0
    requires n > 1 ==> current == sum as real / (n - 1) as real
    ensures UpdatedEstimate(n, current, reward) == (sum + reward) as real / n as real
  {
    var m := n as real;
    if n > 1 {
      var k := (n - 1) as real;
      assert current * k == sum as real;
      calc {
        UpdatedEstimate(n, current, reward);
        (k / m) * current + (1.0 / m) * reward as real;
        (current * k) / m + reward as real / m;
        sum as real / m + reward as real / m;
      }
    }
  }

  /** One more pull changes the counts, totals, wins and losses of its own
      arm only. */
  lemma AppendPull(h: seq<Pull>, p: Pull, a: nat)
    ensures ArmCount(h + [p], a) == ArmCount(h, a) + (if p.arm == a then 1 else 0)
    ensures ArmTotal(h + [p], a) == ArmTotal(h, a) + (if p.arm == a then p.reward else 0)
    ensures ArmWins(h + [p], a) == ArmWins(h, a) + (if p.arm == a && p.reward == 1 then 1 else 0)
    ensures ArmLosses(h + [p], a) == ArmLosses(h, a) + (if p.arm == a && p.reward != 1 then 1 else 0)
    ensures TotalReward(h + [p]) == TotalReward(h) + p.reward
  {
    assert (h + [p])[..|h|] == h;
  }

  /** One more pull adds one to its own arm's count, and nothing to any
      other arm's. */
  lemma CountsAfterPull(c: seq<nat>, h: seq<Pull>, p: Pull, arms: nat)
    requires CountsOf(c, h, arms) && p.arm < arms
    ensures CountsOf(c[p.arm := c[p.arm] + 1], h + [p], arms)
  {
    forall a | 0 <= a < arms
      ensures c[p.arm := c[p.arm] + 1][a] == ArmCount(h + [p], a)
    {
      AppendPull(h, p, a);
    }
  }

  /** A reward of exactly 1 adds one to its arm's win counter; any other
      reward leaves the win counters alone. */
  lemma WinsAfterPull(w: seq<nat>, h: seq<Pull>, p: Pull, arms: nat)
    requires WinsOf(w, h, arms) && p.arm < arms
    ensures WinsOf(if p.reward == 1 then w[p.arm := w[p.arm] + 1] else w, h + [p], arms)
  {
    forall a | 0 <= a < arms
      ensures (if p.reward == 1 then w[p.arm := w[p.arm] + 1] else w)[a] == ArmWins(h + [p], a)
    {
      AppendPull(h, p, a);
    }
  }

  /** A reward other than 1 adds one to its arm's loss counter; a reward of
      exactly 1 leaves the loss counters alone. */
  lemma LossesAfterPull(l: seq<nat>, h: seq<Pull>, p: Pull, arms: nat)
    requires LossesOf(l, h, arms) && p.arm < arms
    ensures LossesOf(if p.reward != 1 then l[p.arm := l[p.arm] + 1] else l, h + [p], arms)
  {
    forall a | 0 <= a < arms
      ensures (if p.reward != 1 then l[p.arm := l[p.arm] + 1] else l)[a] == ArmLosses(h + [p], a)
    {
      AppendPull(h, p, a);
    }
  }

  /** `feedback` keeps the estimates the running averages: replacing the
      played arm's estimate by the running-average step for its new count
      yields the estimates of the longer history, and the other arms keep
      theirs, whatever the starting values were. */
  lemma MeansAfterPull(m: seq<real>, c: seq<nat>, start: seq<real>, h: seq<Pull>, p: Pull)
    requires MeansOf(m, start, h) && CountsOf(c, h, |start|) && p.arm < |start|
    ensures MeansOf(m[p.arm := UpdatedEstimate(c[p.arm] + 1, m[p.arm], p.reward)], start, h + [p])
  {
    var m1 := m[p.arm := UpdatedEstimate(c[p.arm] + 1, m[p.arm], p.reward)];
    forall a | 0 <= a < |start|
      ensures m1[a] == Estimate(start[a], h + [p], a)
    {
      AppendPull(h, p, a);
      if a == p.arm {
        if ArmCount(h, a) == 0 {
          UnplayedTotal(h, a);
        }
        IncrementalMean(ArmCount(h, a) + 1, ArmTotal(h, a), m[a], p.reward);
      }
    }
  }

  /** The element-wise descriptions name the vectors of the history. */
  lemma VectorsOf(c: seq<nat>, w: seq<nat>, l: seq<nat>, m: seq<real>, start: seq<real>, h: seq<Pull>, arms: nat)
    ensures CountsOf(c, h, arms) <==> c == Counts(h, arms)
    ensures WinsOf(w, h, arms) <==> w == WinCounts(h, arms)
    ensures LossesOf(l, h, arms) <==> l == LossCounts(h, arms)
    ensures MeansOf(m, start, h) <==> m == Estimates(start, h)
  {
    if CountsOf(c, h, arms) {
      assert c == Counts(h, arms);
    }
    if WinsOf(w, h, arms) {
      assert w == WinCounts(h, arms);
    }
    if LossesOf(l, h, arms) {
      assert l == LossCounts(h, arms);
    }
    if MeansOf(m, start, h) {
      assert m == Estimates(start, h);
    }
  }

  /** An arm never played has reward sum 0. */
  lemma {:induction false} UnplayedTotal(h: seq<Pull>, a: nat)
    requires ArmCount(h, a) == 0
    ensures ArmTotal(h, a) == 0
    decreases |h|
  {
    if h != [] {
      UnplayedTotal(h[..|h| - 1], a);
    }
  }

  /** Wins and losses partition the plays of every arm. */
  lemma {:induction false} WinsAndLosses(h: seq<Pull>, a: nat)
    ensures ArmWins(h, a) + ArmLosses(h, a) == ArmCount(h, a)
    decreases |h|
  {
    if h != [] {
      WinsAndLosses(h[..|h| - 1], a);
    }
  }

  /** The pull counts add up to the number of feedbacks. */
  lemma {:induction false} CountsAddUp(h: seq<Pull>, arms: nat)
    requires ArmsBelow(h, arms)
    ensures SumNats(Counts(h, arms)) == |h|
    decreases |h|
  {
    if h == [] {
      assert Counts(h, arms) == seq(arms, _ => 0);
      SumNatsZero(arms);
    } else {
      var init := h[..|h| - 1];
      var p := h[|h| - 1];
      assert h == init + [p];
      assert ArmsBelow(init, arms) by {
        forall t | 0 <= t < |init| ensures init[t].arm < arms {
          assert init[t] == h[t];
        }
      }
      CountsAddUp(init, arms);
      var before := Counts(init, arms);
      forall a | 0 <= a < arms
        ensures Counts(h, arms)[a] == before[p.arm := before[p.arm] + 1][a]
      {
        AppendPull(init, p, a);
      }
      assert Counts(h, arms) == before[p.arm := before[p.arm] + 1];
      SumNatsIncrement(before, p.arm);
    }
  }

  /** The rewards of the plays of one arm are the plays' total when all
      rewards are 0 or 1, so 0 <= total <= plays. */
  lemma {:induction false} ZeroOneTotals(h: seq<Pull>, a: nat)
    requires forall t :: 0 <= t < |h| ==> h[t].reward == 0 || h[t].reward == 1
    ensures 0 <= ArmTotal(h, a) <= ArmCount(h, a)
    ensures ArmTotal(h, a) == ArmWins(h, a)
    decreases |h|
  {
    if h != [] {
      var init := h[..|h| - 1];
      assert forall t :: 0 <= t < |init| ==> init[t] == h[t];
      ZeroOneTotals(init, a);
    }
  }
}
