/** The Monte-Carlo harness of the bandit world: a simulation resets and
    runs one learner `replications` times and records the arm it believes
    best after each run; an experiment counts how often that was the
    correct arm. Each replication's random draws are a parameter. */
module BanditSimulation {
  import opened Seqs
  import opened BanditHistory
  import opened BanditWorld

  /** The learner's epsilon when replication `k` starts. A reset keeps
      epsilon, so only the first replication of an annealing learner starts
      from the epsilon it had before the simulation; every later one starts
      from the `cooling(rounds + 1)` the previous `solve` left. Every other
      learner keeps its epsilon throughout. */
  function EpsilonBefore(kind: Kind, cooling: nat -> real, eps0: real, rounds: nat, k: nat): real
  {
    if kind == AnnealingEpsilonGreedy && rounds > 0 && k > 0 then cooling(rounds + 1) else eps0
  }

  /** A reset followed by a `solve` of `rounds` rounds takes the epsilon of
      replication `k` to that of replication `k + 1`. */
  lemma EpsilonAfterReplication(kind: Kind, cooling: nat -> real, eps0: real, rounds: nat, k: nat)
    ensures EpsilonAt(kind, cooling, EpsilonBefore(kind, cooling, eps0, rounds, k), 0, rounds)
      == EpsilonBefore(kind, cooling, eps0, rounds, k + 1)
  {
  }

  /** The arm a freshly reset learner believes best after `rounds` rounds
      of `solve` with draws `d`: the first largest of the estimates its
      feedbacks give, every estimate starting at 0. */
  function Selection(kind: Kind, cooling: nat -> real, eps: real, probs: seq<real>, d: Draws, rounds: nat): (a: nat)
    requires kind != UpperConfidenceBound
    requires |probs| > 0 && Covers(d, rounds, |probs|)
    ensures a < |probs|
  {
    var zeros := seq(|probs|, _ => 0.0);
    ArgMax(Estimates(zeros, Played(kind, cooling, eps, zeros, [], probs, d, rounds)))
  }

  /** The arms `k` replications select, in replication order. */
  function Selections(kind: Kind, cooling: nat -> real, eps0: real, probs: seq<real>, ds: seq<Draws>,
                      rounds: nat, k: nat): (s: seq<nat>)
    requires kind != UpperConfidenceBound && k <= |ds| && (k > 0 ==> |probs| > 0)
    requires forall j :: 0 <= j < k ==> Covers(ds[j], rounds, |probs|)
    ensures |s| == k
  {
    if k == 0 then []
    else
      Selections(kind, cooling, eps0, probs, ds, rounds, k - 1)
      + [Selection(kind, cooling, EpsilonBefore(kind, cooling, eps0, rounds, k - 1), probs, ds[k - 1], rounds)]
  }

  /** Entry `j` is the arm of replication `j` alone: no count or reward of
      an earlier replication enters it. */
  lemma {:induction false} SelectionAt(kind: Kind, cooling: nat -> real, eps0: real, probs: seq<real>, ds: seq<Draws>,
                                       rounds: nat, k: nat, j: nat)
    requires kind != UpperConfidenceBound && k <= |ds| && |probs| > 0
    requires forall i :: 0 <= i < k ==> Covers(ds[i], rounds, |probs|)
    requires j < k
    ensures Selections(kind, cooling, eps0, probs, ds, rounds, k)[j]
      == Selection(kind, cooling, EpsilonBefore(kind, cooling, eps0, rounds, j), probs, ds[j], rounds)
    decreases k
  {
    var prev := Selections(kind, cooling, eps0, probs, ds, rounds, k - 1);
    if j < k - 1 {
      SelectionAt(kind, cooling, eps0, probs, ds, rounds, k - 1, j);
      assert Selections(kind, cooling, eps0, probs, ds, rounds, k)[j] == prev[j];
    }
  }

  /** `AgentSimulation(environment, agent, replications)`. */
  class AgentSimulation {
    const env: Casino
    const agent: Agent
    const reps: int

    constructor (env: Casino, agent: Agent, replications: int)
      ensures this.env == env && this.agent == agent && reps == replications
    {
      this.env := env;
      this.agent := agent;
      reps := replications;
    }

    /** `simulate`: for each replication, reset then solve, and record
        `best_arm` in a new int array of length `replications`.
        `np.zeros` of a negative length raises ValueError, and so does the
        first replication when the casino has no arms (in `solve`, or in
        `best_arm` when the budget runs no round). */
    method Simulate(ds: seq<Draws>) returns (r: Result<array<int>>)
      requires agent.kind != UpperConfidenceBound && agent.env == env
      requires env.Valid() && agent in env.observers
      requires reps <= |ds| && forall k :: 0 <= k < reps ==> Covers(ds[k], Rounds(agent.budget), |env.bandits|)
      modifies env.bandits, env.observers
      ensures env.Valid() && agent.budget == old(agent.budget)
      ensures r.Failure? <==> reps < 0 || (reps > 0 && |env.bandits| == 0)
      ensures r.Failure? ==> r.error == ValueError
      ensures r.Success? ==> fresh(r.value) && r.value[..] == Selections(agent.kind, agent.cooling, old(agent.epsilon), env.Probs(), ds, Rounds(agent.budget), reps)
    {
      if reps < 0 {
        return Failure(ValueError);
      }
      var bestIndexes := new int[reps](_ => 0);
      ghost var n, probs, e0 := Rounds(agent.budget), env.Probs(), agent.epsilon;
      for rep := 0 to reps
        invariant env.Valid() && agent.budget == old(agent.budget)
        invariant rep > 0 ==> |probs| > 0
        invariant agent.epsilon == EpsilonBefore(agent.kind, agent.cooling, e0, n, rep)
        invariant bestIndexes[..rep] == Selections(agent.kind, agent.cooling, e0, probs, ds, n, rep)
      {
        var err := Record(bestIndexes, rep, ds, e0, n, probs);
        if err.Some? {
          return Failure(err.value);
        }
      }
      assert bestIndexes[..reps] == bestIndexes[..];
      return Success(bestIndexes);
    }

    /** `best_indexes[rep] = self._agent.best_arm` after replication `rep`. */
    method Record(bestIndexes: array<int>, rep: nat, ds: seq<Draws>, ghost e0: real, ghost n: nat, ghost probs: seq<real>)
      returns (err: Option<PyError>)
      requires agent.kind != UpperConfidenceBound && agent.env == env
      requires env.Valid() && agent in env.observers && probs == env.Probs() && n == Rounds(agent.budget)
      requires rep < bestIndexes.Length && rep < |ds| && forall k :: 0 <= k <= rep ==> Covers(ds[k], n, |probs|)
      requires rep > 0 ==> |probs| > 0
      requires agent.epsilon == EpsilonBefore(agent.kind, agent.cooling, e0, n, rep)
      requires bestIndexes[..rep] == Selections(agent.kind, agent.cooling, e0, probs, ds, n, rep)
      modifies bestIndexes, env.bandits, env.observers
      ensures env.Valid() && agent.budget == old(agent.budget)
      ensures err.Some? <==> |probs| == 0
      ensures err.Some? ==> err == Some(ValueError)
      ensures err.None? ==> agent.epsilon == EpsilonBefore(agent.kind, agent.cooling, e0, n, rep + 1)
      ensures err.None? ==> bestIndexes[..rep + 1] == Selections(agent.kind, agent.cooling, e0, probs, ds, n, rep + 1)
    {
      EpsilonAfterReplication(agent.kind, agent.cooling, e0, n, rep);
      ghost var before := bestIndexes[..rep];
      var best := Replicate(ds[rep], probs, EpsilonBefore(agent.kind, agent.cooling, e0, n, rep), n);
      if best.Failure? {
        return Some(best.error);
      }
      bestIndexes[rep] := best.value;
      assert bestIndexes[..rep + 1] == before + [best.value];
      return None;
    }

    /** One replication: `reset()`, `solve()`, then `best_arm`, which is
        the arm `Selection` gives for the draws; ValueError when the casino
        has no arms. */
    method Replicate(d: Draws, ghost probs: seq<real>, ghost eps: real, ghost n: nat) returns (r: Result<nat>)
      requires agent.kind != UpperConfidenceBound && agent.env == env
      requires env.Valid() && agent in env.observers && probs == env.Probs()
      requires eps == agent.epsilon && n == Rounds(agent.budget) && Covers(d, n, |probs|)
      modifies env.bandits, env.observers
      ensures env.Valid() && agent.budget == old(agent.budget)
      ensures r.Failure? <==> |probs| == 0
      ensures r.Failure? ==> r.error == ValueError
      ensures r.Success? ==>
        agent.epsilon == EpsilonAt(agent.kind, agent.cooling, eps, 0, n)
        && r.value == Selection(agent.kind, agent.cooling, eps, probs, d, n)
    {
      ghost var zeros := seq(|probs|, _ => 0.0);
      Restart();
      assert agent.start == zeros by {
        assert forall i :: 0 <= i < |probs| ==> agent.start[i] == 0.0;
      }
      var err := agent.Solve(d);
      if err.Some? {
        return Failure(err.value);
      }
      var best := agent.BestArm();
      if best.Failure? {
        return Failure(best.error);
      }
      assert agent.history == Played(agent.kind, agent.cooling, eps, zeros, [], probs, d, n);
      VectorsOf(agent.actions, agent.wins, agent.losses, agent.means, agent.start, agent.history, |probs|);
      return Success(best.value);
    }

    /** `self._agent.reset()` inside the casino: only the learner changes,
        so the casino stays consistent. */
    method Restart()
      requires env.Valid() && agent in env.observers && agent.env == env
      modifies agent
      ensures env.Valid() && agent.Fresh(0.0)
      ensures agent.epsilon == old(agent.epsilon) && agent.budget == old(agent.budget)
    {
      agent.Reset();
    }
  }

  /** `ExperimentResults(selections, correct_selections, p_correct_selections)`;
      the proportion is None where numpy's 0 / 0 gives NaN. */
  class ExperimentResults {
    const selections: array<int>
    const correctSelections: int
    const pCorrectSelections: Option<real>

    constructor (selections: array<int>, correctSelections: int, pCorrectSelections: Option<real>)
      ensures this.selections == selections && this.correctSelections == correctSelections
      ensures this.pCorrectSelections == pCorrectSelections
    {
      this.selections := selections;
      this.correctSelections := correctSelections;
      this.pCorrectSelections := pCorrectSelections;
    }
  }

  /** `Experiment(env, agent, best_index, objective, replications)`. The
      objective is stored and never read. */
  class Experiment {
    const env: Casino
    const agent: Agent
    const sim: AgentSimulation
    const bestIndex: int
    const objective: string
    const reps: int

    constructor (env: Casino, agent: Agent, bestIndex: int, objective: string, replications: int)
      ensures this.env == env && this.agent == agent && this.bestIndex == bestIndex
      ensures this.objective == objective && reps == replications
      ensures fresh(sim) && sim.env == env && sim.agent == agent && sim.reps == replications
    {
      this.env := env;
      this.agent := agent;
      sim := new AgentSimulation(env, agent, replications);
      this.bestIndex := bestIndex;
      this.objective := objective;
      reps := replications;
    }

    /** `execute`: simulate, count the selections equal to the best index,
        and divide by the number of replications. */
    method Execute(ds: seq<Draws>) returns (r: Result<ExperimentResults>)
      requires agent.kind != UpperConfidenceBound && agent.env == env
      requires sim.env == env && sim.agent == agent && sim.reps == reps
      requires env.Valid() && agent in env.observers
      requires reps <= |ds| && forall k :: 0 <= k < reps ==> Covers(ds[k], Rounds(agent.budget), |env.bandits|)
      modifies env.bandits, env.observers
      ensures env.Valid() && agent.budget == old(agent.budget)
      ensures r.Failure? <==> reps < 0 || (reps > 0 && |env.bandits| == 0)
      ensures r.Failure? ==> r.error == ValueError
      ensures r.Success? ==> fresh(r.value) && fresh(r.value.selections)
      ensures r.Success? ==> r.value.selections[..] == Selections(agent.kind, agent.cooling, old(agent.epsilon), env.Probs(), ds, Rounds(agent.budget), reps)
      ensures r.Success? ==> r.value.correctSelections == Count(r.value.selections[..], bestIndex)
      ensures r.Success? ==> Proportion(r.value.correctSelections, reps) == r.value.pCorrectSelections
      ensures r.Success? ==> 0 <= r.value.correctSelections <= reps
      ensures r.Success? && r.value.pCorrectSelections.Some? ==> 0.0 <= r.value.pCorrectSelections.value <= 1.0
    {
      var simulated := sim.Simulate(ds);
      if simulated.Failure? {
        return Failure(simulated.error);
      }
      var selections := simulated.value;
      var correct := CountEqual(selections, bestIndex);
      ProportionBounds(correct, reps);
      var results := new ExperimentResults(selections, correct, Proportion(correct, reps));
      return Success(results);
    }
  }

  /** `(selections == best_index).sum()`. */
  method CountEqual(a: array<int>, x: int) returns (n: nat)
    ensures n == Count(a[..], x)
  {
    n := 0;
    for i := 0 to a.Length
      invariant n == Count(a[..i], x)
    {
      assert a[..i + 1] == a[..i] + [a[i]];
      CountAppend(a[..i], [a[i]], x);
      if a[i] == x {
        n := n + 1;
      }
    }
    assert a[..a.Length] == a[..];
  }

  /** `correct_selections / replications`, None for 0 / 0. */
  function Proportion(correct: nat, reps: nat): (p: Option<real>)
    ensures p.None? <==> reps == 0
    ensures p.Some? ==> p.value * reps as real == correct as real
  {
    if reps == 0 then None else Some(correct as real / reps as real)
  }

  /** At most `reps` of `reps` selections are correct, so the proportion lies
      between 0 and 1. */
  lemma ProportionBounds(correct: nat, reps: nat)
    requires correct <= reps
    ensures var p := Proportion(correct, reps); p.Some? ==> 0.0 <= p.value <= 1.0
  {
    if reps > 0 {
      var p := correct as real / reps as real;
      assert p * reps as real == correct as real;
    }
  }
}
