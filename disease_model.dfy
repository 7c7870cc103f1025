/** The agent-based disease model: person agents carry an infection flag and
    a remaining disease duration, infect their cellmates, and recover when the
    duration runs out; the model creates the agents, steps them and records
    the number infected. The grid, the scheduler's random order and every
    random draw are inputs. */
module DiseaseModel {
  import opened Seqs

  class Person {
    const id: nat
    const transmissibility: real
    const levelOfMovement: real
    const meanLengthOfDisease: real
    var infected: bool
    /** None while the attribute has never been set. */
    var diseaseDuration: Option<int>

    /** Every infected agent has a disease duration. */
    predicate Valid()
      reads this
    {
      infected ==> diseaseDuration.Some?
    }

    /** `infectionDraw` is the uniform draw, `durationSample` the exponential one. */
    constructor (id: nat, initialInfection: real, transmissibility: real, levelOfMovement: real,
                 meanLengthOfDisease: real, infectionDraw: real, durationSample: real)
      ensures this.id == id && this.transmissibility == transmissibility
      ensures this.levelOfMovement == levelOfMovement && this.meanLengthOfDisease == meanLengthOfDisease
      ensures infected <==> infectionDraw < initialInfection
      ensures diseaseDuration == if infected then Some(RoundHalfEven(durationSample)) else None
      ensures Valid()
    {
      this.id := id;
      this.transmissibility := transmissibility;
      this.levelOfMovement := levelOfMovement;
      this.meanLengthOfDisease := meanLengthOfDisease;
      if infectionDraw < initialInfection {
        infected := true;
        diseaseDuration := Some(RoundHalfEven(durationSample));
      } else {
        infected := false;
        diseaseDuration := None;
      }
    }

    /** Infection of the agents in this cell (this agent among them): with
        more than one agent present, each uninfected cellmate whose draw is
        below the transmissibility becomes infected with a rounded duration;
        infected cellmates are left alone. */
    method Infect(cellmates: seq<Person>, draws: seq<real>, samples: seq<real>)
      requires |draws| == |cellmates| && |samples| == |cellmates|
      requires Distinct(cellmates)
      modifies cellmates
      ensures forall k :: 0 <= k < |cellmates| ==>
        if |cellmates| > 1 && !old(cellmates[k].infected) && draws[k] < transmissibility
        then cellmates[k].infected && cellmates[k].diseaseDuration == Some(RoundHalfEven(samples[k]))
        else (cellmates[k].infected == old(cellmates[k].infected)
          && cellmates[k].diseaseDuration == old(cellmates[k].diseaseDuration))
    {
      if |cellmates| > 1 {
        for i := 0 to |cellmates|
          invariant forall k :: 0 <= k < i ==>
            if !old(cellmates[k].infected) && draws[k] < transmissibility
            then cellmates[k].infected && cellmates[k].diseaseDuration == Some(RoundHalfEven(samples[k]))
            else (cellmates[k].infected == old(cellmates[k].infected)
              && cellmates[k].diseaseDuration == old(cellmates[k].diseaseDuration))
          invariant forall k :: i <= k < |cellmates| ==>
            cellmates[k].infected == old(cellmates[k].infected)
            && cellmates[k].diseaseDuration == old(cellmates[k].diseaseDuration)
        {
          var inhabitant := cellmates[i];
          if !inhabitant.infected {
            if draws[i] < transmissibility {
              inhabitant.infected := true;
              inhabitant.diseaseDuration := Some(RoundHalfEven(samples[i]));
            }
          }
        }
      }
    }

    /** One step: the agent moves iff its draw is below the level of movement
        (the move itself is the grid's); an infected agent infects its
        cellmates, loses one unit of disease duration and recovers when that
        reaches zero or less; an uninfected agent's own state is unchanged. */
    method Step(moveDraw: real, cellmates: seq<Person>, draws: seq<real>, samples: seq<real>) returns (moved: bool)
      requires Valid()
      requires |draws| == |cellmates| && |samples| == |cellmates|
      requires Distinct(cellmates)
      modifies this, cellmates
      ensures moved <==> moveDraw < levelOfMovement
      ensures old(infected) ==> (diseaseDuration == Some(old(diseaseDuration.value) - 1)
        && (infected <==> diseaseDuration.value > 0))
      ensures !old(infected) ==> !infected && diseaseDuration == old(diseaseDuration)
      ensures Valid()
      ensures forall k :: 0 <= k < |cellmates| && cellmates[k] != this ==>
        if old(infected) && |cellmates| > 1 && !old(cellmates[k].infected) && draws[k] < transmissibility
        then cellmates[k].infected && cellmates[k].diseaseDuration == Some(RoundHalfEven(samples[k]))
        else (cellmates[k].infected == old(cellmates[k].infected)
          && cellmates[k].diseaseDuration == old(cellmates[k].diseaseDuration))
    {
      moved := moveDraw < levelOfMovement;
      if infected {
        Infect(cellmates, draws, samples);
        diseaseDuration := Some(diseaseDuration.value - 1);
        if diseaseDuration.value <= 0 {
          infected := false;
        }
      }
    }
  }

  predicate Distinct(ps: seq<Person>)
  {
    forall i, j :: 0 <= i < j < |ps| ==> ps[i] != ps[j]
  }

  /** `[agent.infected for agent in model.schedule.agents]`. */
  function InfectionReport(agents: seq<Person>): (r: seq<bool>)
    reads agents
    ensures |r| == |agents| && forall i :: 0 <= i < |agents| ==> r[i] == agents[i].infected
  {
    seq(|agents|, i requires 0 <= i < |agents| reads agents => agents[i].infected)
  }

  /** The report reads only the agents' infected flags. */
  twostate lemma ReportUnchanged(agents: seq<Person>)
    requires unchanged(agents)
    ensures InfectionReport(agents) == old(InfectionReport(agents))
  {
  }

  /** `calculate_number_infected`: counts the true entries of the report, so
      the total lies between 0 and the number of agents, and is 0 exactly
      when nobody is infected. */
  method CountInfected(agents: seq<Person>) returns (total: nat)
    ensures total == Count(InfectionReport(agents), true)
    ensures total <= |agents|
    ensures total == 0 <==> forall i :: 0 <= i < |agents| ==> !agents[i].infected
  {
    var report := InfectionReport(agents);
    total := 0;
    for i := 0 to |report|
      invariant total == Count(report[..i], true)
    {
      assert report[..i + 1][..i] == report[..i];
      if report[i] {
        total := total + 1;
      }
    }
    assert report[..|report|] == report;
    assert forall i :: 0 <= i < |agents| ==> report[i] == agents[i].infected;
  }

  /** One agent's turn in a schedule step: who acts, its draws, and its
      cellmates as agent numbers. */
  datatype Activation = Activation(agent: nat, moveDraw: real, cellmates: seq<nat>, draws: seq<real>, samples: seq<real>)

  /** One agent's infection state, as a value. */
  datatype Health = Health(infected: bool, diseaseDuration: Option<int>)

  /** The agents' infection states. */
  function HealthOf(agents: seq<Person>): seq<Health>
    reads agents
  {
    seq(|agents|, i requires 0 <= i < |agents| reads agents => Health(agents[i].infected, agents[i].diseaseDuration))
  }

  /** The agents' transmissibilities (constants). */
  function Rates(agents: seq<Person>): seq<real>
  {
    seq(|agents|, i requires 0 <= i < |agents| => agents[i].transmissibility)
  }

  predicate MatesIn(mates: seq<nat>, n: nat)
  {
    forall k :: 0 <= k < |mates| ==> mates[k] < n
  }

  /** The first `k` cellmates visited in order by an infecting agent with
      transmissibility `tr`: with more than one agent in the cell, an
      uninfected cellmate whose draw is below `tr` becomes infected with the
      rounded sample as duration. */
  function InfectFirst(hs: seq<Health>, mates: seq<nat>, draws: seq<real>, samples: seq<real>, tr: real, k: nat)
    : (r: seq<Health>)
    requires k <= |mates| && |draws| == |mates| && |samples| == |mates| && MatesIn(mates, |hs|)
    ensures |r| == |hs|
  {
    if k == 0 then hs
    else
      var h, j := InfectFirst(hs, mates, draws, samples, tr, k - 1), mates[k - 1];
      if |mates| > 1 && !h[j].infected && draws[k - 1] < tr
      then h[j := Health(true, Some(RoundHalfEven(samples[k - 1])))]
      else h
  }

  /** A visited cellmate ends infected iff it is infected on its own draw,
      whichever cellmates are visited before it. */
  lemma {:induction false} InfectFirstVisited(hs: seq<Health>, mates: seq<nat>, draws: seq<real>, samples: seq<real>,
                                              tr: real, k: nat, m: nat)
    requires k <= |mates| && |draws| == |mates| && |samples| == |mates| && MatesIn(mates, |hs|)
    requires forall a, b :: 0 <= a < b < |mates| ==> mates[a] != mates[b]
    requires m < k
    ensures InfectFirst(hs, mates, draws, samples, tr, k)[mates[m]]
      == if |mates| > 1 && !hs[mates[m]].infected && draws[m] < tr
         then Health(true, Some(RoundHalfEven(samples[m]))) else hs[mates[m]]
  {
    if m < k - 1 {
      InfectFirstVisited(hs, mates, draws, samples, tr, k - 1, m);
    } else {
      InfectFirstUnvisited(hs, mates, draws, samples, tr, k - 1, mates[m]);
    }
  }

  /** An agent that is not among the visited cellmates is left alone. */
  lemma {:induction false} InfectFirstUnvisited(hs: seq<Health>, mates: seq<nat>, draws: seq<real>, samples: seq<real>,
                                                tr: real, k: nat, j: nat)
    requires k <= |mates| && |draws| == |mates| && |samples| == |mates| && MatesIn(mates, |hs|)
    requires j < |hs| && forall m :: 0 <= m < k ==> mates[m] != j
    ensures InfectFirst(hs, mates, draws, samples, tr, k)[j] == hs[j]
  {
    if k > 0 {
      InfectFirstUnvisited(hs, mates, draws, samples, tr, k - 1, j);
    }
  }

  /** An infected agent's own step: one unit of duration less, infected iff
      some remains. */
  function Recover(h: Health): (r: Health)
  {
    if h.infected && h.diseaseDuration.Some? then
      var d := h.diseaseDuration.value - 1;
      Health(d > 0, Some(d))
    else h
  }

  /** What the `m`-th cellmate becomes: infected with the rounded sample iff
      the actor is infected, the cell holds more than one agent, the cellmate
      is uninfected and its draw is below `tr`. */
  function MateAfter(hs: seq<Health>, act: Activation, tr: real, m: nat): Health
    requires GoodActivation(act, |hs|) && m < |act.cellmates|
  {
    var h := hs[act.cellmates[m]];
    if hs[act.agent].infected && |act.cellmates| > 1 && !h.infected && act.draws[m] < tr
    then Health(true, Some(RoundHalfEven(act.samples[m])))
    else h
  }

  /** One activation on the agents' states: an infected actor
      (transmissibility `tr`) infects its cellmates in order, then its own
      state moves on by `Recover`. */
  function StepOne(hs: seq<Health>, act: Activation, tr: real): (r: seq<Health>)
    requires GoodActivation(act, |hs|)
    ensures |r| == |hs|
  {
    var a := act.agent;
    var spread := if hs[a].infected then InfectFirst(hs, act.cellmates, act.draws, act.samples, tr, |act.cellmates|)
                  else hs;
    spread[a := Recover(hs[a])]
  }

  /** `StepOne` is the step `Person.Step` promises: the actor's `Recover`,
      the `MateAfter` update of every other cellmate, and nobody else
      touched. */
  lemma StepOneFrom(hs: seq<Health>, act: Activation, tr: real, now: seq<Health>)
    requires GoodActivation(act, |hs|) && |now| == |hs|
    requires now[act.agent] == Recover(hs[act.agent])
    requires forall m :: 0 <= m < |act.cellmates| && act.cellmates[m] != act.agent ==>
      now[act.cellmates[m]] == MateAfter(hs, act, tr, m)
    requires forall j :: 0 <= j < |hs| && j != act.agent && j !in act.cellmates ==> now[j] == hs[j]
    ensures now == StepOne(hs, act, tr)
  {
    var r := StepOne(hs, act, tr);
    forall j | 0 <= j < |hs|
      ensures now[j] == r[j]
    {
      if j != act.agent {
        if m :| 0 <= m < |act.cellmates| && act.cellmates[m] == j {
          if hs[act.agent].infected {
            InfectFirstVisited(hs, act.cellmates, act.draws, act.samples, tr, |act.cellmates|, m);
          }
        } else if hs[act.agent].infected {
          InfectFirstUnvisited(hs, act.cellmates, act.draws, act.samples, tr, |act.cellmates|, j);
        }
      }
    }
  }

  /** The activations in order, each actor using its own transmissibility. */
  function StepAll(hs: seq<Health>, acts: seq<Activation>, rates: seq<real>): (r: seq<Health>)
    requires |rates| == |hs| && forall t :: 0 <= t < |acts| ==> GoodActivation(acts[t], |hs|)
    ensures |r| == |hs|
  {
    if acts == [] then hs
    else
      var last := acts[|acts| - 1];
      assert GoodActivation(last, |hs|);
      StepOne(StepAll(hs, acts[..|acts| - 1], rates), last, rates[last.agent])
  }

  class Model {
    const numAgents: nat
    const initialInfection: real
    /** The schedule's agents, agent `i` having id `i`. */
    var agents: seq<Person>
    /** The collected `Total_Infected` values, one per model step. */
    var totalInfected: seq<nat>

    ghost predicate Valid()
      reads this, agents
    {
      |agents| == numAgents
      && Distinct(agents)
      && forall i :: 0 <= i < |agents| ==> agents[i].id == i && agents[i].Valid()
    }

    /** Creates `n` agents with ids 0 .. n-1 and adds each to the schedule. */
    constructor (n: nat, initialInfection: real, transmissibility: real, levelOfMovement: real,
                 meanLengthOfDisease: real, infectionDraws: seq<real>, durationSamples: seq<real>)
      requires |infectionDraws| == n && |durationSamples| == n
      ensures Valid()
      ensures numAgents == n && this.initialInfection == initialInfection && totalInfected == []
      ensures forall i :: 0 <= i < n ==> (fresh(agents[i])
        && agents[i].transmissibility == transmissibility && agents[i].levelOfMovement == levelOfMovement
        && (agents[i].infected <==> infectionDraws[i] < initialInfection)
        && agents[i].diseaseDuration == (if agents[i].infected then Some(RoundHalfEven(durationSamples[i])) else None))
    {
      numAgents := n;
      this.initialInfection := initialInfection;
      totalInfected := [];
      var schedule: seq<Person> := [];
      for i := 0 to n
        invariant |schedule| == i && Distinct(schedule)
        invariant forall k :: 0 <= k < i ==> (fresh(schedule[k]) && schedule[k].id == k && schedule[k].Valid()
          && schedule[k].transmissibility == transmissibility && schedule[k].levelOfMovement == levelOfMovement
          && (schedule[k].infected <==> infectionDraws[k] < initialInfection)
          && schedule[k].diseaseDuration == (if schedule[k].infected then Some(RoundHalfEven(durationSamples[k])) else None))
      {
        var a := new Person(i, initialInfection, transmissibility, levelOfMovement, meanLengthOfDisease,
                            infectionDraws[i], durationSamples[i]);
        schedule := schedule + [a];
      }
      agents := schedule;
    }

    /** The activations of one schedule step name every agent exactly once,
        with in-range, duplicate-free cellmates and one draw per cellmate. */
    predicate WellFormed(acts: seq<Activation>)
    {
      |acts| == numAgents
      && (forall i, j :: 0 <= i < j < |acts| ==> acts[i].agent != acts[j].agent)
      && forall i :: 0 <= i < |acts| ==> GoodActivation(acts[i], numAgents)
    }

    /** One agent's step, with its cellmates looked up by number: the
        agents' states move on by `StepOne`. */
    method Activate(act: Activation)
      requires Valid() && GoodActivation(act, numAgents)
      modifies agents
      ensures Valid()
      ensures HealthOf(agents) == StepOne(old(HealthOf(agents)), act, agents[act.agent].transmissibility)
    {
      ghost var before := HealthOf(agents);
      var mates := Cellmates(agents, act.cellmates);
      var actor := agents[act.agent];
      var _ := actor.Step(act.moveDraw, mates, act.draws, act.samples);
      ghost var now := HealthOf(agents);
      forall m | 0 <= m < |mates| && act.cellmates[m] != act.agent
        ensures now[act.cellmates[m]] == MateAfter(before, act, actor.transmissibility, m)
      {
        assert mates[m] == agents[act.cellmates[m]] != actor;
      }
      forall j | 0 <= j < |agents| && j != act.agent && j !in act.cellmates
        ensures now[j] == before[j]
      {
        assert agents[j] !in mates;
      }
      StepOneFrom(before, act, actor.transmissibility, now);
    }

    /** `datacollector.collect(self)`: the number infected is appended. */
    method Collect()
      modifies this
      ensures agents == old(agents)
      ensures totalInfected == old(totalInfected) + [Count(InfectionReport(agents), true)]
    {
      var total := CountInfected(agents);
      label Counted:
      totalInfected := totalInfected + [total];
      ReportUnchanged@Counted(agents);
    }

    /** `schedule.step()` then `datacollector.collect(self)`: every agent
        steps once, in the given order, so the agents' states move on by
        `StepAll`, and the number infected afterwards is appended to the
        collected `Total_Infected` values. */
    method Step(acts: seq<Activation>)
      requires Valid() && WellFormed(acts)
      modifies this, agents
      ensures Valid() && agents == old(agents)
      ensures HealthOf(agents) == StepAll(old(HealthOf(agents)), acts, Rates(agents))
      ensures totalInfected == old(totalInfected) + [Count(InfectionReport(agents), true)]
    {
      ghost var h0, rates := HealthOf(agents), Rates(agents);
      for t := 0 to |acts|
        invariant Valid() && agents == old(agents)
        invariant totalInfected == old(totalInfected)
        invariant HealthOf(agents) == StepAll(h0, acts[..t], rates)
      {
        assert acts[..t + 1][..t] == acts[..t];
        Activate(acts[t]);
      }
      assert acts[..|acts|] == acts;
      label Stepped:
      Collect();
      assert HealthOf(agents) == old@Stepped(HealthOf(agents));
    }
  }

  predicate GoodActivation(act: Activation, n: nat)
  {
    act.agent < n
    && |act.draws| == |act.cellmates| && |act.samples| == |act.cellmates|
    && (forall k :: 0 <= k < |act.cellmates| ==> act.cellmates[k] < n)
    && forall k, l :: 0 <= k < l < |act.cellmates| ==> act.cellmates[k] != act.cellmates[l]
  }

  /** The agents with the given numbers: `grid.get_cell_list_contents`. */
  function Cellmates(agents: seq<Person>, idx: seq<nat>): (ps: seq<Person>)
    requires forall k :: 0 <= k < |idx| ==> idx[k] < |agents|
    ensures |ps| == |idx| && forall k :: 0 <= k < |idx| ==> ps[k] == agents[idx[k]]
    ensures ((forall i, j :: 0 <= i < j < |agents| ==> agents[i] != agents[j])
      && (forall k, l :: 0 <= k < l < |idx| ==> idx[k] != idx[l])) ==> Distinct(ps)
  {
    seq(|idx|, k requires 0 <= k < |idx| => agents[idx[k]])
  }
}
