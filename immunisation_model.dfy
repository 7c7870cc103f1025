/** The disease model with immunisation: besides the infection flag and
    disease duration of the basic model, each person can become immunised
    for a truncated random duration, which protects against new infection but
    never clears an existing one; the model records the numbers infected and
    immunised after every step. The grid, the scheduler's random order and
    every random draw are inputs. */
module ImmunisationModel {
  import opened Seqs

  class Person {
    const id: nat
    const transmissibility: real
    const levelOfMovement: real
    const meanLengthOfDisease: real
    const meanImmDuration: real
    const probBeingImmunised: real
    var infected: bool
    /** None while the attribute has never been set. */
    var diseaseDuration: Option<int>
    var immunised: bool
    var immunisationDuration: int

    /** Every infected agent has a disease duration. */
    predicate Valid()
      reads this
    {
      infected ==> diseaseDuration.Some?
    }

    /** A new agent is infected iff its uniform draw is below `initialInfection`,
        with the rounded exponential sample as duration, and is never immunised. */
    constructor (id: nat, initialInfection: real, transmissibility: real, levelOfMovement: real,
                 meanLengthOfDisease: real, meanImmDuration: real, probBeingImmunised: real,
                 infectionDraw: real, durationSample: real)
      ensures this.id == id && this.transmissibility == transmissibility
      ensures this.levelOfMovement == levelOfMovement && this.meanLengthOfDisease == meanLengthOfDisease
      ensures this.meanImmDuration == meanImmDuration && this.probBeingImmunised == probBeingImmunised
      ensures infected <==> infectionDraw < initialInfection
      ensures diseaseDuration == if infected then Some(RoundHalfEven(durationSample)) else None
      ensures !immunised && immunisationDuration == 0
      ensures Valid()
    {
      this.id := id;
      this.transmissibility := transmissibility;
      this.levelOfMovement := levelOfMovement;
      this.meanLengthOfDisease := meanLengthOfDisease;
      this.meanImmDuration := meanImmDuration;
      if infectionDraw < initialInfection {
        infected := true;
        diseaseDuration := Some(RoundHalfEven(durationSample));
      } else {
        infected := false;
        diseaseDuration := None;
      }
      immunised := false;
      immunisationDuration := 0;
      this.probBeingImmunised := probBeingImmunised;
    }

    /** With more than one agent in the cell, each cellmate that is neither
        infected nor immunised becomes infected, with a rounded duration, iff
        its draw is below the transmissibility; immunisation is never touched. */
    method Infect(cellmates: seq<Person>, draws: seq<real>, samples: seq<real>)
      requires |draws| == |cellmates| && |samples| == |cellmates|
      requires Distinct(cellmates)
      modifies cellmates
      ensures forall k :: 0 <= k < |cellmates| ==>
        cellmates[k].immunised == old(cellmates[k].immunised)
        && cellmates[k].immunisationDuration == old(cellmates[k].immunisationDuration)
      ensures forall k :: 0 <= k < |cellmates| ==>
        if |cellmates| > 1 && !old(cellmates[k].infected) && !old(cellmates[k].immunised) && draws[k] < transmissibility
        then cellmates[k].infected && cellmates[k].diseaseDuration == Some(RoundHalfEven(samples[k]))
        else (cellmates[k].infected == old(cellmates[k].infected)
          && cellmates[k].diseaseDuration == old(cellmates[k].diseaseDuration))
    {
      if |cellmates| > 1 {
        for i := 0 to |cellmates|
          invariant forall k :: 0 <= k < |cellmates| ==>
            cellmates[k].immunised == old(cellmates[k].immunised)
            && cellmates[k].immunisationDuration == old(cellmates[k].immunisationDuration)
          invariant forall k :: 0 <= k < i ==>
            if !old(cellmates[k].infected) && !old(cellmates[k].immunised) && draws[k] < transmissibility
            then cellmates[k].infected && cellmates[k].diseaseDuration == Some(RoundHalfEven(samples[k]))
            else (cellmates[k].infected == old(cellmates[k].infected)
              && cellmates[k].diseaseDuration == old(cellmates[k].diseaseDuration))
          invariant forall k :: i <= k < |cellmates| ==>
            cellmates[k].infected == old(cellmates[k].infected)
            && cellmates[k].diseaseDuration == old(cellmates[k].diseaseDuration)
        {
          var inhabitant := cellmates[i];
          if !inhabitant.infected && !inhabitant.immunised {
            if draws[i] < transmissibility {
              inhabitant.infected := true;
              inhabitant.diseaseDuration := Some(RoundHalfEven(samples[i]));
            }
          }
        }
      }
    }

    /** Immunised for `int(sample)` steps; the infection state is untouched. */
    method BecomeImmunised(sample: real)
      modifies this
      ensures immunised && immunisationDuration == Trunc(sample)
      ensures infected == old(infected) && diseaseDuration == old(diseaseDuration)
    {
      immunised := true;
      immunisationDuration := Trunc(sample);
    }

    /** One step: the agent moves iff its draw is below the level of movement;
        an infected agent infects its cellmates, loses one unit of disease
        duration and recovers at zero or less; then an immunised agent loses
        one unit of immunity and becomes susceptible at zero or less, while a
        non-immunised one becomes immunised iff its draw is below
        `probBeingImmunised`, with no decrement on that step. */
    method Step(moveDraw: real, cellmates: seq<Person>, draws: seq<real>, samples: seq<real>,
                immDraw: real, immSample: real) returns (moved: bool)
      requires Valid()
      requires |draws| == |cellmates| && |samples| == |cellmates|
      requires Distinct(cellmates)
      modifies this, cellmates
      ensures moved <==> moveDraw < levelOfMovement
      ensures old(infected) ==> (diseaseDuration == Some(old(diseaseDuration.value) - 1)
        && (infected <==> diseaseDuration.value > 0))
      ensures !old(infected) ==> !infected && diseaseDuration == old(diseaseDuration)
      ensures old(immunised) ==> (immunisationDuration == old(immunisationDuration) - 1
        && (immunised <==> immunisationDuration > 0))
      ensures !old(immunised) ==> if immDraw < probBeingImmunised
        then immunised && immunisationDuration == Trunc(immSample)
        else !immunised && immunisationDuration == old(immunisationDuration)
      ensures Valid()
      ensures forall p :: p in cellmates && old(p.Valid()) ==> p.Valid()
      ensures forall k :: 0 <= k < |cellmates| && cellmates[k] != this ==>
        cellmates[k].immunised == old(cellmates[k].immunised)
        && cellmates[k].immunisationDuration == old(cellmates[k].immunisationDuration)
      ensures forall k :: 0 <= k < |cellmates| && cellmates[k] != this ==>
        if old(infected) && |cellmates| > 1 && !old(cellmates[k].infected) && !old(cellmates[k].immunised)
           && draws[k] < transmissibility
        then cellmates[k].infected && cellmates[k].diseaseDuration == Some(RoundHalfEven(samples[k]))
        else (cellmates[k].infected == old(cellmates[k].infected)
          && cellmates[k].diseaseDuration == old(cellmates[k].diseaseDuration))
    {
      moved := moveDraw < levelOfMovement;
      if infected {
        Infect(cellmates, draws, samples);
        diseaseDuration := Some(diseaseDuration.value - 1);
        if diseaseDuration.value <= 0 {
          infected := false;
        }
      }
      if immunised {
        immunisationDuration := immunisationDuration - 1;
        if immunisationDuration <= 0 {
          immunised := false;
        }
      } else {
        if immDraw < probBeingImmunised {
          BecomeImmunised(immSample);
        }
      }
    }
  }

  predicate Distinct(ps: seq<Person>)
  {
    forall i, j :: 0 <= i < j < |ps| ==> ps[i] != ps[j]
  }

  /** `[agent.infected for agent in model.schedule.agents]`. */
  function InfectionReport(agents: seq<Person>): (r: seq<bool>)
    reads agents
    ensures |r| == |agents| && forall i :: 0 <= i < |agents| ==> r[i] == agents[i].infected
  {
    seq(|agents|, i requires 0 <= i < |agents| reads agents => agents[i].infected)
  }

  /** `[agent.immunised for agent in model.schedule.agents]`. */
  function ImmunisationReport(agents: seq<Person>): (r: seq<bool>)
    reads agents
    ensures |r| == |agents| && forall i :: 0 <= i < |agents| ==> r[i] == agents[i].immunised
  {
    seq(|agents|, i requires 0 <= i < |agents| reads agents => agents[i].immunised)
  }

  /** The reports read only the agents' flags. */
  twostate lemma ReportsUnchanged(agents: seq<Person>)
    requires unchanged(agents)
    ensures InfectionReport(agents) == old(InfectionReport(agents))
    ensures ImmunisationReport(agents) == old(ImmunisationReport(agents))
  {
  }

  /** The reporters' counting loop: the number of true entries. */
  method CountTrue(report: seq<bool>) returns (total: nat)
    ensures total == Count(report, true)
    ensures total <= |report|
  {
    total := 0;
    for i := 0 to |report|
      invariant total == Count(report[..i], true)
    {
      assert report[..i + 1][..i] == report[..i];
      if report[i] {
        total := total + 1;
      }
    }
    assert report[..|report|] == report;
  }

  /** `calculate_number_infected`: the number of infected agents, between 0
      and the number of agents. */
  method CountInfected(agents: seq<Person>) returns (total: nat)
    ensures total == Count(InfectionReport(agents), true)
    ensures total <= |agents|
  {
    total := CountTrue(InfectionReport(agents));
  }

  /** `calculate_number_immunised`: the number of immunised agents, between 0
      and the number of agents. */
  method CountImmunised(agents: seq<Person>) returns (total: nat)
    ensures total == Count(ImmunisationReport(agents), true)
    ensures total <= |agents|
  {
    total := CountTrue(ImmunisationReport(agents));
  }

  /** One agent's turn in a schedule step: who acts, its draws, and its
      cellmates as agent numbers. */
  datatype Activation = Activation(agent: nat, moveDraw: real, cellmates: seq<nat>, draws: seq<real>,
                                   samples: seq<real>, immDraw: real, immSample: real)

  predicate GoodActivation(act: Activation, n: nat)
  {
    act.agent < n
    && |act.draws| == |act.cellmates| && |act.samples| == |act.cellmates|
    && (forall k :: 0 <= k < |act.cellmates| ==> act.cellmates[k] < n)
    && forall k, l :: 0 <= k < l < |act.cellmates| ==> act.cellmates[k] != act.cellmates[l]
  }

  /** The agents with the given numbers: `grid.get_cell_list_contents`. */
  function Cellmates(agents: seq<Person>, idx: seq<nat>): (ps: seq<Person>)
    requires forall k :: 0 <= k < |idx| ==> idx[k] < |agents|
    ensures |ps| == |idx| && forall k :: 0 <= k < |idx| ==> ps[k] == agents[idx[k]]
    ensures (Distinct(agents) && forall k, l :: 0 <= k < l < |idx| ==> idx[k] != idx[l]) ==> Distinct(ps)
  {
    seq(|idx|, k requires 0 <= k < |idx| => agents[idx[k]])
  }

  /** One agent's infection and immunisation state, as a value. */
  datatype Health = Health(infected: bool, diseaseDuration: Option<int>, immunised: bool, immunisationDuration: int)

  /** The agents' states. */
  function HealthOf(agents: seq<Person>): seq<Health>
    reads agents
  {
    seq(|agents|, i requires 0 <= i < |agents| reads agents =>
      Health(agents[i].infected, agents[i].diseaseDuration, agents[i].immunised, agents[i].immunisationDuration))
  }

  /** The agents' transmissibilities (constants). */
  function Rates(agents: seq<Person>): seq<real>
  {
    seq(|agents|, i requires 0 <= i < |agents| => agents[i].transmissibility)
  }

  /** The agents' probabilities of being immunised (constants). */
  function ImmunisationChances(agents: seq<Person>): seq<real>
  {
    seq(|agents|, i requires 0 <= i < |agents| => agents[i].probBeingImmunised)
  }

  predicate MatesIn(mates: seq<nat>, n: nat)
  {
    forall k :: 0 <= k < |mates| ==> mates[k] < n
  }

  /** The first `k` cellmates visited in order by an infecting agent with
      transmissibility `tr`: with more than one agent in the cell, a cellmate
      neither infected nor immunised whose draw is below `tr` becomes
      infected with the rounded sample as duration. */
  function InfectFirst(hs: seq<Health>, mates: seq<nat>, draws: seq<real>, samples: seq<real>, tr: real, k: nat)
    : (r: seq<Health>)
    requires k <= |mates| && |draws| == |mates| && |samples| == |mates| && MatesIn(mates, |hs|)
    ensures |r| == |hs|
  {
    if k == 0 then hs
    else
      var h, j := InfectFirst(hs, mates, draws, samples, tr, k - 1), mates[k - 1];
      if |mates| > 1 && !h[j].infected && !h[j].immunised && draws[k - 1] < tr
      then h[j := h[j].(infected := true, diseaseDuration := Some(RoundHalfEven(samples[k - 1])))]
      else h
  }

  /** A visited cellmate ends infected iff it is open to infection and its
      own draw is below `tr`, whichever cellmates are visited before it; its
      immunisation is kept. */
  lemma {:induction false} InfectFirstVisited(hs: seq<Health>, mates: seq<nat>, draws: seq<real>, samples: seq<real>,
                                              tr: real, k: nat, m: nat)
    requires k <= |mates| && |draws| == |mates| && |samples| == |mates| && MatesIn(mates, |hs|)
    requires forall a, b :: 0 <= a < b < |mates| ==> mates[a] != mates[b]
    requires m < k
    ensures InfectFirst(hs, mates, draws, samples, tr, k)[mates[m]]
      == if |mates| > 1 && !hs[mates[m]].infected && !hs[mates[m]].immunised && draws[m] < tr
         then hs[mates[m]].(infected := true, diseaseDuration := Some(RoundHalfEven(samples[m])))
         else hs[mates[m]]
  {
    if m < k - 1 {
      InfectFirstVisited(hs, mates, draws, samples, tr, k - 1, m);
    } else {
      InfectFirstUnvisited(hs, mates, draws, samples, tr, k - 1, mates[m]);
    }
  }

  /** An agent that is not among the visited cellmates is left alone. */
  lemma {:induction false} InfectFirstUnvisited(hs: seq<Health>, mates: seq<nat>, draws: seq<real>, samples: seq<real>,
                                                tr: real, k: nat, j: nat)
    requires k <= |mates| && |draws| == |mates| && |samples| == |mates| && MatesIn(mates, |hs|)
    requires j < |hs| && forall m :: 0 <= m < k ==> mates[m] != j
    ensures InfectFirst(hs, mates, draws, samples, tr, k)[j] == hs[j]
  {
    if k > 0 {
      InfectFirstUnvisited(hs, mates, draws, samples, tr, k - 1, j);
    }
  }

  /** The actor's own immunisation update: an immunised agent loses one unit
      and stays immunised iff some remains; another one becomes immunised for
      the truncated sample iff its draw is below `prob`. */
  function Immunise(h: Health, immDraw: real, immSample: real, prob: real): (r: Health)
  {
    if h.immunised then h.(immunised := h.immunisationDuration - 1 > 0,
                           immunisationDuration := h.immunisationDuration - 1)
    else if immDraw < prob then h.(immunised := true, immunisationDuration := Trunc(immSample))
    else h
  }

  /** An infected agent's own disease step: one unit less, infected iff
      some remains. */
  function Recover(h: Health): (r: Health)
  {
    if h.infected && h.diseaseDuration.Some? then
      var d := h.diseaseDuration.value - 1;
      h.(infected := d > 0, diseaseDuration := Some(d))
    else h
  }

  /** What the `m`-th cellmate becomes when the actor infects: infected with
      the rounded sample iff the actor is infected, the cell holds more than
      one agent, the cellmate is neither infected nor immunised and its draw
      is below `tr`. */
  function MateAfter(hs: seq<Health>, act: Activation, tr: real, m: nat): Health
    requires GoodActivation(act, |hs|) && m < |act.cellmates|
  {
    var h := hs[act.cellmates[m]];
    if hs[act.agent].infected && |act.cellmates| > 1 && !h.infected && !h.immunised && act.draws[m] < tr
    then h.(infected := true, diseaseDuration := Some(RoundHalfEven(act.samples[m])))
    else h
  }

  /** One activation on the agents' states: an infected actor
      (transmissibility `tr`) infects its cellmates in order, then its own
      state moves on by `Recover` and `Immunise`. */
  function StepOne(hs: seq<Health>, act: Activation, tr: real, prob: real): (r: seq<Health>)
    requires GoodActivation(act, |hs|)
    ensures |r| == |hs|
  {
    var a := act.agent;
    var spread := if hs[a].infected then InfectFirst(hs, act.cellmates, act.draws, act.samples, tr, |act.cellmates|)
                  else hs;
    spread[a := Immunise(Recover(hs[a]), act.immDraw, act.immSample, prob)]
  }

  /** `StepOne` is the step `Person.Step` promises: the actor's own update,
      the `MateAfter` update of every other cellmate, and nobody else
      touched. */
  lemma StepOneFrom(hs: seq<Health>, act: Activation, tr: real, prob: real, now: seq<Health>)
    requires GoodActivation(act, |hs|) && |now| == |hs|
    requires now[act.agent] == Immunise(Recover(hs[act.agent]), act.immDraw, act.immSample, prob)
    requires forall m :: 0 <= m < |act.cellmates| && act.cellmates[m] != act.agent ==>
      now[act.cellmates[m]] == MateAfter(hs, act, tr, m)
    requires forall j :: 0 <= j < |hs| && j != act.agent && j !in act.cellmates ==> now[j] == hs[j]
    ensures now == StepOne(hs, act, tr, prob)
  {
    var r := StepOne(hs, act, tr, prob);
    forall j | 0 <= j < |hs|
      ensures now[j] == r[j]
    {
      if j != act.agent {
        if m :| 0 <= m < |act.cellmates| && act.cellmates[m] == j {
          if hs[act.agent].infected {
            InfectFirstVisited(hs, act.cellmates, act.draws, act.samples, tr, |act.cellmates|, m);
          }
        } else if hs[act.agent].infected {
          InfectFirstUnvisited(hs, act.cellmates, act.draws, act.samples, tr, |act.cellmates|, j);
        }
      }
    }
  }

  /** The activations in order, each actor using its own constants. */
  function StepAll(hs: seq<Health>, acts: seq<Activation>, rates: seq<real>, chances: seq<real>): (r: seq<Health>)
    requires |rates| == |hs| && |chances| == |hs|
    requires forall t :: 0 <= t < |acts| ==> GoodActivation(acts[t], |hs|)
    ensures |r| == |hs|
  {
    if acts == [] then hs
    else
      var last := acts[|acts| - 1];
      assert GoodActivation(last, |hs|);
      StepOne(StepAll(hs, acts[..|acts| - 1], rates, chances), last, rates[last.agent], chances[last.agent])
  }

  class Model {
    const numAgents: nat
    /** The schedule's agents, agent `i` having id `i`. */
    var agents: seq<Person>
    /** The collected `Total_Infected` and `Total_Imm` values, one per model step. */
    var totalInfected: seq<nat>
    var totalImm: seq<nat>

    ghost predicate Valid()
      reads this`agents, agents
    {
      |agents| == numAgents
      && Distinct(agents)
      && forall i :: 0 <= i < |agents| ==> agents[i].id == i && agents[i].Valid()
    }

    /** Creates `n` agents with ids 0 .. n-1 and adds each to the schedule. */
    constructor (n: nat, initialInfection: real, transmissibility: real, levelOfMovement: real,
                 meanLengthOfDisease: real, meanImmDuration: real, probBeingImmunised: real,
                 infectionDraws: seq<real>, durationSamples: seq<real>)
      requires |infectionDraws| == n && |durationSamples| == n
      ensures Valid()
      ensures numAgents == n && totalInfected == [] && totalImm == []
      ensures forall i :: 0 <= i < n ==> (fresh(agents[i])
        && agents[i].transmissibility == transmissibility && agents[i].probBeingImmunised == probBeingImmunised
        && (agents[i].infected <==> infectionDraws[i] < initialInfection)
        && agents[i].diseaseDuration == (if agents[i].infected then Some(RoundHalfEven(durationSamples[i])) else None)
        && !agents[i].immunised && agents[i].immunisationDuration == 0)
    {
      numAgents := n;
      totalInfected := [];
      totalImm := [];
      var schedule: seq<Person> := [];
      for i := 0 to n
        invariant |schedule| == i && Distinct(schedule)
        invariant forall k :: 0 <= k < i ==> (fresh(schedule[k]) && schedule[k].id == k && schedule[k].Valid()
          && schedule[k].transmissibility == transmissibility && schedule[k].probBeingImmunised == probBeingImmunised
          && (schedule[k].infected <==> infectionDraws[k] < initialInfection)
          && schedule[k].diseaseDuration == (if schedule[k].infected then Some(RoundHalfEven(durationSamples[k])) else None)
          && !schedule[k].immunised && schedule[k].immunisationDuration == 0)
      {
        var a := new Person(i, initialInfection, transmissibility, levelOfMovement, meanLengthOfDisease,
                            meanImmDuration, probBeingImmunised, infectionDraws[i], durationSamples[i]);
        schedule := schedule + [a];
      }
      agents := schedule;
    }

    /** The activations of one schedule step name every agent exactly once. */
    predicate WellFormed(acts: seq<Activation>)
    {
      |acts| == numAgents
      && (forall i, j :: 0 <= i < j < |acts| ==> acts[i].agent != acts[j].agent)
      && forall i :: 0 <= i < |acts| ==> GoodActivation(acts[i], numAgents)
    }

    /** One agent's step, with its cellmates looked up by number: the
        agents' states move on by `StepOne`. */
    method Activate(act: Activation)
      requires Valid() && GoodActivation(act, numAgents)
      modifies agents
      ensures Valid()
      ensures HealthOf(agents) == StepOne(old(HealthOf(agents)), act, agents[act.agent].transmissibility,
                                          agents[act.agent].probBeingImmunised)
    {
      ghost var before := HealthOf(agents);
      var mates := Cellmates(agents, act.cellmates);
      var actor := agents[act.agent];
      var _ := actor.Step(act.moveDraw, mates, act.draws, act.samples, act.immDraw, act.immSample);
      ghost var now := HealthOf(agents);
      forall i | 0 <= i < |agents|
        ensures agents[i].Valid()
      {
        if agents[i] != actor && agents[i] !in mates {
          assert unchanged(agents[i]);
        }
      }
      forall m | 0 <= m < |mates| && act.cellmates[m] != act.agent
        ensures now[act.cellmates[m]] == MateAfter(before, act, actor.transmissibility, m)
      {
        assert mates[m] == agents[act.cellmates[m]] != actor;
      }
      forall j | 0 <= j < |agents| && j != act.agent && j !in act.cellmates
        ensures now[j] == before[j]
      {
        assert agents[j] !in mates;
      }
      StepOneFrom(before, act, actor.transmissibility, actor.probBeingImmunised, now);
    }

    /** Activation `t` of a schedule step: the agents' states move on from
        those of the first `t` activations to those of the first `t + 1`. */
    method ActivateNext(acts: seq<Activation>, t: nat, ghost h0: seq<Health>, ghost rates: seq<real>,
                        ghost chances: seq<real>)
      requires Valid() && WellFormed(acts) && t < |acts|
      requires |h0| == numAgents && rates == Rates(agents) && chances == ImmunisationChances(agents)
      requires HealthOf(agents) == StepAll(h0, acts[..t], rates, chances)
      modifies agents
      ensures Valid() && HealthOf(agents) == StepAll(h0, acts[..t + 1], rates, chances)
    {
      assert acts[..t + 1][..t] == acts[..t];
      Activate(acts[t]);
    }

    /** `datacollector.collect(self)`: both model reporters are appended. */
    method Collect()
      modifies this
      ensures agents == old(agents) && (old(Valid()) ==> Valid())
      ensures totalInfected == old(totalInfected) + [Count(InfectionReport(agents), true)]
      ensures totalImm == old(totalImm) + [Count(ImmunisationReport(agents), true)]
    {
      var infectedNow := CountInfected(agents);
      var immunisedNow := CountImmunised(agents);
      totalInfected, totalImm := totalInfected + [infectedNow], totalImm + [immunisedNow];
      ReportsUnchanged(agents);
    }

    /** `schedule.step()` then `datacollector.collect(self)`: every agent
        steps once, in the given order, so the agents' states move on by
        `StepAll`, then both reporters are appended. */
    method Step(acts: seq<Activation>)
      requires Valid() && WellFormed(acts)
      modifies this, agents
      ensures Valid() && agents == old(agents)
      ensures HealthOf(agents) == StepAll(old(HealthOf(agents)), acts, Rates(agents), ImmunisationChances(agents))
      ensures totalInfected == old(totalInfected) + [Count(InfectionReport(agents), true)]
      ensures totalImm == old(totalImm) + [Count(ImmunisationReport(agents), true)]
    {
      ghost var h0, rates, chances := HealthOf(agents), Rates(agents), ImmunisationChances(agents);
      for t := 0 to |acts|
        invariant Valid() && agents == old(agents)
        invariant totalInfected == old(totalInfected) && totalImm == old(totalImm)
        invariant HealthOf(agents) == StepAll(h0, acts[..t], rates, chances)
      {
        ActivateNext(acts, t, h0, rates, chances);
      }
      assert acts[..|acts|] == acts;
      Collect();
    }
  }
}
