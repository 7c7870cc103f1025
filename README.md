# hsma3 teaching scripts: a verified model of their core logic

This project models the decision-making parts of the hsma3 course scripts in
Dafny and proves properties of them:

- the **multi-arm bandit world**: Bernoulli bandits; a casino that plays one
  bandit and reports the outcome to every registered learner (the observer
  pattern); and the learners. These are epsilon greedy, annealing epsilon
  greedy, optimistic initial values, Thompson sampling and, for its counts and
  means, the upper-confidence-bound learner. There is also a Monte-Carlo
  harness that replicates a learner's run and counts how often it picks the
  correct arm (modules `BanditHistory`, `BanditWorld`, `BanditSimulation`);
- the **rule-based relation extractors**, which work over dependency-tagged
  tokens: passive-voice detection, the subtree matchers, the three versions of
  the subject/object extractor and the loops that assemble relational triples
  (`Dependency`, `SubtreeMatcher`, `Triples`);
- **named-entity training data**: character spans found by first occurrence,
  the CSV row parser, the training tuples, and the entity frequency and
  category statistics (`NerTraining`, `EntityStats`);
- the **service-transition network**: a matrix counted in place from each
  client's consecutive records, and the edge list scanned from it
  (`ServiceTransitions`);
- the **agent-based disease models**: infection and immunisation flags,
  duration counters, infection of cellmates in place, and the count reporters
  (`DiseaseModel`, `ImmunisationModel`);
- **small programs**: the integer calculator, the guessing game, the sentiment
  banding and noun-chunk pairing, the patient CSV summary, the in-place array
  loops and the counting generator (`Calculator`, `GuessingGame`,
  `AspectSentiment`, `PatientSummary`, `ArrayLoops`, `Generator`). `Seqs` holds
  the Python built-ins they share: `str.find`, `list.count`, numpy `argmax`,
  `int()` and `round()`.

Objects whose fields the scripts update become classes with `modifies`
clauses. The numpy vectors of a learner are `seq` fields that its methods
reassign. Every random draw, every library result (spaCy parses, mesa
cellmates, the classifier's scores) and every typed input is a parameter. A
Python exception is a `Failure` of a `Result`. Typed input is the sequence of
lines the user enters: in the guessing game and the entity prompt, a prompt
with no line left raises EOFError, and `int()` on a line that is not an
integer raises ValueError.

The model follows the code as written where it differs from its comments or
from what a reader would expect:

- `small_bandit_problem` builds three bandits; its documentation says ten.
- The optimistic learner inherits `reset`, so a reset sets its means to 0,
  not to its initial value.
- `reset` keeps epsilon, so an annealed epsilon carries over from one
  replication to the next.
- `dep.find("subjpass") == True` holds only when the label's first
  "subjpass" starts at index 1.
- The upper-confidence-bound and Thompson learners register with the casino
  before they validate the budget.
- Version 2 of the extractor raises KeyError on a selected proper noun at
  token 0.
- `subtree_matcher_old` tests only the last token for an object.
- The CSV parser reads entity cells from the unfiltered row.

## Model

Source paths below are relative to the repository root, and
`13_reinforcement_learning/multi_arm_bandits/relearn/bandit_world/` is written out in full.

| member | source | states |
|---|---|---|
| BanditHistory.ArmCount | 13_reinforcement_learning/multi_arm_bandits/relearn/bandit_world/agents.py:176 | an arm's pull count is a number of feedbacks, never more than the history's length |
| BanditHistory.ArmWins | 13_reinforcement_learning/multi_arm_bandits/relearn/bandit_world/agents.py:546-547 | successes (reward exactly 1) never exceed the arm's pulls |
| BanditHistory.ArmLosses | 13_reinforcement_learning/multi_arm_bandits/relearn/bandit_world/agents.py:548-549 | failures (any other reward) never exceed the arm's pulls |
| BanditHistory.Counts | 13_reinforcement_learning/multi_arm_bandits/relearn/bandit_world/agents.py:60 | the `_actions` vector holds, per arm, that arm's number of feedbacks |
| BanditHistory.WinCounts | 13_reinforcement_learning/multi_arm_bandits/relearn/bandit_world/agents.py:476 | `_number_of_rewards_1` holds each arm's successes |
| BanditHistory.LossCounts | 13_reinforcement_learning/multi_arm_bandits/relearn/bandit_world/agents.py:477 | `_number_of_rewards_0` holds each arm's failures |
| BanditHistory.Estimates | 13_reinforcement_learning/multi_arm_bandits/relearn/bandit_world/agents.py:61 | the `_means` vector holds each arm's estimate: its starting value before any pull, then the average of its rewards |
| BanditHistory.Reward | 13_reinforcement_learning/multi_arm_bandits/relearn/bandit_world/environments.py:39-44 | a pull pays 0 or 1, and pays 1 exactly when the uniform draw is at most the success probability |
| BanditHistory.IncrementalMean | 13_reinforcement_learning/multi_arm_bandits/relearn/bandit_world/agents.py:179-195 | the running-average step ((n-1)/n)·mean + (1/n)·reward turns the average of n-1 rewards into the average of n |
| BanditHistory.AppendPull | 13_reinforcement_learning/multi_arm_bandits/relearn/bandit_world/agents.py:173-177 | one more feedback changes the count, reward sum, wins and losses of its own arm only, and adds its reward to the total |
| BanditHistory.CountsAfterPull | 13_reinforcement_learning/multi_arm_bandits/relearn/bandit_world/agents.py:176 | `_actions[arm] += 1` keeps the counts equal to the feedback counts |
| BanditHistory.WinsAfterPull | 13_reinforcement_learning/multi_arm_bandits/relearn/bandit_world/agents.py:546-547 | counting a reward of 1 as a success keeps the success counters right |
| BanditHistory.LossesAfterPull | 13_reinforcement_learning/multi_arm_bandits/relearn/bandit_world/agents.py:548-549 | counting any other reward as a failure keeps the failure counters right |
| BanditHistory.MeansAfterPull | 13_reinforcement_learning/multi_arm_bandits/relearn/bandit_world/agents.py:177 | replacing only the pulled arm's mean by the running-average step keeps every mean the average of its arm's rewards |
| BanditHistory.VectorsOf | 13_reinforcement_learning/multi_arm_bandits/relearn/bandit_world/agents.py:173-177 | vectors that agree element-wise with the history are exactly the history's count, win, loss and estimate vectors |
| BanditHistory.UnplayedTotal | 13_reinforcement_learning/multi_arm_bandits/relearn/bandit_world/agents.py:175 | an arm never played has reward sum 0 |
| BanditHistory.WinsAndLosses | 13_reinforcement_learning/multi_arm_bandits/relearn/bandit_world/agents.py:546-551 | successes plus failures equal the pulls of every arm |
| BanditHistory.CountsAddUp | 13_reinforcement_learning/multi_arm_bandits/relearn/bandit_world/agents.py:176 | the pull counts add up to the number of feedbacks |
| BanditHistory.ZeroOneTotals | 13_reinforcement_learning/multi_arm_bandits/relearn/bandit_world/environments.py:41-46 | with 0/1 rewards an arm's reward sum is its number of successes, between 0 and its pulls |
| BanditWorld.BernoulliBandit.constructor | 13_reinforcement_learning/multi_arm_bandits/relearn/bandit_world/environments.py:13-25 | a new bandit keeps its probability and starts with no plays and no reward |
| BanditWorld.BernoulliBandit.Play | 13_reinforcement_learning/multi_arm_bandits/relearn/bandit_world/environments.py:28-49 | the reward is 1 iff draw ≤ p; exactly one play and that reward are counted; a bandit never pays more than its plays |
| BanditWorld.BernoulliBandit.Reset | 13_reinforcement_learning/multi_arm_bandits/relearn/bandit_world/environments.py:51-57 | plays and total reward go back to zero |
| BanditWorld.BernoulliBandit.WinProportion | 13_reinforcement_learning/multi_arm_bandits/relearn/bandit_world/environments.py:60-71 | 0.0 before any play, otherwise wins over plays; always within [0, 1] |
| BanditWorld.CustomBanditProblem | 13_reinforcement_learning/multi_arm_bandits/relearn/bandit_world/environments.py:137-150 | one new, distinct, unplayed bandit per mean, in order |
| BanditWorld.StandardBanditProblem | 13_reinforcement_learning/multi_arm_bandits/relearn/bandit_world/environments.py:152-164 | ten bandits with the listed means |
| BanditWorld.SmallBanditProblem | 13_reinforcement_learning/multi_arm_bandits/relearn/bandit_world/environments.py:167-176 | three bandits with means 0.3, 0.5 and 0.1 |
| BanditWorld.Rounds | 13_reinforcement_learning/multi_arm_bandits/relearn/bandit_world/agents.py:119 | `range(budget)` runs `budget` rounds, none for a negative budget |
| BanditWorld.PickBelow | 13_reinforcement_learning/multi_arm_bandits/relearn/bandit_world/agents.py:516-519 | the argmax of the Beta samples is one of the arms |
| BanditWorld.PickIsFirstMax | 13_reinforcement_learning/multi_arm_bandits/relearn/bandit_world/agents.py:519 | the picked arm has the largest sample and every arm before it a strictly smaller one (numpy's first maximum) |
| BanditWorld.ThompsonPick | 13_reinforcement_learning/multi_arm_bandits/relearn/bandit_world/agents.py:514-521 | Thompson sampling plays one of the arms, chosen from the successes + 1 and failures + 1 of the history |
| BanditWorld.Choice | 13_reinforcement_learning/multi_arm_bandits/relearn/bandit_world/agents.py:119-153 | the epsilon learners exploit (argmax of the means) iff the sample is strictly greater than epsilon and otherwise explore with the random arm; the optimistic learner always exploits; Thompson plays the largest Beta sample |
| BanditWorld.NextPull | 13_reinforcement_learning/multi_arm_bandits/relearn/bandit_world/agents.py:119-125 | a round's feedback names a real arm and pays 0 or 1 |
| BanditWorld.Played | 13_reinforcement_learning/multi_arm_bandits/relearn/bandit_world/agents.py:114-125 | k rounds of `solve` give k feedbacks, each on a real arm |
| BanditWorld.ConsistentAfterPull | 13_reinforcement_learning/multi_arm_bandits/relearn/bandit_world/agents.py:156-195 | the statements of `feedback` keep counts, means, total and Thompson counters consistent with the one-longer history, and the counts add up to its length |
| BanditWorld.FeedbackSteps | 13_reinforcement_learning/multi_arm_bandits/relearn/bandit_world/agents.py:156-177 | any consistent state after a feedback is the stepped one: only the pulled arm's count and mean move, and the reward joins the total |
| BanditWorld.Agent.constructor | 13_reinforcement_learning/multi_arm_bandits/relearn/bandit_world/agents.py:53-61 | a new learner has total reward 0, round 0, zero counts and constant means, and (annealing) epsilon cooled at once |
| BanditWorld.Agent.Unbuilt | 13_reinforcement_learning/multi_arm_bandits/relearn/bandit_world/agents.py:350-368 | a learner whose `__init__` raised after registering keeps its kind and casino and is marked half-built |
| BanditWorld.Agent.Zeroed | 13_reinforcement_learning/multi_arm_bandits/relearn/bandit_world/agents.py:90-94 | zero counts and constant means are the state of an empty history |
| BanditWorld.Agent.CountsAreFeedbacks | 13_reinforcement_learning/multi_arm_bandits/relearn/bandit_world/agents.py:176 | a consistent learner's pull counts add up to its feedbacks since the reset |
| BanditWorld.Agent.ThompsonCounters | 13_reinforcement_learning/multi_arm_bandits/relearn/bandit_world/agents.py:525-552 | for Thompson sampling, successes + failures = pulls for every arm |
| BanditWorld.Agent.Feedback | 13_reinforcement_learning/multi_arm_bandits/relearn/bandit_world/agents.py:156-552 | one feedback extends the history by that pull, keeps the learner consistent and cools the annealing learner's epsilon after the update, from the new sum of counts; the Thompson learner also counts the reward as a success or a failure; the upper-confidence-bound learner updates its counts and means the same way |
| BanditWorld.Agent.Update | 13_reinforcement_learning/multi_arm_bandits/relearn/bandit_world/agents.py:173-177 | the reward is added to the total, only that arm's count rises by one, only its mean moves; Thompson counts a reward of 1 as a success and anything else as a failure |
| BanditWorld.Agent.AnnealEpsilon | 13_reinforcement_learning/multi_arm_bandits/relearn/bandit_world/agents.py:254-260 | epsilon becomes the schedule at (sum of counts + 1); nothing else changes |
| BanditWorld.Agent.Reset | 13_reinforcement_learning/multi_arm_bandits/relearn/bandit_world/agents.py:90-490 | total and round back to 0, zero counts and zero means, epsilon and budget kept, for every learner kind; the Thompson reset also zeroes the success and failure counters |
| BanditWorld.Agent.SetEpsilon | 13_reinforcement_learning/multi_arm_bandits/relearn/bandit_world/agents.py:99-100 | the epsilon-greedy family's setter stores any value without validation and changes nothing else; for the learners without the property the stored value is never read (`Choice` reads it only for the epsilon-greedy kinds) |
| BanditWorld.Agent.SetBudget | 13_reinforcement_learning/multi_arm_bandits/relearn/bandit_world/agents.py:102-106 | for the epsilon-greedy family (and its annealing and optimistic subclasses, with the property declared at agents.py:200) the `budget` property stores any value without validation; upper confidence bound and Thompson sampling (agents.py:348 and 462) have no such property, so their round count stays as built; nothing else changes |
| BanditWorld.Agent.BestArm | 13_reinforcement_learning/multi_arm_bandits/relearn/bandit_world/agents.py:137-146 | the lowest index of the largest mean; ValueError iff there are no arms |
| BanditWorld.Agent.Round | 13_reinforcement_learning/multi_arm_bandits/relearn/bandit_world/agents.py:119-153 | one round plays the chosen arm, tells every observer that same feedback, and counts one round for this learner |
| BanditWorld.Agent.PlayArm | 13_reinforcement_learning/multi_arm_bandits/relearn/bandit_world/agents.py:127-135 | `self._env.action(arm)` in a complete casino plays that arm, tells every observer its reward and keeps the casino complete |
| BanditWorld.Agent.Explore | 13_reinforcement_learning/multi_arm_bandits/relearn/bandit_world/agents.py:148-153 | `random_action()` in a complete casino plays the random arm, tells every observer its reward and keeps the casino complete |
| BanditWorld.Agent.CountRound | 13_reinforcement_learning/multi_arm_bandits/relearn/bandit_world/agents.py:125 | `_current_round += 1` moves only this learner's counter |
| BanditWorld.Agent.Step | 13_reinforcement_learning/multi_arm_bandits/relearn/bandit_world/agents.py:119-125 | one more round keeps the solve invariant with one more round |
| BanditWorld.Agent.SolvingStep | 13_reinforcement_learning/multi_arm_bandits/relearn/bandit_world/agents.py:119-125 | the state after round t's feedback is the solve state after t+1 rounds |
| BanditWorld.Agent.Solve | 13_reinforcement_learning/multi_arm_bandits/relearn/bandit_world/agents.py:114-523 | exactly `budget` rounds (none if negative); the round counter rises by that; every observer's history gains the `Played` feedbacks; ValueError iff rounds are due but there are no arms; the optimistic learner always exploits its means; the Thompson learner plays the arm with the largest Beta sample each round |
| BanditWorld.NewEpsilonGreedy | 13_reinforcement_learning/multi_arm_bandits/relearn/bandit_world/agents.py:39-88 | ValueError iff epsilon is not a float in [0, 1] or the budget is negative (0 accepted); only a valid learner is registered, fresh |
| BanditWorld.NewAnnealingEpsilonGreedy | 13_reinforcement_learning/multi_arm_bandits/relearn/bandit_world/agents.py:240-252 | registered without validation, fresh, epsilon at the schedule's first value |
| BanditWorld.NewOptimisticInitialValues | 13_reinforcement_learning/multi_arm_bandits/relearn/bandit_world/agents.py:324-334 | registered without validation; every mean starts at `init_value` |
| BanditWorld.NewRegisteredFirst | 13_reinforcement_learning/multi_arm_bandits/relearn/bandit_world/agents.py:350-483 | the upper-confidence-bound and Thompson learners register before validating: a negative budget raises ValueError and leaves a fresh half-built observer registered, after which the casino is no longer complete; otherwise the new complete learner is the one appended, with zero history |
| BanditWorld.Casino.constructor | 13_reinforcement_learning/multi_arm_bandits/relearn/bandit_world/environments.py:77-88 | a casino keeps its bandits, starts its iterator at 0 and has no observers |
| BanditWorld.Casino.Probs | 13_reinforcement_learning/multi_arm_bandits/relearn/bandit_world/environments.py:86 | one success probability per bandit, in order |
| BanditWorld.Casino.NumberOfArms | 13_reinforcement_learning/multi_arm_bandits/relearn/bandit_world/environments.py:93-94 | the number of bandits |
| BanditWorld.Casino.Get | 13_reinforcement_learning/multi_arm_bandits/relearn/bandit_world/environments.py:90-91 | Python list indexing: negative indexes count from the end; IndexError exactly outside [-n, n) |
| BanditWorld.Casino.RegisterObserver | 13_reinforcement_learning/multi_arm_bandits/relearn/bandit_world/environments.py:127-128 | the observer is appended |
| BanditWorld.Casino.Snapshot | 13_reinforcement_learning/multi_arm_bandits/relearn/bandit_world/environments.py:130-132 | one recorded learner state per observer, in registration order |
| BanditWorld.Casino.ToldExtends | 13_reinforcement_learning/multi_arm_bandits/relearn/bandit_world/environments.py:130-132 | telling every observer one more feedback extends every history by it |
| BanditWorld.Casino.NotifyObservers | 13_reinforcement_learning/multi_arm_bandits/relearn/bandit_world/environments.py:130-132 | every registered learner before the first half-built one receives the same feedback once, in order, and the rest are untouched; AttributeError iff some observer is half-built, none when all are complete, which then all took the feedback |
| BanditWorld.Casino.TellNext | 13_reinforcement_learning/multi_arm_bandits/relearn/bandit_world/environments.py:131-132 | `feedback` on the next complete observer extends the prefix of told observers by one and keeps the casino registered |
| BanditWorld.Casino.AllTold | 13_reinforcement_learning/multi_arm_bandits/relearn/bandit_world/environments.py:130-132 | once every observer has taken the feedback, the casino has told them all |
| BanditWorld.Casino.NoneUnbuilt | 13_reinforcement_learning/multi_arm_bandits/relearn/bandit_world/environments.py:130-132 | in a casino of complete learners the report never stops early |
| BanditWorld.Casino.PlayBandit | 13_reinforcement_learning/multi_arm_bandits/relearn/bandit_world/environments.py:106 | `play()` on bandit i pays the Bernoulli reward and counts it there, leaving every observer as it was |
| BanditWorld.FirstUnbuilt | 13_reinforcement_learning/multi_arm_bandits/relearn/bandit_world/environments.py:131-132 | the position the report stops at: every observer before it is complete, the one at it (if any) is half-built |
| BanditWorld.Casino.Action | 13_reinforcement_learning/multi_arm_bandits/relearn/bandit_world/environments.py:96-107 | plays only bandit i and reports (i, reward) to the observers up to the first half-built one; IndexError iff there is no bandit i, with nothing changed; AttributeError iff a half-built learner is registered; otherwise the reward, with everyone told |
| BanditWorld.Casino.RandomAction | 13_reinforcement_learning/multi_arm_bandits/relearn/bandit_world/environments.py:109-114 | plays the randomly chosen arm as `action` does; ValueError iff there are no arms, AttributeError iff a half-built learner is registered |
| BanditWorld.Casino.Next | 13_reinforcement_learning/multi_arm_bandits/relearn/bandit_world/environments.py:120-125 | the index always moves on; StopIteration (None) iff it has passed the last bandit, else the bandit before the index |
| BanditWorld.Casino.Iterate | 13_reinforcement_learning/multi_arm_bandits/relearn/bandit_world/environments.py:117-125 | a first loop yields the remaining bandits in order and any later loop nothing, because the iterator is never reset |
| BanditWorld.Sampled | 13_reinforcement_learning/multi_arm_bandits/relearn/bandit_world/agents.py:604-619 | k rounds of `thompson_sampling` give k pulls |
| BanditWorld.SampledPulls | 13_reinforcement_learning/multi_arm_bandits/relearn/bandit_world/agents.py:609-612 | each round selects a column of the table and receives that row's cell |
| BanditWorld.SampledPrefix | 13_reinforcement_learning/multi_arm_bandits/relearn/bandit_world/agents.py:604 | the first k rounds do not depend on how many rounds follow |
| BanditWorld.SampledRound | 13_reinforcement_learning/multi_arm_bandits/relearn/bandit_world/agents.py:606-612 | round k plays the Thompson arm of the counters of the rounds before it |
| BanditWorld.ThompsonSampling | 13_reinforcement_learning/multi_arm_bandits/relearn/bandit_world/agents.py:580-621 | one selection per data row and a total equal to the sum of the chosen cells; ValueError iff there are rows but no arms |
| BanditWorld.ThompsonRound | 13_reinforcement_learning/multi_arm_bandits/relearn/bandit_world/agents.py:606-619 | one round keeps selections, counters and total equal to those of the sampled rounds |
| BanditWorld.Tally | 13_reinforcement_learning/multi_arm_bandits/relearn/bandit_world/agents.py:614-617 | a reward of 1 adds a success to the arm, anything else a failure |
| BanditSimulation.EpsilonAfterReplication | 13_reinforcement_learning/multi_arm_bandits/relearn/bandit_world/simulation.py:34-36 | the epsilon a replication ends with is the one the next replication starts with |
| BanditSimulation.Selection | 13_reinforcement_learning/multi_arm_bandits/relearn/bandit_world/simulation.py:35-37 | a replication's recorded best arm is one of the arms |
| BanditSimulation.Selections | 13_reinforcement_learning/multi_arm_bandits/relearn/bandit_world/simulation.py:34-39 | one selection per replication |
| BanditSimulation.SelectionAt | 13_reinforcement_learning/multi_arm_bandits/relearn/bandit_world/simulation.py:34-37 | replication j's entry is the best arm after reset and solve from the epsilon the earlier replications left |
| BanditSimulation.AgentSimulation.constructor | 13_reinforcement_learning/multi_arm_bandits/relearn/bandit_world/simulation.py:25-28 | stores the environment, the agent and the replication count |
| BanditSimulation.AgentSimulation.Simulate | 13_reinforcement_learning/multi_arm_bandits/relearn/bandit_world/simulation.py:30-39 | a new array holding the best arm of each replication; ValueError iff the replication count is negative, or positive with no arms |
| BanditSimulation.AgentSimulation.Record | 13_reinforcement_learning/multi_arm_bandits/relearn/bandit_world/simulation.py:35-37 | one replication writes its best arm into the next slot and keeps the loop invariant |
| BanditSimulation.AgentSimulation.Replicate | 13_reinforcement_learning/multi_arm_bandits/relearn/bandit_world/simulation.py:35-37 | reset, solve and best_arm: the selection and epsilon as the specification functions say; ValueError iff there are no arms |
| BanditSimulation.AgentSimulation.Restart | 13_reinforcement_learning/multi_arm_bandits/relearn/bandit_world/simulation.py:35 | the agent is reset, keeping epsilon and budget |
| BanditSimulation.ExperimentResults.constructor | 13_reinforcement_learning/multi_arm_bandits/relearn/bandit_world/simulation.py:45-48 | stores the selections, the correct count and the proportion |
| BanditSimulation.Experiment.constructor | 13_reinforcement_learning/multi_arm_bandits/relearn/bandit_world/simulation.py:55-61 | stores its arguments and builds a new simulation over the same environment, agent and replications |
| BanditSimulation.Experiment.Execute | 13_reinforcement_learning/multi_arm_bandits/relearn/bandit_world/simulation.py:63-73 | the selections of the simulation, the number equal to the best index (0..reps) and their proportion in [0, 1], NaN (None) for zero replications |
| BanditSimulation.CountEqual | 13_reinforcement_learning/multi_arm_bandits/relearn/bandit_world/simulation.py:69 | the number of entries equal to the best index |
| BanditSimulation.Proportion | 13_reinforcement_learning/multi_arm_bandits/relearn/bandit_world/simulation.py:71 | p · reps = correct; NaN (None) exactly for zero replications |
| BanditSimulation.ProportionBounds | 13_reinforcement_learning/multi_arm_bandits/relearn/bandit_world/simulation.py:71 | with at most reps correct, the proportion lies in [0, 1] |
| Dependency.IsPassiveLabel | Relation_Extraction_Tutorial/3_relational_triples.py:99 | `dep.find("subjpass") == True` holds iff the label's first "subjpass" starts at index 1 |
| Dependency.DetectPassive | Relation_Extraction_Tutorial/3_relational_triples.py:95-100 | the flag is set iff some token has a passive-subject label |
| Dependency.PassiveLabelExamples | Relation_Extraction_Tutorial/3_relational_triples.py:99 | "nsubjpass" and "csubjpass" pass; "subjpass" and "nsubj" do not |
| Triples.StandardPick | Relation_Extraction_Tutorial/3_relational_triples.py:199-235 | the candidate is the token's text, a compound plus proper noun, or a following appositive of a non-proper-noun |
| Triples.PassiveObjectPick | Relation_Extraction_Tutorial/3_relational_triples.py:547-612 | version 3's passive object is set iff the token is a proper or common noun |
| Triples.ScanIsLastPick | Relation_Extraction_Tutorial/3_relational_triples.py:116-121 | the last token that assigns a candidate decides it |
| Triples.ScanWithoutPick | Relation_Extraction_Tutorial/3_relational_triples.py:102-103 | with no assigning token the candidate stays empty |
| Triples.V3ExtendsV2 | Relation_Extraction_Tutorial/3_relational_triples.py:429-657 | version 3 differs from version 2 only in the passive-object rule |
| Triples.V1PicksTokenText | Relation_Extraction_Tutorial/3_relational_triples.py:106-121 | version 1's candidate is empty or the text of a selected token |
| Triples.UpdateCandidate | Relation_Extraction_Tutorial/3_relational_triples.py:199-235 | one token of the extractor loop moves the candidate exactly one step along the last-assignment scan, for every version and role |
| Triples.ExtractV1 | Relation_Extraction_Tutorial/3_relational_triples.py:94-123 | returns (object, subject) as the last "pobj"/"dobj" and passive-subject/"subj" tokens |
| Triples.ExtractV2 | Relation_Extraction_Tutorial/3_relational_triples.py:166-364 | returns (object, subject) under the look-around rules; KeyError iff a selected proper noun is at token 0 |
| Triples.ExtractV3 | Relation_Extraction_Tutorial/3_relational_triples.py:429-657 | returns (object, subject, passive flag) with the bounds-checked rules |
| Triples.TriplesV1 | Relation_Extraction_Tutorial/3_relational_triples.py:126-135 | one (subject, root, object) triple per sentence |
| Triples.TriplesV2 | Relation_Extraction_Tutorial/3_relational_triples.py:370-414 | one triple per sentence in the script's order; fails iff some sentence faults |
| Triples.TriplesV3 | Relation_Extraction_Tutorial/3_relational_triples.py:660-671 | (object, root, subject) for passive sentences, (subject, root, object) otherwise |
| Triples.PassiveExampleOutcome | Relation_Extraction_Tutorial/3_relational_triples.py:383-416 | on the passive example, version 3's object is "Christopher Nolan"; version 2's is "director" |
| Triples.ActiveExampleOutcome | Relation_Extraction_Tutorial/3_relational_triples.py:132-146 | on the active example, version 1 gives (Nolan, directed, film) and versions 2 and 3 give (Christopher Nolan, directed, Interstellar) |
| Triples.ActiveExampleIsActive | Relation_Extraction_Tutorial/3_relational_triples.py:96-100 | no label of the active example is a passive-subject label |
| Triples.ActiveExampleSubject | Relation_Extraction_Tutorial/3_relational_triples.py:238-277 | the subject is the pick of the "nsubj" token, no later label ending in "subj" |
| Triples.ActiveExampleNsubj | Relation_Extraction_Tutorial/3_relational_triples.py:238-253 | version 1 takes "Nolan"; the later versions join the preceding compound into "Christopher Nolan" |
| Triples.ActiveExampleObject | Relation_Extraction_Tutorial/3_relational_triples.py:194-238 | the object is the pick of the "dobj" token "film", which versions 2 and 3 replace by the following appositive "Interstellar" |
| Triples.NotSubjectLabel | Relation_Extraction_Tutorial/3_relational_triples.py:238 | a label without an 's' four characters from its end does not end in "subj" |
| Triples.PassiveExampleObject | Relation_Extraction_Tutorial/3_relational_triples.py:566-590 | the common noun "director" followed by a proper-noun compound yields the two-word name |
| Triples.NotPassiveLabel | Relation_Extraction_Tutorial/3_relational_triples.py:99 | a label shorter than "nsubjpass" is never a passive-subject label |
| Triples.PassiveExampleSubject | Relation_Extraction_Tutorial/3_relational_triples.py:616-655 | the passive subject "film" gives way to the appositive "Interstellar" |
| SubtreeMatcher.TextsWith | Relation_Extraction_Tutorial/2_relation_extraction_subtree_dependencies.py:241-254 | the collected subjects are at most one per token |
| SubtreeMatcher.ObjectPairs | Relation_Extraction_Tutorial/2_relation_extraction_subtree_dependencies.py:245-259 | the collected (text, label) objects are at most one per token |
| SubtreeMatcher.Texts | Relation_Extraction_Tutorial/2_relation_extraction_subtree_dependencies.py:246 | the texts of the object pairs, in order |
| SubtreeMatcher.MatchOld | Relation_Extraction_Tutorial/2_relation_extraction_subtree_dependencies.py:81-96 | the last passive subject, and an object only from the last token; NameError iff the document is empty |
| SubtreeMatcher.Match | Relation_Extraction_Tutorial/2_relation_extraction_subtree_dependencies.py:139-168 | (last object, last passive subject) if passive, else (last subject, last object) |
| SubtreeMatcher.ScanLast | Relation_Extraction_Tutorial/2_relation_extraction_subtree_dependencies.py:151-166 | after the loop each variable holds the text of the last token that passes its test, or "" |
| SubtreeMatcher.MatchLists | Relation_Extraction_Tutorial/2_relation_extraction_subtree_dependencies.py:228-261 | the object pairs and the subject texts in token order |
| SubtreeMatcher.LastWithIsLastText | Relation_Extraction_Tutorial/2_relation_extraction_subtree_dependencies.py:139-168 | the overwritten variable holds the last element of the list the list version collects |
| SubtreeMatcher.ObjectTexts | Relation_Extraction_Tutorial/2_relation_extraction_subtree_dependencies.py:245-259 | the object list's texts are the texts the "obj" test selects |
| SubtreeMatcher.MatchIsLastOfLists | Relation_Extraction_Tutorial/2_relation_extraction_subtree_dependencies.py:139-261 | the single-value matcher returns the last entries of the list matcher's lists |
| SubtreeMatcher.TextsWithMembers | Relation_Extraction_Tutorial/2_relation_extraction_subtree_dependencies.py:241-254 | a text is a subject iff some token with it passes the test |
| SubtreeMatcher.ObjectPairsMembers | Relation_Extraction_Tutorial/2_relation_extraction_subtree_dependencies.py:245-259 | a pair is listed iff it is the (text, label) of a token whose label ends in "obj" |
| SubtreeMatcher.ObjectCount | Relation_Extraction_Tutorial/2_relation_extraction_subtree_dependencies.py:245-259 | one object entry per token whose label ends in "obj" |
| NerTraining.EntityRecord.constructor | 11B_Named_Entity_Recognition_for_NLP/trump_extract_add_to_training.py:50-55 | a record written as [text, 0, 0, category] |
| NerTraining.Span | 11B_Named_Entity_Recognition_for_NLP/trump_extract_add_to_training.py:64-70 | start is the first occurrence of the text (-1 iff absent) and end − start is its length |
| NerTraining.SetSpans | 11B_Named_Entity_Recognition_for_NLP/trump_extract_add_to_training.py:61-75 | each record of a sentence gets its span in that sentence; text and category kept |
| NerTraining.ComputeSpans | 11B_Named_Entity_Recognition_for_NLP/trump_extract_add_to_training.py:60-75 | every record gets its span in its own sentence; only start and end change |
| NerTraining.BuildTrainingData | 11B_Named_Entity_Recognition_for_NLP/trump_extract_add_to_training.py:98-125 | one example per sentence, with the records' (start, end, category) in order |
| NerTraining.PrepareTrainingData | 11B_Named_Entity_Recognition_for_NLP/Solutions/exercise_2_solution.py:74-139 | each tuple is the span of the entity's text in its sentence, then its category |
| NerTraining.LiteralTrainingSentences | 11B_Named_Entity_Recognition_for_NLP/trump_extract_add_to_training.py:46-56 | the two literal sentences with their four entities |
| NerTraining.NonEmpty | 11B_Named_Entity_Recognition_for_NLP/Solutions/exercise_2_solution.py:54 | the row's non-empty cells, no more |
| NerTraining.ParseRow | 11B_Named_Entity_Recognition_for_NLP/Solutions/exercise_2_solution.py:48-70 | sentence = first non-empty cell; pairs read from the unfiltered row; IndexError iff no non-empty cell, or an even count with no empty cell |
| NerTraining.TrailingEmptiesGivePairs | 11B_Named_Entity_Recognition_for_NLP/Solutions/exercise_2_solution.py:54-64 | with trailing empty cells the pairs are the filtered pairs, and an even count gives an empty last category |
| NerTraining.NonEmptyIsPrefixed | 11B_Named_Entity_Recognition_for_NLP/Solutions/exercise_2_solution.py:54 | under trailing empties, a non-empty cell at p has more than p non-empty cells |
| NerTraining.NonEmptyAppendLength | 11B_Named_Entity_Recognition_for_NLP/Solutions/exercise_2_solution.py:54 | more cells never give fewer non-empty cells |
| NerTraining.PrefixIsNonEmpty | 11B_Named_Entity_Recognition_for_NLP/Solutions/exercise_2_solution.py:54 | under trailing empties the non-empty cells are a prefix of the row |
| NerTraining.NoEmptyCells | 11B_Named_Entity_Recognition_for_NLP/Solutions/exercise_2_solution.py:54 | a row without empty cells is unchanged by the filter |
| NerTraining.EmbeddedEmptyCellShiftsPairs | 11B_Named_Entity_Recognition_for_NLP/Solutions/exercise_2_solution.py:62-64 | ["s", "", "A", "ORG"] yields the entity ("", "A") |
| NerTraining.ReadRows | 11B_Named_Entity_Recognition_for_NLP/Solutions/exercise_2_solution.py:45-70 | one entry per row with fresh, distinct [text, 0, 0, category] records; fails iff some row cannot be parsed |
| NerTraining.DistinctAppend | 11B_Named_Entity_Recognition_for_NLP/Solutions/exercise_2_solution.py:63-70 | appending a row of new, distinct records keeps every record distinct |
| EntityStats.Labels | 11B_Named_Entity_Recognition_for_NLP/Solutions/exercise_1_solution.py:30 | one category per entity, in order |
| EntityStats.Texts | 11B_Named_Entity_Recognition_for_NLP/Solutions/exercise_1_solution.py:33 | one string per entity, in order |
| EntityStats.FreqTable | 11B_Named_Entity_Recognition_for_NLP/Solutions/exercise_1_solution.py:34 | keys are exactly the entity strings, each mapped to its number of occurrences, at least one |
| EntityStats.Dedup | 11B_Named_Entity_Recognition_for_NLP/Solutions/exercise_1_solution.py:34 | the distinct strings of the list |
| EntityStats.FirstAt | 11B_Named_Entity_Recognition_for_NLP/Solutions/exercise_1_solution.py:34 | the position of a string's first occurrence |
| EntityStats.FirstAtAppend | 11B_Named_Entity_Recognition_for_NLP/Solutions/exercise_1_solution.py:34 | appending does not move an earlier first occurrence |
| EntityStats.DedupInFirstOccurrenceOrder | 11B_Named_Entity_Recognition_for_NLP/Solutions/exercise_1_solution.py:34 | the distinct strings come in the order of their first occurrence, the dictionary's key order |
| EntityStats.FreqTableSum | 11B_Named_Entity_Recognition_for_NLP/Solutions/exercise_1_solution.py:34 | the frequencies add up to the number of entities |
| EntityStats.SumFreqIsSumCounts | 11B_Named_Entity_Recognition_for_NLP/Solutions/exercise_1_solution.py:34 | summing the table over any of its keys sums their occurrence counts |
| EntityStats.SumCountsCoversAll | 11B_Named_Entity_Recognition_for_NLP/Solutions/exercise_1_solution.py:34 | counting each distinct value once covers the whole list |
| EntityStats.SumCountsOfEmpty | 11B_Named_Entity_Recognition_for_NLP/Solutions/exercise_1_solution.py:34 | an empty list counts zero |
| EntityStats.SumCountsSnoc | 11B_Named_Entity_Recognition_for_NLP/Solutions/exercise_1_solution.py:34 | one more entity adds its hits |
| EntityStats.OneHit | 11B_Named_Entity_Recognition_for_NLP/Solutions/exercise_1_solution.py:34 | a value occurs once among the distinct values |
| EntityStats.NoHit | 11B_Named_Entity_Recognition_for_NLP/Solutions/exercise_1_solution.py:34 | a value absent from the distinct values is not hit |
| EntityStats.LabelSet | 11B_Named_Entity_Recognition_for_NLP/Solutions/exercise_1_solution.py:54 | the set of predicted categories |
| EntityStats.EntitiesWithLabel | 11B_Named_Entity_Recognition_for_NLP/Solutions/exercise_1_solution.py:70-74 | the distinct entity strings of the selected category, all keys of the frequency table |
| EntityStats.PromptLabel | 11B_Named_Entity_Recognition_for_NLP/Solutions/exercise_1_solution.py:62-67 | replies are read until one is a known category, which is returned; EOFError, after reading every reply, iff no reply is known |
| AspectSentiment.BandOf | aspect_level_sa.py:365-372 | four bands, each exactly its interval, with boundaries going to the higher band |
| AspectSentiment.BandMonotone | aspect_level_sa.py:424-435 | a higher score never gets a more negative band |
| AspectSentiment.ReadReviews | aspect_level_sa.py:352-356 | the first cell of every row, in order; IndexError iff some row is empty |
| AspectSentiment.IndexNounChunks | aspect_level_sa.py:379-400 | review i ↦ its noun chunks, for exactly the indexes of the reviews |
| AspectSentiment.PairChunksWithSentences | aspect_level_sa.py:410-439 | the reports of the nested loop, review by review |
| AspectSentiment.SentenceReportsMembers | aspect_level_sa.py:418-435 | a chunk is reported for a sentence iff it occurs in it, with the sentence's band |
| AspectSentiment.ReviewReportsMembers | aspect_level_sa.py:417-435 | the reports of a review are its (chunk, sentence) pairs where the chunk occurs in the sentence |
| AspectSentiment.AllReportsMembers | aspect_level_sa.py:412-439 | a report exists iff its chunk occurs in its sentence of the same review, with that sentence's band |
| ServiceTransitions.MaxCode | 8A_Introduction_to_Network_Analysis/data_transformation.py:52 | the largest code of any record, -1 iff there are none |
| ServiceTransitions.MaxIn | 8A_Introduction_to_Network_Analysis/data_transformation.py:52 | the largest code of one client, -1 iff none |
| ServiceTransitions.TeamCount | 8A_Introduction_to_Network_Analysis/data_transformation.py:52 | one more than every code; fails iff there are no codes |
| ServiceTransitions.TransitionMatrix | 8A_Introduction_to_Network_Analysis/data_transformation.py:53-66 | cell (a, b) counts the consecutive a → b moves over all clients; single-record clients are appended to `singles` |
| ServiceTransitions.Rows | 8A_Introduction_to_Network_Analysis/data_transformation.py:72-75 | the matrix read cell by cell |
| ServiceTransitions.EdgeList | 8A_Introduction_to_Network_Analysis/data_transformation.py:71-87 | the positive cells in target-major order, typed "Directed", numbered 0.., weighted by count |
| ServiceTransitions.ColumnEdgesMembers | 8A_Introduction_to_Network_Analysis/data_transformation.py:74-77 | column i lists exactly its positive cells |
| ServiceTransitions.ScanEdgesMembers | 8A_Introduction_to_Network_Analysis/data_transformation.py:73-77 | an edge is listed iff its cell is positive, with the cell as weight |
| ServiceTransitions.Sum2One | 8A_Introduction_to_Network_Analysis/data_transformation.py:64 | one `+= 1` adds one to the matrix total |
| ServiceTransitions.PairGridTotal | 8A_Introduction_to_Network_Analysis/data_transformation.py:62-64 | a client's first k pairs add k to the matrix |
| ServiceTransitions.MatrixTotal | 8A_Introduction_to_Network_Analysis/data_transformation.py:58-66 | the matrix total is the sum over clients of records − 1 (clients with one record add nothing) |
| DiseaseModel.Person.constructor | 9A_Agent_Based_Simulation/disease_model/disease_model.py:23-59 | infected iff the draw < initial_infection; only infected agents get a rounded duration (the same code recurs in 9A_Agent_Based_Simulation/disease_model_ex1.py and 9A_Agent_Based_Simulation/disease_model_with_datacollectors/disease_model.py) |
| DiseaseModel.Person.Infect | 9A_Agent_Based_Simulation/disease_model/disease_model.py:79-99 | with more than one agent in the cell, each uninfected cellmate becomes infected with a fresh duration iff its draw < transmissibility; infected cellmates untouched (the same code recurs in 9A_Agent_Based_Simulation/disease_model_ex1.py and 9A_Agent_Based_Simulation/disease_model_with_datacollectors/disease_model.py) |
| DiseaseModel.Person.Step | 9A_Agent_Based_Simulation/disease_model/disease_model.py:103-118 | moves iff the draw < level_of_movement; an infected agent infects, loses exactly 1 of duration and recovers iff ≤ 0; an uninfected agent is unchanged (the same code recurs in 9A_Agent_Based_Simulation/disease_model_with_datacollectors/disease_model.py) |
| DiseaseModel.InfectionReport | 9A_Agent_Based_Simulation/disease_model_with_datacollectors/disease_model.py:135 | one flag per scheduled agent |
| DiseaseModel.CountInfected | 9A_Agent_Based_Simulation/disease_model_with_datacollectors/disease_model.py:128-145 | the number of infected agents, between 0 and N, and 0 iff nobody is infected |
| DiseaseModel.Model.constructor | 9A_Agent_Based_Simulation/disease_model/disease_model.py:127-149 | N new, distinct agents with ids 0..N−1 on the schedule, each with the initial-infection rule (the same code recurs in 9A_Agent_Based_Simulation/disease_model_with_datacollectors/disease_model.py) |
| DiseaseModel.Model.Step | 9A_Agent_Based_Simulation/disease_model_with_datacollectors/disease_model.py:119-123 | `schedule.step()` then `collect`: the agents' infection states are exactly those of the activations applied in order (`StepAll`, each actor with its own transmissibility), then the number infected is appended to Total_Infected |
| DiseaseModel.Model.Activate | 9A_Agent_Based_Simulation/disease_model_with_datacollectors/disease_model.py:44-75 | one scheduled agent's `step` changes the agents' states exactly as `StepOne` says: the actor's duration falls by one and it recovers at ≤ 0, each other listed cellmate is infected on its own draw, everybody else is untouched |
| DiseaseModel.Model.Collect | 9A_Agent_Based_Simulation/disease_model_with_datacollectors/disease_model.py:123-135 | the agents are kept and Total_Infected gains the current number infected |
| DiseaseModel.InfectFirstVisited | 9A_Agent_Based_Simulation/disease_model_with_datacollectors/disease_model.py:49-59 | whichever cellmates `infect` visits first, a visited cellmate ends infected with its own rounded sample iff the cell holds more than one agent, it was uninfected and its draw was below the transmissibility; otherwise it keeps its state |
| DiseaseModel.InfectFirstUnvisited | 9A_Agent_Based_Simulation/disease_model_with_datacollectors/disease_model.py:49-59 | an agent that `infect` does not visit keeps its state |
| DiseaseModel.StepOneFrom | 9A_Agent_Based_Simulation/disease_model_with_datacollectors/disease_model.py:61-75 | any new state in which the actor has recovered by one unit, each listed cellmate took its `MateAfter` infection and nobody else moved is the `StepOne` state |
| DiseaseModel.Cellmates | 9A_Agent_Based_Simulation/disease_model/disease_model.py:82 | the agents with the given numbers, distinct when the numbers are |
| ImmunisationModel.Person.constructor | 9B_Agent_Based_Simulation_Part_2/Solutions/disease_model_with_batchrunner/disease_model.py:18-34 | infected iff the draw < initial_infection, rounded duration only then; never immunised at first, immunisation duration 0 |
| ImmunisationModel.Person.Infect | 9B_Agent_Based_Simulation_Part_2/Solutions/disease_model_with_batchrunner/disease_model.py:49-65 | with more than one agent in the cell, a cellmate neither infected nor immunised becomes infected iff its draw < transmissibility; the others are untouched |
| ImmunisationModel.Person.BecomeImmunised | 9B_Agent_Based_Simulation_Part_2/Solutions/disease_model_with_batchrunner/disease_model.py:68-75 | immunised, with a truncated duration; the infection is not cleared |
| ImmunisationModel.Person.Step | 9B_Agent_Based_Simulation_Part_2/Solutions/disease_model_with_batchrunner/disease_model.py:77-105 | the infection step as in the 9A model; an immunised agent loses 1 of immunity and clears at ≤ 0; otherwise immunised iff its draw < prob_being_immunised, with no decrement that step |
| ImmunisationModel.InfectionReport | 9B_Agent_Based_Simulation_Part_2/Solutions/disease_model_with_batchrunner/disease_model.py:157 | one infection flag per scheduled agent |
| ImmunisationModel.ImmunisationReport | 9B_Agent_Based_Simulation_Part_2/Solutions/disease_model_with_batchrunner/disease_model.py:176 | one immunisation flag per scheduled agent |
| ImmunisationModel.CountTrue | 9B_Agent_Based_Simulation_Part_2/Solutions/disease_model_with_batchrunner/disease_model.py:162-164 | the counting loop gives the number of true entries, at most the report's length |
| ImmunisationModel.CountInfected | 9B_Agent_Based_Simulation_Part_2/Solutions/disease_model_with_batchrunner/disease_model.py:151-167 | the number of infected agents, between 0 and N |
| ImmunisationModel.CountImmunised | 9B_Agent_Based_Simulation_Part_2/Solutions/disease_model_with_batchrunner/disease_model.py:170-186 | the number of immunised agents, between 0 and N |
| ImmunisationModel.Cellmates | 9B_Agent_Based_Simulation_Part_2/Solutions/disease_model_with_batchrunner/disease_model.py:51 | the agents with the given numbers, distinct when the numbers are |
| ImmunisationModel.Model.constructor | 9B_Agent_Based_Simulation_Part_2/Solutions/disease_model_with_batchrunner/disease_model.py:111-127 | N new, distinct agents with ids 0..N−1 on the schedule |
| ImmunisationModel.Model.Activate | 9B_Agent_Based_Simulation_Part_2/Solutions/disease_model_with_batchrunner/disease_model.py:49-105 | one scheduled agent's `step` changes the agents' states exactly as `StepOne` says: infection and recovery as in the 9A model, a cellmate immunised or infected is not infected, and the actor then loses one unit of immunity or is immunised on its own draw |
| ImmunisationModel.Model.ActivateNext | 9B_Agent_Based_Simulation_Part_2/Solutions/disease_model_with_batchrunner/disease_model.py:147 | the schedule's activation t moves the agents' states from those of the first t activations to those of the first t + 1 |
| ImmunisationModel.Model.Collect | 9B_Agent_Based_Simulation_Part_2/Solutions/disease_model_with_batchrunner/disease_model.py:139-186 | the agents are kept; Total_Infected and Total_Imm each gain the current count |
| ImmunisationModel.Model.Step | 9B_Agent_Based_Simulation_Part_2/Solutions/disease_model_with_batchrunner/disease_model.py:146-148 | `schedule.step()` then `collect`: the agents' states are exactly those of the activations applied in order (`StepAll`, each actor with its own transmissibility and immunisation probability), then both counts are collected |
| ImmunisationModel.InfectFirstVisited | 9B_Agent_Based_Simulation_Part_2/Solutions/disease_model_with_batchrunner/disease_model.py:49-65 | a visited cellmate ends infected with its own rounded sample iff the cell holds more than one agent, it was neither infected nor immunised and its draw was below the transmissibility |
| ImmunisationModel.InfectFirstUnvisited | 9B_Agent_Based_Simulation_Part_2/Solutions/disease_model_with_batchrunner/disease_model.py:49-65 | an agent that `infect` does not visit keeps its state |
| ImmunisationModel.StepOneFrom | 9B_Agent_Based_Simulation_Part_2/Solutions/disease_model_with_batchrunner/disease_model.py:77-105 | any new state in which the actor recovered by one unit and then had its immunity stepped, each listed cellmate took its `MateAfter` infection and nobody else moved is the `StepOne` state |
| Calculator.ProductAppend | 3C_Python_Prog_Part_3/Solutions/solution_debugging_challenge.py:34-40 | the product of a concatenation is the product of the products |
| Calculator.ProductWithZero | 3C_Python_Prog_Part_3/Solutions/solution_debugging_challenge.py:34-40 | any zero makes the product zero |
| Calculator.QuotientTimesDivisors | 3C_Python_Prog_Part_3/Solutions/solution_debugging_challenge.py:42-48 | multiplying the quotient by the product of the divisors gives back the first number |
| Calculator.DivideStep | 3C_Python_Prog_Part_3/Solutions/solution_debugging_challenge.py:45-46 | one more division extends the quotient of the prefix and keeps the divisors non-zero |
| Calculator.DecisionIsNotANumber | 3C_Python_Prog_Part_3/Solutions/solution_debugging_challenge.py:64-74 | a number typed at the continue prompt is asked again, not entered: "1", "2", "N" enters only 1 and reads three lines |
| Calculator.IntegerCalculator.constructor | 3C_Python_Prog_Part_3/Solutions/solution_debugging_challenge.py:10-11 | a new calculator is switched off |
| Calculator.IntegerCalculator.SwitchOn | 3C_Python_Prog_Part_3/Solutions/solution_debugging_challenge.py:13-15 | switched on |
| Calculator.IntegerCalculator.SwitchOff | 3C_Python_Prog_Part_3/Solutions/solution_debugging_challenge.py:17-19 | switched off |
| Calculator.IntegerCalculator.AddNumbers | 3C_Python_Prog_Part_3/Solutions/solution_debugging_challenge.py:21-24 | the sum of the numbers |
| Calculator.IntegerCalculator.SubtractNumbers | 3C_Python_Prog_Part_3/Solutions/solution_debugging_challenge.py:26-32 | the first number minus the sum of the rest; IndexError iff there are no numbers |
| Calculator.IntegerCalculator.MultiplyNumbers | 3C_Python_Prog_Part_3/Solutions/solution_debugging_challenge.py:34-40 | the product of the numbers; IndexError iff there are none |
| Calculator.IntegerCalculator.DivideNumbers | 3C_Python_Prog_Part_3/Solutions/solution_debugging_challenge.py:42-48 | the quotient of the first number by each later one; IndexError iff there are none, ZeroDivisionError iff a later number is zero |
| Calculator.IntegerCalculator.InputNumbers | 3C_Python_Prog_Part_3/Solutions/solution_debugging_challenge.py:50-76 | when off, no numbers and no input read; when on, exactly the list and line count of the prompt protocol `NumbersTyped` (a number until `int()` accepts one, then Y/N re-asked until "Y" or "N"), at least one number and ending at an "N" |
| Calculator.IntegerCalculator.InputOperator | 3C_Python_Prog_Part_3/Solutions/solution_debugging_challenge.py:78-98 | when off, "ERR"; when on, the first reply that is one of + - * / |
| Calculator.RunScript | 3C_Python_Prog_Part_3/Solutions/solution_debugging_challenge.py:100-120 | the numbers are those of the number prompt and the operator the first one typed after them; with more than one number the chosen fold (sum, difference, product, quotient), division raising ZeroDivisionError exactly when a later number is zero; otherwise the single-number message; the input ending while a prompt waits iff no list or no operator follows |
| GuessingGame.StopAt | 3A_Python_Prog_Part_1/Solutions/are_you_smarter_than_dan.py:26-37 | the guess prompt at which a round stops: the first with no line, a non-integer or the secret, else ten |
| GuessingGame.StopAtSkipsWrongGuesses | 3A_Python_Prog_Part_1/Solutions/are_you_smarter_than_dan.py:26-43 | every prompt before the stopping one reads a wrong integer guess |
| GuessingGame.RoundOutcome | 3A_Python_Prog_Part_1/Solutions/are_you_smarter_than_dan.py:19-47 | EOFError or ValueError at the stopping prompt, else the lines read (at least one) and a score that is a multiple of 100 in [0, 1000] |
| GuessingGame.HintFor | 3A_Python_Prog_Part_1/Solutions/are_you_smarter_than_dan.py:38-43 | "too low" iff the guess is below the secret |
| GuessingGame.PlayRound | 3A_Python_Prog_Part_1/Solutions/are_you_smarter_than_dan.py:19-47 | raises exactly as the round outcome says; otherwise its guesses are the parsed lines, one hint per wrong guess, correct iff it stopped before ten guesses, 100 points off per wrong guess, and 0 iff not correct |
| GuessingGame.HighScoreIsMax | 3A_Python_Prog_Part_1/Solutions/are_you_smarter_than_dan.py:49-51 | the high score is 0 or a round's score, and no score exceeds it |
| GuessingGame.HighScoreNeverDecreases | 3A_Python_Prog_Part_1/Solutions/are_you_smarter_than_dan.py:49-51 | another round never lowers the high score |
| GuessingGame.PassAt | 3A_Python_Prog_Part_1/Solutions/are_you_smarter_than_dan.py:19-56 | a round that raises; a round then a play-again reply that ends the game (EOFError with no line left, never ValueError); or the reply "Y" two or more lines on; scores in [0, 1000] |
| GuessingGame.GameScoresBounded | 3A_Python_Prog_Part_1/Solutions/are_you_smarter_than_dan.py:11-56 | every score of a game is a multiple of 100 in [0, 1000], and a game plays at most one round per two lines after the first |
| GuessingGame.PlayOn | 3A_Python_Prog_Part_1/Solutions/are_you_smarter_than_dan.py:19-56 | one pass of the loop is the specified pass |
| GuessingGame.Game | 3A_Python_Prog_Part_1/Solutions/are_you_smarter_than_dan.py:11-56 | the scores of the rounds played and the exception that ends the game are those of the specified game; the high score is the best of them, in [0, 1000] |
| GuessingGame.NonIntegerGuessRaises | 3A_Python_Prog_Part_1/Solutions/are_you_smarter_than_dan.py:28 | a non-integer first guess ends the game with ValueError and no score |
| GuessingGame.RightFirstGuess | 3A_Python_Prog_Part_1/Solutions/are_you_smarter_than_dan.py:28-56 | a right first guess scores 1000; reply "N" ends cleanly, no reply raises EOFError |
| PatientSummary.RowError | 3B_Python_Prog_Part_2/Solutions/exercise_3_reading_and_writing.py:21-25 | a row reads iff it has four cells and an integer age |
| PatientSummary.ReadRecords | 3B_Python_Prog_Part_2/Solutions/exercise_3_reading_and_writing.py:12-25 | one entry per row in each column list, or the error of the first row that fails |
| PatientSummary.CountCounties | 3B_Python_Prog_Part_2/Solutions/exercise_3_reading_and_writing.py:36-47 | the number of Cornwall, Devon and Somerset records, together at most the records |
| PatientSummary.CountGenders | 3B_Python_Prog_Part_2/Solutions/exercise_3_reading_and_writing.py:53-62 | the number of MALE and FEMALE records, together at most the records |
| PatientSummary.CountsOfThree | 3B_Python_Prog_Part_2/Solutions/exercise_3_reading_and_writing.py:41-47 | counts of three distinct values add up to at most the length |
| PatientSummary.PercentSplit | 3B_Python_Prog_Part_2/Solutions/exercise_3_reading_and_writing.py:64-67 | the percentages lie in [0, 100] and sum to 100; ZeroDivisionError iff no MALE or FEMALE record |
| PatientSummary.Summarise | 3B_Python_Prog_Part_2/Solutions/exercise_3_reading_and_writing.py:28-88 | the header and the results row, field by field; ZeroDivisionError iff no records, or no MALE or FEMALE record |
| ArrayLoops.AddTwoArrays | 3B_Python_Prog_Part_2/numpy_speedup.py:40-42 | out[i] = first[i] + second[i] below len(first) and nothing else changes; for equal lengths, the vectorised a + b |
| ArrayLoops.AddScalar | 3B_Python_Prog_Part_2/numpy_speedup.py:64-66 | out[i] = a[i] + x below len(a) and nothing else changes; for equal lengths, the broadcast a + x |
| ArrayLoops.Arange | 3B_Python_Prog_Part_2/numpy_speedup.py:44-45 | a new array 0, 1, …, n−1 |
| ArrayLoops.TwoArraysExample | 3B_Python_Prog_Part_2/numpy_speedup.py:44-48 | adding `arange(100)` to itself gives 2i |
| ArrayLoops.ScalarExample | 3B_Python_Prog_Part_2/numpy_speedup.py:68-70 | adding 100 to `arange(100)` gives i + 100 |
| Generator.KeepCount.constructor | 5A_Discrete_Event_Simulation/Lecture_Examples/generator_example.py:10-12 | a new generator's count is 0 |
| Generator.KeepCount.Next | 5A_Discrete_Event_Simulation/Lecture_Examples/generator_example.py:15-23 | each `next` raises the persisting count by exactly 1 and yields it |
| Generator.DrawFromFresh | 5A_Discrete_Event_Simulation/Lecture_Examples/generator_example.py:28-40 | the k-th value from a fresh generator is k |
| Generator.TwoInstances | 5A_Discrete_Event_Simulation/Lecture_Examples/generator_example.py:10-28 | a second instance starts again from 1 |
| Generator.ConventionalKeepCount | 5A_Discrete_Event_Simulation/Lecture_Examples/generator_example.py:45-50 | the conventional function always returns 1 |
| Generator.Script | 5A_Discrete_Event_Simulation/Lecture_Examples/generator_example.py:28-61 | the script prints 1..5 from the generator and 1 five times from the function |
| Seqs.FindFrom | Relation_Extraction_Tutorial/3_relational_triples.py:99 | the first occurrence at or after a position, -1 when none |
| Seqs.Find | 11B_Named_Entity_Recognition_for_NLP/trump_extract_add_to_training.py:64 | `str.find`: the index of the first occurrence, -1 exactly when absent |
| Seqs.Count | 11B_Named_Entity_Recognition_for_NLP/Solutions/exercise_1_solution.py:34 | `list.count`: at most the length |
| Seqs.ArgMax | 13_reinforcement_learning/multi_arm_bandits/relearn/bandit_world/agents.py:146 | `np.argmax`: the lowest index of the largest value |
| Seqs.Trunc | 9B_Agent_Based_Simulation_Part_2/Solutions/disease_model_with_batchrunner/disease_model.py:74-75 | `int()` on a float truncates toward zero |
| Seqs.RoundHalfEven | 9B_Agent_Based_Simulation_Part_2/Solutions/disease_model_with_batchrunner/disease_model.py:28-29 | `int(round(x, 0))`: the nearest integer, ties to the even one |
| Seqs.TruncAndRound | 9B_Agent_Based_Simulation_Part_2/Solutions/disease_model_with_batchrunner/disease_model.py:28-29 | for a non-negative value, the rounded duration is the truncated one or one more |

## Left out

- Randomness: numpy and `random` draws (uniform, expovariate, Beta, choice, randint, shuffle) are parameters. Their distributions are not modelled.
- Time, floats and printing: the annealing schedule 1/log(t + 1e-6) is a parameter `cooling`. float64 arithmetic is exact `real` arithmetic. All printing and file I/O are left out.
- PatientSummary.Summarise: the average age is the exact mean; the script's `round(average_age, 2)` (exercise_3_reading_and_writing.py:33) to two decimals is not modelled, because float rounding is outside exact `real` arithmetic.
- PatientSummary.PercentSplit: the percentages are exact; the script's `round(..., 2)` of both (exercise_3_reading_and_writing.py:65-67) is not modelled, for the same reason, so they sum to exactly 100 where the rounded ones may not.
- ArrayLoops.AddTwoArrays: requires `second` and `out` at least as long as `first`; Python raises IndexError part way through the loop otherwise, which is not modelled. Every call in numpy_speedup.py passes three arrays of length 100.
- ArrayLoops.AddScalar: requires `out` at least as long as `a`; Python raises IndexError part way through the loop otherwise, which is not modelled. Its one call in numpy_speedup.py passes two arrays of length 100.
- BanditWorld.Agent.Solve: the upper-confidence-bound learner's `solve` and its sqrt/log bounds, with their division by zero, are not modelled. Only its counts, means and reset are. `Solve`, `Round` and `Choice` require another kind of learner.
- `GaussianBandit` and the Gaussian problem builders: normally distributed rewards.
- `GridExperiment`: it depends on sklearn's `ParameterGrid` and on pandas.
- BanditSimulation.AgentSimulation.Simulate: `best_indexes` is an int32 array. The model stores unbounded integers, so there is no wrap-around. Arm indexes are small, so nothing is lost.
- BanditSimulation.Experiment.Execute: `objective` is stored but never read, as in the source.
- BanditWorld.Casino.Registered: observers are assumed distinct. The scripts only register newly built learners.
- BanditWorld.Agent.Solve: `solve` (with `Round`, `PlayArm` and `Explore`) requires a casino whose observers are all complete learners. A solve in a casino that also holds a half-built learner, which raises AttributeError in the middle of a round, is not modelled; `Casino.Action` and `Casino.RandomAction` do model that error.
- BanditWorld.Casino.Action: the arm index is a `nat`. Python would accept a negative index and play a bandit counted from the end. No caller passes one: `_best_arm`, the Thompson argmax and `np.random.choice` all give indexes in range.
- The bandit's own `_observers` list is never used, so it is not modelled.
- Aliasing of numpy vectors: they are values (`seq`), not shared arrays.
- spaCy: parsing, sentence splitting, `displacy`, `Matcher`, NER training (`nlp.update`, `minibatch`, `to_disk`) and `Counter.most_common`. Parses are given as token sequences.
- `sentences[15]` in the entity statistics script: it is printing only.
- The outer interactive loop in the entity statistics script has no exit; it ends only when a prompt raises EOFError. One pass of it is modelled: the category prompt (`PromptLabel`, with that EOFError) and the filtered set.
- The TensorFlow classifier in the sentiment script: its scores are a parameter `score`, and sentence splitting is an input.
- The prediction over whole reviews at `aspect_level_sa.py:358-359` is left out.
- mesa: grid movement, neighbourhoods, `find_empty`, the random activation order, `DataCollector` internals and `BatchRunner`. Cellmates and activation order are inputs. There is no movement, only the decision to move.
- pandas cleaning in the network script: the date clean-up, length of stay and node list. Category codes per client are an input.
- Calculator.IntegerCalculator.DivideNumbers: Python's float division is exact real division here, so rounding of the float quotient is not modelled; a single number is returned as the int itself in Python and as the equal real here.
- Calculator.IntegerCalculator.InputNumbers: at the end of the input Python's bare `except` catches EOFError and asks again for ever, and `input_operator` raises EOFError; the model stops both prompts with None instead (the `InputEnded` outcome).
- Calculator.IntegerCalculator.InputOperator: at the end of the input Python's `input` raises EOFError; the model returns None instead, which `RunScript` reports as `InputEnded`.
- Calculator.RunScript: a script whose input ends while a prompt waits ends in Python with an uncaught EOFError (from the operator prompt) or never (the number prompt asks again for ever); the model gives the `InputEnded` outcome for both.
- simpy: the discrete-event scripts are wrappers around simpy's clock and queues, which are not part of this model.
