# Adaptive investigations, verified

A model, in Dafny, of three parts of the repository, with the guarantees they are relied on for.

**The investigation loop** (`agentic/agent`, `agentic/domain`). A run interprets a goal, proposes claims, and then
iterates: decide whether to stop, draw up candidate experiments, let the policy lead the selection of a batch, run the
batch, and fold its results in selection order. Folding files the result and its evidence, rescores the claims it was
raised to test, weakens rival claims that both stand, and reconciles recorded contradictions; the critic speaks last.
The run ends with a typed reason and a conclusion, or pauses at a cap and can be resumed.

**Cross-sectional and association arithmetic** (`src/peer_signals.py`, `src/anomaly.py`, `src/trend_breaks.py`,
`agentic/experiments/stats.py`): which alert branches can be reached, and by how much, over groups of any size.

**Fact extraction** (`src/metric_extraction.py`, `src/exclusions.py`): one pass over a company's facts that keeps one
row per metric and fiscal quarter and counts everything else.

## How it is built

Two layers describe the loop. The functions of `Mutators`, `Scoring`, `Filing`, `Rivals`, `Criticism`, `Planning`,
`Budgets`, `Concluding` and `Running` say what each step does to a *value* of the state; an exception is an `Outcome`,
so that "never raises" is something a lemma can say. The classes and methods of `Entities`, `Tracking`, `Updating`,
`Choosing`, `Judging` and `Looping` are the program in its own form: hypothesis objects with fields that change, a
state that owns them, a tracker, loops that build lists. Each of those methods is proved to leave exactly the value
its function specifies, or to raise exactly its exception; `Looping.StartInvestigation` and
`Looping.ResumeInvestigation` are the whole program. The theorems about whole runs are then proved of the functions:
`Explanation`, `RivalSafety`, `Trace`, `Folding`, `PlanningProofs`, `Checkpoints`, `Runs`, `Coverage`, `Directions`,
`NoRepeatedWork`, `Bounds`, `Resumption`, `Conclusions`, `Diffing`, `FreshIds`, `Artifacts`, `Batching`. `Witnesses`
follows concrete inputs through whole runs of the model wherever the code falls short of what is asked of it.

A function that computes is pinned down by a description that does not use it: `Parameters` says key by key what every
candidate is told, `Stopping` when a run stops and why, `Challenges` whom the critic asks about and what it makes of
the answer, `Weighing` what the log makes of a claim, `Findings`, `Conflicts` and `Verdicts` what filing, rivalry and
synthesis leave in the state, `Turns` what one turn of the loop comes to, `Proposing`, `Lifecycles` and `Limits` how a
run begins and what it may do, `Replays` what a replay's verdict compares; and in the arithmetic `ChiSquared`,
`Peers`, `SelfScores`, `Trends`, `Filtering` and `Winners` what the numbers, flags and rows mean in terms of the
values and facts they are read from.

What the loop consults but does not compute is a parameter of every theorem (`Environment.Env`): the policy is an
oracle that may answer anything or fail at any call, a tool is any function from a request to a record, the clock is
any function, and the registry, the validators, the expected sign of a claim and whether a goal poses alternatives are
arbitrary. Because a run never shows the policy the same state twice, answers that depend on the state cover every
behaviour a stateful policy has along one run.

A fresh run, or one resumed with claims, can raise nothing but the rejection of an entity that cannot be built, and
not even that when tools and policy are well-posed (`Checkpoints.WellPosed`), which asks only about what a run can ask
for: a record has no error detail and a summary that fits, for requests that are registered, validate and carry the
planner's parameters; what the policy says about the claim the critic asks about, in a consistent state and with tools
of the intent on offer, fits wherever an entity is built from it; and no question proposed for the goal is empty. The
default critic always meets its part (`Witnesses.DefaultCriticIsWellPosed`), and a tool may answer a request it
rejects with an error detail (`Witnesses.CaseIsWellPosed`).

The central invariant is `Folding.Consistent`: every claim's status and confidence are explained by the evidence log,
every log carries the ids of its positions, what was executed is exactly what was filed, evidence and results name
each other, claims list exactly the evidence that bears on them, and no two rivals stand together. It holds after
every folded experiment and at the head of every iteration, and it is what makes the step from `supported` to
`rejected`, which the transition graph forbids, unreachable.

Scores and confidences are reals and rounding to four decimals is the identity. A z-score is a deviation with a
variance, so that thresholds compare squares and no square root is taken.

## What the proofs found

- `ExperimentExecutionRecord.to_domain_result` hands the error's detail *text* to a field that expects an error entity
  (`agentic/experiments/record.py:72`), so a record whose error carries a detail cannot be filed: filing succeeds if
  and only if the record has no error detail and its summary fits (`Folding.RecordResultRaises`). In
  `Witnesses.FailureWithDetailRaises` a tool breaks down and the whole run raises with it. The other exceptions a run
  can raise are likewise rejected entities: a summary that is too long, an empty question, an over-long suggestion, an
  empty message of a challenge; and, before the model begins, an empty goal text.
- A run that pauses before it has claims cannot be resumed once the policy proposes: the lifecycle cannot step back to
  `planning`. `Runs.ClaimlessResumeRaises` gives the exact condition; a fresh run pauses so, at whatever cap, exactly
  when its policy proposed no claims (`Runs.PausedWithoutClaims`). A call for no experiments does so exactly where no
  limit binds (`Runs.ClaimlessPauseIsFinal`), as in `Witnesses.ClaimlessPauseOccurs`.
- Experiments are remembered under the metric they were planned for if and only if a claim is open, or there is none,
  or the first claim resolves to the default metric (`PlanningProofs.GroupsAreFaithful`). Where that holds no run
  repeats work (`NoRepeatedWork.FreshRunRepeatsNothing`, `NoRepeatedWork.ResumedRunRepeatsNothing`). Where it does
  not, every claim being rejected, an experiment that has just run for the fallback is proposed again with the same
  parameters until its tool is spent (`NoRepeatedWork.FallbackIsProposedAgain`), and `Witnesses.RejectedRunRepeats` is
  a run that has done the same work twice.
- A resumed run forgets the failures in a row it was stopped in. Where the saved state ends in no failure, or in so
  few that they cannot reach their limit even if every experiment left fails, it reaches the uninterrupted run's end
  (`Resumption.ResumedRunRefinesUninterrupted`). Elsewhere it may not: in the runs of
  `Witnesses.PendingFailureIsForgotten`, one for each budget of two experiments or more, the uninterrupted run ends
  for repeated failure and the resumed one does not.
- A run can conclude `supported` while a claim was never tested: exactly when some claim is supported and the others
  are untested (`Conclusions.SupportedMayHideUntested`), as in `Witnesses.SupportedOverUntested`; never when it ends
  for sufficient evidence (`Conclusions.SufficientRunSupportsAll`).
- The "rare disagreement" branch of the peer alert is unreachable (`PeerSignals.RankAndZAgree`), no z-score alerts in
  a group of five or fewer, and `extreme_low` needs at least six peers (`PeerSignals.SmallGroupsAreModest`,
  `PeerSignals.LowIsReachableFromSix`).
- The floors under a weakened claim's confidence, 0.25 and 0.2, never bind (`Weighing.VerdictMeans`), and the planner's
  search for an open claim that fits its metric decides nothing: what it finds is used only where no claim is open
  (`Parameters.CandidatesDerive`).
- An either/or run that converges always concludes `mixed`, never `supported`
  (`Conclusions.FreshEitherOrConcludesMixed`).

## Model

| member | source | states |
|---|---|---|
| Looping.StartInvestigation | agentic/agent/loop.py:131-167 | for every policy, tool and clock: ends as the specified run does; the only exception is the rejection of an entity that cannot be built, and not for well-posed inputs; a pause is resumable; the limits are kept |
| Looping.ResumeInvestigation | agentic/agent/loop.py:169-183 | rebuilds the counters from the filed results and runs on as specified; from a pause with claims the guarantees of a fresh run continue |
| Looping.RunInvestigation | agentic/agent/loop.py:187-229 | the unanswerable, proposing, created and resumed paths each end in their specified outcome |
| Looping.Loop | agentic/agent/loop.py:231-318 | the while loop terminates for every policy, by the experiments left, where the specified run does |
| Looping.Iterate | agentic/agent/loop.py:231-252 | one pass: stop, pause at the cap, or go on, touching nothing but the state when it goes on |
| Turns.TurnMeans | agentic/agent/loop.py:231-267 | what a turn comes to in each of its cases, for which reason and after how many policy calls |
| Looping.PlanIteration | agentic/agent/loop.py:252-267 | candidates, the policy's choice and its failure, the empty batch and the full one |
| Looping.RunSelected | agentic/agent/loop.py:266-311 | the batch is run, folded in selection order and the pass closed |
| Turns.BatchMeans | agentic/agent/loop.py:266-312 | every request of the batch is executed with its own outcome, one iteration is counted, and the critic is asked exactly after a success and about somebody |
| Looping.FoldBatch | agentic/agent/loop.py:269-300 | the tracker and the state advance together, experiment by experiment, up to the first exception |
| Looping.CloseIteration | agentic/agent/loop.py:302-312 | the critic runs only after a success; its policy failure ends the run from the folded state |
| Looping.GenerateClaims | agentic/agent/components.py:171-214 | claims, decisions and questions carry positional ids; unknown metrics are dropped; exactly two alternatives become rivals; an empty question raises |
| Proposing.ProposalsMean | agentic/agent/components.py:171-214 | one claim for each proposal with its statement and its known metric, one question for each asked, about all claims |
| Proposing.RivalsMean | agentic/agent/components.py:171-214 | claims are rivals if and only if the goal poses alternatives and there are two |
| Turns.FreshRunOpens | agentic/agent/loop.py:187-225 | how a fresh run begins or ends before it begins, with the policy calls it has made |
| Turns.ClaimedRunOpens | agentic/agent/loop.py:196-229 | a run with claims asks for the goal's meaning and loops, going through planning to running if it was only created |
| Looping.FinalizeRun | agentic/agent/loop.py:438-452 | conclusion, termination and terminal status, or the illegal lifecycle move |
| Looping.FailSafely | agentic/agent/loop.py:488-510 | a run is concluded at most once and walks the lifecycle to `failed` |
| Looping.DeclineGoal | agentic/agent/loop.py:454-486 | the decline is recorded as a decision and a question before the lifecycle moves |
| Looping.StampRunScopedIds | agentic/agent/loop.py:80-92 | goal, dataset and manifest ids become functions of the investigation id and the position |
| Looping.ToolsRun | agentic/agent/loop.py:239-239 | the tools of every filed result, whatever came of it |
| Updating.FoldOne | agentic/agent/loop.py:274-295 | filed; unless it failed, its evidence filed, its claims rescored, rivals enforced, contradictions reconciled, in that order |
| Updating.RecordExperiment | agentic/agent/components.py:539-573 | the result takes the next deterministic id, its request leaves the pending list with the record's status; an unfileable record raises |
| Findings.RecordMeans | agentic/agent/components.py:539-573 | the result field by field, the requests it answers, and the lists it joins |
| Updating.UpdateEvidenceFor | agentic/agent/components.py:586-655 | every item is filed against every known target with its own direction, and the result lists exactly the ids filed |
| Findings.EvidenceMeans | agentic/agent/components.py:586-655 | one item of evidence for every pair, with its own strength and direction, listed by the result just filed; a decision exactly when there were items and claims |
| Updating.Revise | agentic/agent/components.py:700-728 | the status and confidence moves of one claim, and the illegal move where the graph refuses it |
| Updating.Score | agentic/agent/components.py:693-740 | an unknown or rejected claim is left alone; any other is moved, logged, and followed up when support is weak |
| Findings.ScoreIsLogged | agentic/agent/components.py:728-740 | one decision about the claim, and a question exactly when it stays undetermined with some support |
| Updating.UpdateHypotheses | agentic/agent/components.py:685-691 | every target is scored in order against the state the previous one left |
| Updating.EnforceMutualExclusivity | agentic/agent/components.py:1279-1308 | each standing rival pair is recorded once per call, in claim order |
| Conflicts.EnforceTouchesRivals | agentic/agent/components.py:1279-1349 | only claims that stood beside a standing rival are lowered, and every contradiction recorded names two such claims |
| Updating.RecordConflictOver | agentic/agent/components.py:1311-1349 | a contradiction, both sides weakened and capped, two decisions and one question |
| Updating.ReconcileContradictions | agentic/agent/components.py:1263-1267 | an open contradiction becomes resolved when exactly one side stands; a resolved one stays resolved |
| Conflicts.ReconcileMeans | agentic/agent/components.py:1263-1267 | settled contradictions are marked resolved, none is unmarked, and nothing else changes |
| Updating.IsSettled | agentic/agent/components.py:1241-1260 | settled means both sides are identifiable and exactly one is supported |
| Choosing.CandidatesOf | agentic/agent/components.py:301-392 | the planner's list over the live objects is the specified one, ids, targets, parameters and order included |
| Parameters.CandidatesDerive | agentic/agent/components.py:243-392 | each candidate comes from a critique or from a group and a tool, in that order, with ids counted on; it names whom it should and its parameters carry each key exactly when, and with the value that, the goal's hints and the manifest call for |
| Parameters.ParametersTell | agentic/agent/components.py:243-277 | all ten keys, on the parameters themselves: `ascending` exactly for a ranking from the bottom, the columns exactly from the metric, the hints and the manifest, and no other key |
| Parameters.GeneralToolsMean | agentic/agent/components.py:59-80 | for which goals each tool that several share is a candidate, and how many tools a goal has |
| Parameters.SpecialToolsMean | agentic/agent/components.py:59-80 | the tools of a single kind of goal (trend, correlation, association), and for which goals a shared tool comes first |
| Parameters.IntentToolsMean | agentic/agent/components.py:81-85 | on an EDGAR dataset the tools of filings come first, where the goal has any, and the general ones follow unchanged |
| Choosing.FromCritiques | agentic/agent/components.py:317-338 | one falsification candidate per open critique whose tool is unspent, uncovered, registered and applicable |
| Choosing.FromGroup | agentic/agent/components.py:363-384 | one candidate per admissible tool of a group, in priority order |
| Choosing.GroupOpenClaims | agentic/agent/components.py:357-361 | open claims grouped by the metric they resolve to, in order of first appearance |
| Choosing.ExecutedPairs | agentic/agent/components.py:279-293 | exactly the tool and metric pairs of the executed requests, resolved through their first target |
| Choosing.TargetHypothesis | agentic/agent/components.py:295-299 | the first open claim that fits the metric, otherwise the first claim |
| Parameters.FallbackMeans | agentic/agent/components.py:295-299 | the first claim not given up that names no metric or the goal's, otherwise the first claim, told from status and metrics |
| Choosing.SelectBatchOf | agentic/agent/components.py:404-459 | one policy call for a batch; a bad index selects nothing; a policy failure leaves the state untouched |
| Coverage.BatchMeans | agentic/agent/components.py:426-459 | the policy's index leads, an index out of range selects nothing, and the others follow in the candidates' order, each the first of its tool |
| Coverage.AcceptMeans | agentic/agent/components.py:461-471 | the batch is pending, in order, with one decision for each request, naming it |
| Choosing.Fill | agentic/agent/components.py:442-459 | the lead and then followers of new tools up to the limit, each accepted as it is taken |
| Judging.ChallengeClaims | agentic/agent/components.py:753-801 | at most one policy call; the state changes only as the reply allows, and not at all on a policy failure |
| Judging.ClaimWorthChallenging | agentic/agent/components.py:880-951 | the most confident claim of the most urgent non-empty tier, first among equals |
| Challenges.AskedMeans | agentic/agent/components.py:880-951 | nobody is asked about if and only if no claim qualifies; otherwise none qualifies more urgently and the most confident of its tier comes first, the tiers told from status and evidence |
| Challenges.OfferedMeans | agentic/agent/components.py:761-764 | the tools on offer are those of the intent that have not been executed, in order |
| Challenges.ConflictIsLive | agentic/agent/components.py:818-838 | a contradiction is acted on if and only if the claim the answer is about and a different one it names are both supported |
| Challenges.RejectedMeans | agentic/agent/components.py:786-862 | an answer stops the run if and only if the tool it names exceeds 512 characters or its challenge has no message |
| Challenges.ChallengeMeans | agentic/agent/components.py:786-801 | an answer adds a critique, and a decision, if and only if it challenges a named claim by a named tool |
| Challenges.ContradictionMeans | agentic/agent/components.py:838-878 | both sides weakened and held to a half, one open critique, one question and two decisions that name them |
| Judging.RecordContradiction | agentic/agent/components.py:803-878 | acts exactly on a live conflict between two different supported claims |
| Judging.DecideStop | agentic/agent/components.py:965-1013 | the stop decision, with its precedence of reasons, over the live state |
| Stopping.LimitsMean | agentic/agent/components.py:965-976 | user stop, safety, repeated failure and budget, each if and only if its own limit is reached and none before it |
| Stopping.ContradictionDecides | agentic/agent/components.py:990-999 | with everything tested the first open contradiction decides: the run goes on exactly while the tool it asks for has not been executed |
| Stopping.EvidenceDecides | agentic/agent/components.py:1000-1013 | with none open the run ends, for sufficient evidence, exactly when a firm claim stands and nothing is left to challenge one with |
| Stopping.UntestedGoesOn | agentic/agent/components.py:985-987 | an untested claim keeps the run going |
| Stopping.SettledMeans | agentic/agent/components.py:1241-1260 | a contradiction is settled if and only if one of its sides stands and the other does not |
| Judging.ReasonForNoCandidates | agentic/agent/components.py:1019-1038 | open contradiction, untested claim, standing claim, in that order |
| Stopping.NothingLeftMeans | agentic/agent/components.py:1019-1038 | which of the three reasons, each with its condition |
| Judging.FirstOpenContradiction | agentic/agent/components.py:1270-1276 | the first contradiction the claims themselves do not settle, whatever its flag says |
| Judging.SynthesizeConclusion | agentic/agent/components.py:1047-1140 | active claims are left unresolved before the disposition is chosen; the run's confidence becomes the conclusion's |
| Verdicts.SynthesisMeans | agentic/agent/components.py:1047-1140 | active claims are left unresolved, the conclusion is drawn of what that leaves, and nothing else but one decision changes |
| Judging.Conclude | agentic/agent/components.py:1069-1122 | the disposition, confidence, quoted claims and key evidence of each of the six cases |
| Verdicts.HeldMeans | agentic/agent/components.py:1070-1097 | a finding that something holds names what holds and what fell, is as confident as they are on average, and cites all or only the supporting evidence |
| Verdicts.FallenMeans | agentic/agent/components.py:1098-1122 | what the other four findings name, cite and are worth |
| Judging.MaxOfTier | agentic/agent/components.py:943-950 | listing a tier and taking its maximum by confidence finds the tier's first most confident claim |
| Entities.Hypothesis.SetStatus | agentic/domain/hypothesis.py:68-76 | a move outside the transition graph raises and changes nothing |
| Lifecycles.ClaimMovesMean | agentic/domain/enums.py:347-380 | what the graph of claim moves forbids, and that it forbids nothing else |
| Entities.Hypothesis.SetConfidence | agentic/domain/hypothesis.py:78-82 | a value outside [0, 1] raises and changes nothing |
| Entities.InvestigationState.RecordExperimentResult | agentic/domain/investigation.py:136-150 | the answered requests move to the executed list, the result to one of two lists, its observations to the log |
| Entities.InvestigationState.AddEvidence | agentic/domain/investigation.py:152-163 | the item is logged and linked once to every claim it names, on the side it points to |
| Entities.InvestigationState.FindHypothesis | agentic/domain/investigation.py:208-209 | the first claim with the id, if any |
| Entities.InvestigationState.OpenHypotheses | agentic/domain/investigation.py:214-215 | exactly the claims whose status is not terminal, in order |
| Entities.InvestigationState.RecordDecision | agentic/domain/investigation.py:169-184 | a decision is stamped with the iteration it is made in |
| Entities.LiveInvestigation.SetStatus | agentic/domain/investigation.py:240-248 | a lifecycle move outside the graph raises and changes nothing |
| Lifecycles.LifecycleMovesMean | agentic/domain/enums.py:383-408 | the same of the lifecycle |
| Tracking.BudgetTracker.RecordExperiment | agentic/agent/budget.py:83-87 | counts the experiment and its tool, and the consecutive failures |
| Tracking.BudgetTracker.Charge | agentic/agent/components.py:91-101 | one policy call counted, its cost attributed when positive |
| Tracking.BudgetTracker.Rebuilt | agentic/agent/loop.py:176-180 | the counters after resume: experiments and tool uses from the results, everything else zero |
| Budgets.BatchLimit | agentic/agent/loop.py:323-337 | at least one, within the configured width, and never past the experiment budget or the call's cap |
| Limits.BatchLimitMeans | agentic/agent/loop.py:323-337 | the widest batch that configuration, budget and cap allow |
| Criticism.ClaimToChallenge | agentic/agent/components.py:880-951 | somebody is challenged if and only if some claim falls in a tier |
| Criticism.LiveConflict | agentic/agent/components.py:818-838 | a conflict is live only between two different claims that both stand |
| Explanation.RescoreGivesVerdict | agentic/agent/components.py:700-728 | rescoring a claim with an explained past never raises and gives the verdict of the log alone, without memory |
| Weighing.VerdictMeans | agentic/agent/components.py:700-728 | status and confidence from the strongest item on each side: a half or more with none against it decides, and the floors under a weakened claim's confidence never bind |
| Weighing.StatusTells | agentic/agent/components.py:700-728 | what an explained claim's status tells of the items that bear on it |
| Explanation.ScoreFirstExplains | agentic/agent/components.py:685-728 | the updater never raises and leaves every claim explained |
| Explanation.ExplainedBounds | agentic/domain/enums.py:347-380 | what each status means: refutations, support thresholds, confidence ranges, tested or not |
| Folding.FoldExperimentKeeps | agentic/agent/loop.py:274-295 | folding succeeds if and only if the record can be filed; it keeps the whole invariant and changes nothing it should not |
| Folding.RecordResultRaises | agentic/experiments/record.py:61-77 | a record can be filed if and only if it carries no error detail and its summary is at most 1024 characters long |
| Witnesses.FailureWithDetailRaises | agentic/experiments/record.py:61-77 | a run whose tool breaks down raises, with whatever budget and any cap of at least one |
| RivalSafety.EnforceSafe | agentic/agent/components.py:1279-1349 | no illegal move, every claim still explained, and afterwards no two rivals stand |
| RivalSafety.WeakenSideExplains | agentic/agent/components.py:1330-1332 | a conflict weakens a claim legally, to exactly the cap, and explains it |
| Trace.EvidenceHasItsResult | agentic/agent/components.py:586-655 | every evidence item names the one completed result that lists it, no failed result, and shares its id with no other item |
| Trace.ResultIdsNeverRepeat | agentic/agent/components.py:549-551 | no two filed results share an id |
| Trace.AddEvidenceLinks | agentic/domain/investigation.py:152-163 | after filing, each claim's supporting and contradicting lists are the filtered log |
| Directions.OppositeExpectations | agentic/agent/components.py:613-630 | one measurement supports one of two opposite expectations and refutes the other, and is neutral only when it points nowhere; it never refutes a claim without an expectation |
| Directions.DirectionMeans | agentic/agent/components.py:613-632 | an item supports a claim that expects its sign and refutes one that expects the opposite |
| Directions.EvidenceSignMeans | agentic/agent/components.py:658-663 | an item's sign is that of the first of its slope, shift and mean difference |
| Directions.SignalSignMeans | agentic/agent/components.py:666-674 | a record's sign is that of its first metric that tells, otherwise of its first statistic that does |
| Directions.EveryItemAgainstEveryTarget | agentic/agent/components.py:605-612 | every item meets every known target exactly once, and without a target is filed once, unattached |
| Ids.MakeInjective | agentic/agent/ids.py:17-18 | within a run an id names one kind and one index |
| Checkpoints.FoldFirstKeeps | agentic/agent/loop.py:269-300 | a batch folds if and only if every record can be filed; requests, results, counters and tracker then agree |
| Checkpoints.ChallengeKeeps | agentic/agent/components.py:753-801 | the critic raises a rejected entity if and only if the answer it gets does not fit; otherwise the state stays consistent, and evidence and experiments as they were |
| Witnesses.DefaultCriticIsWellPosed | agentic/agent/fixture_policy.py:136-163 | under the default critic nothing is asked but that tools report what can be filed and no question is empty |
| Checkpoints.PassOnceKeeps | agentic/agent/loop.py:231-312 | a pass goes from head to head with at least one experiment more, or stops for a reason its state bears out |
| Checkpoints.RunLoopKeeps | agentic/agent/loop.py:231-318 | every run from a head keeps every checkpoint and never makes an illegal claim or lifecycle move |
| Checkpoints.DecideIsHonest | agentic/agent/components.py:965-1038 | on both exit paths sufficient evidence means nothing untested, no open contradiction and a standing claim |
| Checkpoints.SufficientMeans | agentic/agent/components.py:965-1013 | `sufficient_evidence` if and only if no limit stops the run, its state settles, and every standing claim was challenged or no tool is left |
| Runs.FreshRunWell | agentic/agent/loop.py:131-318 | for every policy, tool and clock, a fresh run ends consistent or pauses at a head |
| Runs.FreshRunEnds | agentic/agent/loop.py:438-452 | an uncapped run ends with termination, conclusion and terminal status, `converged` exactly for sufficient evidence |
| Runs.RebuiltAccounts | agentic/agent/loop.py:176-180 | the counters rebuilt from the results are the ones the live tracker held |
| Runs.ResumedRunWell | agentic/agent/loop.py:169-183 | a paused run with claims resumes as safely as a fresh one |
| Runs.PausedWithoutClaims | agentic/agent/loop.py:211-250 | a fresh run that pauses, at whatever cap, has no claims if and only if its policy proposed none; then resuming it under any policy that proposes raises |
| Runs.ClaimlessPauseIsFinal | agentic/agent/loop.py:211-250 | a fresh call for no experiments under a policy that proposes nothing pauses without claims if and only if no limit binds, and then can never be resumed |
| Witnesses.ClaimlessPauseOccurs | agentic/agent/loop.py:215-222 | such a run, for every budget |
| Runs.ClaimlessResumeRaises | agentic/agent/loop.py:215-222 | resuming without claims raises the illegal lifecycle step if and only if the policy finds the goal answerable and proposes acceptable questions |
| Resumption.ResumedRunRefinesUninterrupted | agentic/agent/loop.py:169-183 | stopped after any number of experiments, wherever the failures pending cannot reach their limit, and resumed any number of times, a run reaches the investigation the uninterrupted run reaches |
| Resumption.PausesCountFailures | agentic/agent/budget.py:83-87 | wherever a call pauses, the live failure counter counts no more than the failures the saved state ends in |
| Witnesses.PendingFailureIsForgotten | agentic/agent/loop.py:176-180 | for every budget of two experiments or more, a run stopped after a failure and resumed ends for another reason than the uninterrupted one, all other premises of the refinement holding |
| Resumption.CappedIsOnTheWay | agentic/agent/loop.py:247-250 | a capped call ends where the uncapped one does or pauses on its way there |
| Bounds.FreshRunWithin | agentic/agent/budget.py:94-109 | experiments, iterations, uses of each tool, the call's cap, and model calls up to two more than their limit |
| Bounds.ResumedRunWithin | agentic/agent/budget.py:94-109 | resumed calls stay within the same limits, earlier calls included |
| NoRepeatedWork.FreshRunRepeatsNothing | agentic/agent/components.py:301-384 | while a claim is open, or there is none, or the first one resolves to the default metric, no two executed requests resolve to the same tool and metric |
| NoRepeatedWork.ResumedRunRepeatsNothing | agentic/agent/loop.py:169-183 | nor do they after a run resumed under the same reading of the goal |
| NoRepeatedWork.FallbackIsProposedAgain | agentic/agent/components.py:290-384 | otherwise an experiment that ran for the fallback is proposed again with the same parameters, until its tool is spent |
| Witnesses.RejectedRunRepeats | agentic/agent/components.py:290-384 | a run whose two experiments are the same tool for the same metric |
| PlanningProofs.GroupsAreFaithful | agentic/agent/components.py:279-299 | every group's experiments are remembered under the metric they are planned for if and only if a claim is open, there is none, or the first resolves to the default metric |
| PlanningProofs.GroupsPartitionOpenClaims | agentic/agent/components.py:357-364 | the groups are exactly the classes of the open claims under "resolves to the same metric" |
| PlanningProofs.CandidatesAreSound | agentic/agent/components.py:301-384 | candidate ids count up, tools are registered and unspent, and wherever plans are kept no key is done or repeated |
| PlanningProofs.BatchIsDrawn | agentic/agent/components.py:426-459 | a batch is drawn from the candidates, within the limit, with pairwise distinct ids and tools |
| Coverage.CandidatesAreComplete | agentic/agent/components.py:363-384 | no tool of the intent that is unspent, registered, applicable and not yet run on a group's metric goes without a candidate with that group's parameters, which name the group's metric |
| Coverage.CritiquesHaveCandidates | agentic/agent/components.py:317-338 | no critique whose tool is unspent, registered, applicable and not yet run goes without its candidate |
| Coverage.BatchIsFull | agentic/agent/components.py:442-459 | a batch stops short of its limit only when every other candidate shares a tool with it |
| Conclusions.FreshEitherOrConcludesMixed | agentic/agent/components.py:1057-1085 | an either/or run of two rivals that converges has exactly one supported claim and concludes mixed |
| Conclusions.EitherOrRunConcludesMixed | agentic/agent/components.py:1279-1349 | the same from any head, so also after resuming |
| Conclusions.ConfidencesAreBounded | agentic/agent/components.py:1085-1122 | claims keep confidences in [0.05, 0.95] and the conclusion's lies in [0, 1] |
| Conclusions.KeyEvidenceIsLogged | agentic/agent/components.py:1065-1122 | every cited evidence id is in the log; a supported or refuted finding cites only its own side |
| Conclusions.SupportedMayHideUntested | agentic/agent/components.py:1070-1097 | the disposition is `supported` if and only if some claim is supported and every other one was never tested |
| Conclusions.SufficientRunSupportsAll | agentic/agent/components.py:1001-1013 | a fresh or resumed run that ends for sufficient evidence and concludes `supported` has every claim supported |
| Witnesses.SupportedOverUntested | agentic/agent/components.py:1070-1097 | a run that concludes `supported` over a claim never tested, and the consistent state it was folded to |
| Diffing.IdenticalMeansReproduced | agentic/agent/diff.py:210-241 | `identical` if and only if conclusion, reason, tool order, status, all nine kinds of id and all claim statuses agree |
| Replays.IdenticalMeans | agentic/agent/diff.py:157-241 | `identical` if and only if answer, reason, tools, status, all nine kinds of id and every claim's status agree, field by field |
| Diffing.IdenticalIsAnEquivalence | agentic/agent/diff.py:210-241 | `identical` is reflexive, symmetric and transitive; `not diverged` is an equivalence too |
| FreshIds.FreshIdsLeaveNoTrace | agentic/agent/loop.py:80-92 | two runs whose tools compute the same and list the same artifacts, and that are supplied different random ids, reach the same end, and their diff is `identical` |
| Batching.ParallelIsSequential | agentic/agent/loop.py:339-372 | for every interleaving of workers: outcomes in selection order, the same bag of artifact records, and the same bytes when ids do not collide |
| Batching.ParallelFoldsAlike | agentic/agent/loop.py:266-300 | folding a parallel batch gives the state that running and folding one by one gives |
| Batching.RunBatch | agentic/agent/loop.py:339-372 | the sequential path and the pool return the same records and leave the sink equal up to order |
| Batching.RunPool | agentic/agent/loop.py:357-371 | the pool over a locked sink follows the interleaving, step by step |
| Artifacts.InMemoryArtifactSink.Record | agentic/experiments/artifacts.py:83-95 | the bytes are kept under the content-derived id and the record appended |
| Artifacts.OrderIsInvisible | agentic/agent/components.py:478-501 | without collisions any order of emission leaves the same bytes under every id |
| Artifacts.OrderIsInvisibleIffCollisionFree | agentic/experiments/artifacts.py:83-95 | the kept bytes are independent of order if and only if no id names two byte strings |
| Artifacts.RecordsOpenTheirBytes | agentic/experiments/artifacts.py:83-107 | without collisions each record describes its artifact and its id opens the very bytes described |
| PeerSignals.ComputePeerSignals | src/peer_signals.py:96-159 | one signal per non-null cell against its period's group; rank and z never point apart, and small groups never alert on z |
| Peers.AlertMeans | src/peer_signals.py:51-93 | a high alert exactly for the top tenth or more than two deviations over the mean, a low one for the opposite, none for a lone firm; from the group's values alone |
| Peers.SignalsMean | src/peer_signals.py:96-159 | every value of the four metrics has its signal, and every signal its value |
| Peers.GroupMeans | src/peer_signals.py:110-115 | a group is the values of one period's rows, in order |
| PeerSignals.RankAndZAgree | src/peer_signals.py:73-93 | no value is rank-high with z < -2 or rank-low with z > 2, so the tie-break between the rules never decides |
| PeerSignals.SmallGroupsAreModest | src/peer_signals.py:115-133 | z squared is at most n - 1; with five or fewer peers no z alert and no `extreme_low` |
| PeerSignals.LowIsReachableFromSix | src/peer_signals.py:51-93 | for every n from six on some group of n has an `extreme_low` |
| PeerSignals.StrictMaximumIsFlagged | src/peer_signals.py:51-93 | a strict maximum of two or more is `extreme_high` |
| PeerSignals.FarBelowRanksLow | src/peer_signals.py:115-121 | z < -2 puts a value in the lowest quarter of its group |
| PeerSignals.RanksShareOutThePlaces | src/peer_signals.py:116-116 | whatever ties there are, the average ranks of n values add up to 1 + ... + n |
| Moments.Samuelson | src/peer_signals.py:117-121 | no member lies more than sqrt(n - 1) population standard deviations from the mean |
| Anomaly.PeerLooZ | src/anomaly.py:123-150 | every cell is written from its own period's group; a missing column leaves all undefined and all counts zero |
| Anomaly.LooIsAtLeastAsFarOut | src/anomaly.py:123-150 | same sign, magnitude at least that of the full z, and exactly loo² (n - 1 - z²) = n z² |
| Anomaly.AlertSurvivesLeavingOut | src/anomaly.py:141-148 | a z beyond the alert threshold stays beyond it when the firm is left out |
| Anomaly.LayersShareGroups | src/anomaly.py:130-136 | both layers compare a firm with the same group |
| Anomaly.SelfRowsSeeOnlyTheWindow | src/anomaly.py:101-120 | appending later quarters changes no earlier row, quarters before the window change no later one, and a quarter does not enter its own baseline |
| SelfScores.SelfScoreMeans | src/anomaly.py:101-120 | when a quarter has a score against its own history, and what it and its sign are |
| SelfScores.BaselineMeans | src/anomaly.py:101-108 | which quarters are the baseline |
| SelfScores.LooMeans | src/anomaly.py:123-150 | when a firm has a leave-one-out score, and what it is |
| Association.CramersVAtMostOne | agentic/experiments/stats.py:150-164 | chi² is between 0 and n (min(R, C) - 1), so V is at most 1, empty rows and columns included |
| ChiSquared.NothingMeans | agentic/experiments/stats.py:150-164 | chi² and V are 0 if and only if every cell times the total is its row's total times its column's |
| ChiSquared.EverythingMeans | agentic/experiments/stats.py:150-164 | with no row empty and no more rows than columns V is 1 if and only if each column lies in one row |
| ChiSquared.EverythingByColumnsMeans | agentic/experiments/stats.py:150-164 | with no column empty and no more columns than rows V is 1 if and only if each row lies in one column |
| ChiSquared.SidesAreAlike | agentic/experiments/stats.py:150-164 | the transposed table has the same chi², V and degrees of freedom |
| ChiSquared.DiagonalIsPerfect | agentic/experiments/stats.py:150-164 | a square diagonal table attains the bound |
| ChiSquared.TwoByTwoMeans | agentic/experiments/stats.py:150-164 | between two and two chi² times the margins is n times the squared determinant |
| Association.StrengthIsCramersV | agentic/experiments/stats.py:184-211 | the clamp never truncates Cramér's V |
| Association.EvidenceStrength | agentic/experiments/stats.py:184-211 | strength and coverage lie in [0, 1] and reliability below 1 |
| Association.EffectDecidesStrength | agentic/experiments/stats.py:184-211 | full strength from the full effect size on, in proportion below it, whichever way it points |
| Association.PValueDecidesStrength | agentic/experiments/stats.py:184-211 | without a comparable effect the p-value decides, without that a half |
| Association.SampleDecidesReliability | agentic/experiments/stats.py:184-211 | reliability is n / (n + 30), less a fifth for warnings |
| TrendBreaks.TrendRows | src/trend_breaks.py:112-174 | the window loop's rows over a firm's quarters |
| Trends.TrendRowMeans | src/trend_breaks.py:112-174 | of the series itself: value, history, and improving or deteriorating exactly when each of the last values exceeds or is below the one before |
| Trends.WindowsMean | src/trend_breaks.py:130-150 | which values the windows hold, their means, slopes and shifts |
| Trends.ScoreMeans | src/trend_breaks.py:150-160 | the score's three parts, each with its unit and ceiling |
| Trends.TypeMeans | src/trend_breaks.py:72-80 | the type is the score's range |
| TrendBreaks.NoLookAhead | src/trend_breaks.py:112-174 | appending later quarters changes no earlier row |
| TrendBreaks.SlopeIsLeastSquares | src/trend_breaks.py:46-54 | no line fits a window better than the one with the computed slope |
| TrendBreaks.TrendMoves | src/trend_breaks.py:46-80 | adding a constant changes no score, type, shift or direction; negating keeps score and type and swaps improving with deteriorating |
| Exclusions.Bump | src/exclusions.py:50-54 | adds n under one reason; without a dictionary or for n below one nothing happens |
| Exclusions.CountsToRows | src/exclusions.py:57-75 | the rows add up to the counts, each carries its reason's count and none is empty, they come in the order of the reasons, and every reason that counts something has one |
| Selection.PickBestPerPeriod | src/metric_extraction.py:171-201 | the dictionary holds one winner for each key that occurs, in insertion order |
| Selection.WinnerIsOptimal | src/metric_extraction.py:171-201 | the one pass finds the lexicographic optimum, the earliest of full ties, and no other row is one |
| Selection.WinnerIgnoresOrder | src/metric_extraction.py:171-201 | the winner's tag index, date and accession number do not depend on the order of the rows |
| Selection.CandidatesAddUp | src/metric_extraction.py:139-168 | the winners' candidate counts add up to the rows before selection |
| Extraction.GatherTagRows | src/metric_extraction.py:55-136 | the rows and counts of one tag's units |
| Extraction.GatherEntries | src/metric_extraction.py:84-135 | each entry of a USD unit is kept or counted under the first check it fails |
| Filtering.CandidatesAreFacts | src/metric_extraction.py:55-136 | every candidate row comes from one consolidated quarterly fact in dollars, recent enough and with a value, with that fact's fields; every such fact gives exactly one |
| Filtering.DroppedFails | src/metric_extraction.py:84-135 | a fact is counted under a reason if and only if that is the first check it fails, told from its fields |
| Filtering.FactsAreCounted | src/metric_extraction.py:55-136 | each reason counts exactly the facts that fail its check first |
| Extraction.SelectRows | src/metric_extraction.py:260-266 | the winners of every metric, and the others counted as duplicates |
| Winners.KeptAreUnsurpassed | src/metric_extraction.py:171-201 | every metric and quarter with a candidate keeps one, and none of its candidates has an earlier tag, or then a later date, or then a higher accession number |
| Filtering.DuplicatesAreCounted | src/metric_extraction.py:260-266 | the candidates not kept are counted as duplicates, and nothing else is |
| Extraction.BuildCaveatRows | src/metric_extraction.py:139-168 | candidate counts and codes of every winner |
| Winners.CaveatMeans | src/metric_extraction.py:139-168 | the candidates of the row's metric and quarter, and each code exactly when it applies |
| Extraction.ExtractMetrics | src/metric_extraction.py:221-284 | the specified rows, caveats and counts; facts examined equal rows returned plus facts newly counted; no metric and period twice; caveats account for every candidate |
| Extraction.NothingIsLost | src/metric_extraction.py:233-284 | the same of the specification, and the closing drop_duplicates drops nothing |
| Extraction.PeriodInjective | src/metric_extraction.py:126-126 | a period text names one fiscal year and one quarter |

## Left out

- Resumption.ResumedRunRefinesUninterrupted: for batch width one, budgets of time, cost and model calls that do not bind, and stops where the failures pending cannot reach their limit; resume rebuilds neither those counters nor the failures, and a cap can cut a wider batch short.
- Updating.RecordExperiment: files under the request's own id and tool, which the repository's tools copy into their records from the request; a tool that reports another's is not modelled.
- PeerSignals.ComputePeerSignals: stops before the output table is sorted.
- Extraction.ExtractMetrics: stops before both output tables are sorted.
- Anomaly.LayersShareGroups: is about the groups; that pandas computes mean, deviation and average rank as they are defined here is presumed.
- TrendBreaks.TrendRows: takes one firm's quarters already in period order; grouping by firm, sorting by period and the explanation text are not modelled, and windows are at least one long.
- Looping.RunSelected: takes a batch's records as they come back in selection order; that the pool returns them so is proved beside it, in Batching.ParallelFoldsAlike.
- Batching.RunBatch: an exception raised inside a tool and re-raised by its future is not modelled.
- Batching.RunPool: a worker's emission or return is one indivisible step; an exception raised inside a tool and re-raised by its future is not modelled.
- Extraction.GatherEntries: a `form` or `fp` that is a list or an object makes the membership test itself raise; such an entry is treated like one whose form or period is not a text. Texts are parsed as numbers by a parameter, and numbers are finite.
- Judging.SynthesizeConclusion: caveats, narrative and rationale texts are left out, as in Judging.Conclude.
- Judging.Conclude: the statement sentence is kept as the disposition with the claim statements it quotes; caveats, narrative and rationale texts are left out.
- Floating point: scores, means and variances are exact reals, rounding to four decimals is the identity, and NaN is an explicit undefined case.
- Timestamps, provenance, source references, reproducibility ids of requests, stores, observers and component timings: they feed nothing the loop decides on.
- Prompts, JSON validation of model replies, cost pricing and the narrative's verification: only a policy call's answer, failure and cost are kept.
- The concrete experiment tools: any function from a request to a record.
- Regular-expression readings of goals and claims (whether alternatives are posed, the expected sign): arbitrary parameters.
- The caller's stop flag and the tracker's: one flag, fixed for a call.
- Backend, database, migrations, command line, reports, adapters, profiling, scoreboard and frontend: infrastructure, presentation and counting.
