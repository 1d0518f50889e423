/**
 InvestigationLoop over the live investigation: every method ends in the state, tracker and lifecycle status that the
 functions of the Running module specify, or raises the exception they raise.
 */
module Looping {
  import opened Outcomes
  import opened Enums
  import opened Ids
  import opened Domain
  import opened Environment
  import opened Mutators
  import opened Criticism
  import opened Budgets
  import opened Concluding
  import opened Planning
  import opened Running
  import opened Entities
  import opened Tracking
  import opened Updating
  import opened Choosing
  import opened Judging
  import opened Folding
  import opened Checkpoints
  import opened Runs
  import opened Bounds

  /** Where a call ends: Ok(paused) in the specified end, or the specified exception. */
  predicate Ends(o: Outcome<bool>, spec: Outcome<End>, inv: Investigation, t: Tracker) {
    match o
    case Ok(paused) => spec == Ok(End(inv, t, paused))
    case Raised(e) => spec == Raised(e)
  }

  // HypothesisGenerator

  ghost predicate Grown(before: seq<Hypothesis>, now: seq<Hypothesis>) {
    before <= now
  }

  /** The claims and their decisions. */
  method ProposeClaims(seed: string, st: InvestigationState, proposals: seq<Proposal>, known: seq<string>)
    requires st.Valid()
    modifies st`hypotheses, st`decisions
    ensures st.Valid() && Grown(old(st.hypotheses), st.hypotheses)
    ensures fresh(set k | |old(st.hypotheses)| <= k < |st.hypotheses| :: st.hypotheses[k])
    ensures st.View() == old(st.View()).(
      claims := old(st.View()).claims + ClaimsFrom(seed, proposals, known, |proposals|),
      decisions := old(st.View()).decisions + ProposalDecisions(seed, |proposals|, old(st.View()).iterationsUsed))
  {
    hide ClaimsFrom, ProposalDecisions, NewClaim;
    NoneProposed(seed, proposals, known, st.iterationsUsed);
    for i := 0 to |proposals|
      invariant st.Valid() && Grown(old(st.hypotheses), st.hypotheses)
      invariant fresh(set k | |old(st.hypotheses)| <= k < |st.hypotheses| :: st.hypotheses[k])
      invariant Views(st.hypotheses) == old(Views(st.hypotheses)) + ClaimsFrom(seed, proposals, known, i)
      invariant st.decisions == old(st.decisions) + ProposalDecisions(seed, i, st.iterationsUsed)
    {
      OneMoreProposed(seed, proposals, known, i, st.iterationsUsed);
      ProposeOne(seed, st, i, proposals[i], known);
    }
  }

  lemma NoneProposed(seed: string, proposals: seq<Proposal>, known: seq<string>, iteration: nat)
    ensures ClaimsFrom(seed, proposals, known, 0) == [] && ProposalDecisions(seed, 0, iteration) == []
  {
  }

  lemma OneMoreProposed(seed: string, proposals: seq<Proposal>, known: seq<string>, i: nat, iteration: nat)
    requires i < |proposals|
    ensures ClaimsFrom(seed, proposals, known, i + 1)
         == ClaimsFrom(seed, proposals, known, i) + [NewClaim(seed, i, proposals[i], known)]
    ensures ProposalDecisions(seed, i + 1, iteration)
         == ProposalDecisions(seed, i, iteration)
            + [Decision(Make(seed, "dec-hyp", i), "dec-hyp", [Make(seed, "hyp", i)], iteration)]
  {
    hide NewClaim;
  }

  method ProposeOne(seed: string, st: InvestigationState, i: nat, p: Proposal, known: seq<string>)
    requires st.Valid()
    modifies st`hypotheses, st`decisions
    ensures st.Valid() && |st.hypotheses| == |old(st.hypotheses)| + 1 && Grown(old(st.hypotheses), st.hypotheses)
    ensures fresh(st.hypotheses[|old(st.hypotheses)|])
    ensures Views(st.hypotheses) == old(Views(st.hypotheses)) + [NewClaim(seed, i, p, known)]
    ensures st.decisions
         == old(st.decisions)
            + [Decision(Make(seed, "dec-hyp", i), "dec-hyp", [Make(seed, "hyp", i)], st.iterationsUsed)]
  {
    var h := new Hypothesis(Make(seed, "hyp", i), p.statement,
                            if Truthy(p.metric) && p.metric.value in known then [p.metric.value] else []);
    st.AddHypothesis(h);
    st.decisions := st.decisions + [Decision(Make(seed, "dec-hyp", i), "dec-hyp", [h.id], st.iterationsUsed)];
  }

  /** Two claims of a goal posed as alternatives become each other's rival. */
  method MarkAlternatives(env: Env, st: InvestigationState)
    requires st.Valid()
    modifies st.hypotheses
    ensures st.View() == old(st.View()).(claims := MarkRivals(old(st.View()).claims, env.posesAlternatives))
  {
    if env.posesAlternatives && |st.hypotheses| == 2 {
      var first, second := st.hypotheses[0], st.hypotheses[1];
      first.exclusiveWith := [second.id];
      second.exclusiveWith := [first.id];
      assert Views(st.hypotheses) == [first.View(), second.View()];
    }
  }

  /** HypothesisGenerator.generate */
  method GenerateClaims(env: Env, seed: string, st: InvestigationState, p: Proposals) returns (o: Outcome<()>)
    requires st.Valid()
    modifies st`hypotheses, st`decisions, st`openQuestions, st.hypotheses
    ensures st.Valid() && Grown(old(st.hypotheses), st.hypotheses)
    ensures fresh(set k | |old(st.hypotheses)| <= k < |st.hypotheses| :: st.hypotheses[k])
    ensures Refines(o, Generate(env, seed, old(st.View()), p), st.View())
  {
    hide ClaimsFrom, ProposalDecisions, MarkRivals;
    ProposeClaims(seed, st, p.hypotheses, env.manifest.metricNames);
    MarkAlternatives(env, st);
    var about := IdsOf(Views(st.hypotheses));
    o := AskQuestions(seed, st, p.questions, about);
  }

  /** The follow-up questions; an empty one cannot be built. */
  method AskQuestions(seed: string, st: InvestigationState, questions: seq<string>, about: seq<string>)
    returns (o: Outcome<()>)
    modifies st`openQuestions
    ensures o == if "" in questions then Raised(InvalidModel) else Ok(())
    ensures o.Ok? ==>
      st.View() == old(st.View()).(questions := old(st.openQuestions) + ProposalQuestions(seed, |questions|, about))
  {
    for j := 0 to |questions|
      invariant "" !in questions[..j]
      invariant st.openQuestions == old(st.openQuestions) + ProposalQuestions(seed, j, about)
    {
      if questions[j] == "" {
        return Raised(InvalidModel);
      }
      st.openQuestions := st.openQuestions + [OpenQuestion(Make(seed, "q", j), "q", about)];
    }
    return Ok(());
  }

  // Ending a run

  /** _finalize */
  method FinalizeRun(env: Env, inv: LiveInvestigation, tracker: BudgetTracker, reason: Reason)
    returns (o: Outcome<bool>)
    requires inv.state.Valid()
    modifies inv`status, inv.state, inv.state.hypotheses, tracker
    ensures inv.state.hypotheses == old(inv.state.hypotheses)
    ensures Ends(o, Finalize(env, old(inv.View()), old(tracker.View()), reason), inv.View(), tracker.View())
  {
    hide Synthesize, AfterCall, CanAdvance, TerminalStatus, Views;
    var st := inv.state;
    SynthesizeConclusion(env, inv.id, st, reason, tracker);
    st.RecordTermination(Termination(reason, st.iterationsUsed));
    SynthesisKeepsCount(inv.id, reason);
    var moved := inv.SetStatus(TerminalStatus(reason));
    return if moved.Ok? then Ok(false) else Raised(moved.error);
  }

  lemma SynthesisKeepsCount(seed: string, reason: Reason)
    ensures forall st :: Synthesize(seed, st, reason).iterationsUsed == st.iterationsUsed
  {
  }

  /** Walking the lifecycle up to `running`. */
  method WalkToRunning(inv: LiveInvestigation) returns (o: Outcome<()>)
    modifies inv`status
    ensures Refines(o, StartRunning(old(inv.View())), inv.View())
  {
    o := Ok(());
    if inv.status == Created {
      o := inv.SetStatus(Lifecycle.Planning);
    }
    if o.Ok? && inv.status == Lifecycle.Planning {
      o := inv.SetStatus(Running);
    }
  }

  /** _fail_safe: a malformed policy answer still ends the run with a conclusion. */
  method FailSafely(env: Env, inv: LiveInvestigation, tracker: BudgetTracker) returns (o: Outcome<bool>)
    requires inv.state.Valid()
    modifies inv`status, inv.state, inv.state.hypotheses, tracker
    ensures inv.state.hypotheses == old(inv.state.hypotheses)
    ensures Ends(o, FailSafe(env, old(inv.View()), old(tracker.View())), inv.View(), tracker.View())
  {
    hide Synthesize, AfterCall, CanAdvance, Views;
    var st := inv.state;
    SynthesisKeepsCount(inv.id, InternalError);
    if st.termination.None? {
      SynthesizeConclusion(env, inv.id, st, InternalError, tracker);
      st.RecordTermination(Termination(InternalError, st.iterationsUsed));
    }
    if LifecycleOver(inv.status) {
      return Ok(false);
    }
    var walked := WalkToRunning(inv);
    if walked.Raised? {
      return Raised(walked.error);
    }
    var failed := inv.SetStatus(Failed);
    return if failed.Ok? then Ok(false) else Raised(failed.error);
  }

  /** _record_unanswerable */
  method DeclineGoal(inv: LiveInvestigation) returns (o: Outcome<()>)
    modifies inv`status, inv.state`decisions, inv.state`openQuestions
    ensures Refines(o, RecordUnanswerable(old(inv.View())), inv.View())
  {
    hide StartRunning, Views;
    inv.state.RecordDecision(inv.id, "dec-unanswerable", []);
    inv.state.AddOpenQuestion(inv.id, "q-unanswerable", []);
    o := WalkToRunning(inv);
  }

  // One iteration

  /** The tools that have run, whatever came of them. */
  method ToolsRun(st: InvestigationState) returns (tools: set<string>)
    ensures tools == ExecutedTools(st.View())
  {
    tools := {};
    var filed := st.completedExperiments + st.failedExperiments;
    for k := 0 to |filed|
      invariant tools == set j | 0 <= j < k :: filed[j].tool
    {
      tools := tools + {filed[k].tool};
    }
    assert forall j :: 0 <= j < |st.completedExperiments| ==> filed[j] == st.completedExperiments[j];
    assert forall j :: 0 <= j < |st.failedExperiments| ==>
      filed[|st.completedExperiments| + j] == st.failedExperiments[j];
  }

  /** Folding a batch, strictly in selection order. */
  method FoldBatch(env: Env, seed: string, st: InvestigationState, tracker: BudgetTracker, batch: seq<Request>,
                   records: seq<Record>)
    returns (o: Outcome<()>, anySucceeded: bool)
    requires st.Valid() && |records| == |batch|
    modifies st, st.hypotheses, tracker
    ensures st.Valid() && st.hypotheses == old(st.hypotheses)
    ensures Refines(o, FoldFirst(env, seed, Fold(old(st.View()), old(tracker.View()), false), batch, records, |batch|),
                    Fold(st.View(), tracker.View(), anySucceeded))
  {
    hide FoldExperiment, AfterExperiment, Views;
    ghost var before := Fold(st.View(), tracker.View(), false);
    anySucceeded := false;
    var n := 0;
    while n < |batch|
      invariant 0 <= n <= |batch|
      invariant st.Valid() && st.hypotheses == old(st.hypotheses)
      invariant FoldFirst(env, seed, before, batch, records, n) == Ok(Fold(st.View(), tracker.View(), anySucceeded))
    {
      var failed := records[n].status == FailedRun;
      tracker.RecordExperiment(batch[n].tool, failed);
      o := FoldOne(env, seed, st, batch[n], records[n]);
      if o.Raised? {
        FoldRaisedEarly(env, seed, before, batch, records, n + 1);
        return;
      }
      if !failed {
        anySucceeded := true;
      }
      n := n + 1;
    }
    return Ok(()), anySucceeded;
  }

  lemma {:induction false} FoldRaisedEarly(env: Env, seed: string, f: Fold, batch: seq<Request>, records: seq<Record>,
                                           n: nat)
    requires |records| == |batch| && n <= |batch| && FoldFirst(env, seed, f, batch, records, n).Raised?
    ensures FoldFirst(env, seed, f, batch, records, |batch|) == FoldFirst(env, seed, f, batch, records, n)
    decreases |batch| - n
  {
    hide FoldExperiment, AfterExperiment;
    if n < |batch| {
      FoldRaisedEarly(env, seed, f, batch, records, n + 1);
    }
  }

  /** What one pass leaves: it raised, it goes on, or it ended the call. */
  predicate Passed(o: Outcome<Option<bool>>, spec: Outcome<Pass>, inv: Investigation, t: Tracker, used: nat) {
    match o
    case Raised(e) => spec == Raised(e)
    case Ok(None) => spec == Ok(Continue(inv.state, t, used))
    case Ok(Some(paused)) => spec == Ok(Stop(End(inv, t, paused)))
  }

  /** A pass that goes on touches nothing but the state. */
  predicate SameButState(before: Investigation, now: Investigation) {
    now == before.(state := now.state)
  }

  /** The end of the body: the critic, and the iteration counted. */
  method CloseIteration(env: Env, it: Interpretation, inv: LiveInvestigation, tracker: BudgetTracker,
                        anySucceeded: bool, executed: set<string>, used: nat)
    returns (o: Outcome<Option<bool>>)
    requires inv.state.Valid()
    modifies inv`status, inv.state, inv.state.hypotheses, tracker
    ensures inv.state.Valid() && inv.state.hypotheses == old(inv.state.hypotheses)
    ensures Passed(o, ClosePass(env, it, old(inv.View()),
                                Fold(old(inv.state.View()), old(tracker.View()), anySucceeded), executed, used),
                   inv.View(), tracker.View(), used)
    ensures o == Ok(None) ==> SameButState(old(inv.View()), inv.View())
  {
    hide Challenge, AfterCritique, FailSafe, Views;
    if anySucceeded {
      var challenged := ChallengeClaims(env, inv.id, it, inv.state, executed, tracker);
      if challenged == Raised(PolicyError) {
        var ended := FailSafely(env, inv, tracker);
        return match ended case Ok(paused) => Ok(Some(paused)) case Raised(e) => Raised(e);
      }
      if challenged.Raised? {
        return Raised(challenged.error);
      }
    }
    inv.state.AdvanceIteration();
    return Ok(None);
  }

  /** Running the selected batch, folding it and closing the pass. */
  method RunSelected(env: Env, it: Interpretation, inv: LiveInvestigation, tracker: BudgetTracker, batch: seq<Request>,
                     executed: set<string>, usedThisCall: nat)
    returns (o: Outcome<Option<bool>>)
    requires inv.state.Valid() && batch != []
    modifies inv`status, inv.state, inv.state.hypotheses, tracker
    ensures inv.state.Valid() && inv.state.hypotheses == old(inv.state.hypotheses)
    ensures Passed(o, RunPass(env, it, old(inv.View()), old(tracker.View()), batch, executed, usedThisCall),
                   inv.View(), tracker.View(), usedThisCall + |batch|)
    ensures o == Ok(None) ==> SameButState(old(inv.View()), inv.View())
  {
    hide FoldFirst, ClosePass, Views;
    // What Batching.RunBatch returns, on the sequential path and from the pool alike.
    var records := RunAll(env.run, batch);
    var folded, anySucceeded := FoldBatch(env, inv.id, inv.state, tracker, batch, records);
    if folded.Raised? {
      return Raised(folded.error);
    }
    ghost var mid := inv.View();
    CloseIgnoresState(env, it, old(inv.View()), mid, Fold(inv.state.View(), tracker.View(), anySucceeded),
                      executed + ToolsOf(batch),
                      usedThisCall + |batch|);
    o := CloseIteration(env, it, inv, tracker, anySucceeded, executed + ToolsOf(batch), usedThisCall + |batch|);
  }

  /** Closing a pass works on the folded state, whatever the investigation held before. */
  lemma CloseIgnoresState(env: Env, it: Interpretation, before: Investigation, now: Investigation, f: Fold,
                          executed: set<string>, used: nat)
    requires now == before.(state := f.state)
    ensures ClosePass(env, it, before, f, executed, used) == ClosePass(env, it, now, f, executed, used)
  {
    hide Challenge, FailSafe;
  }

  /** The middle of the body: candidates, the policy's choice, and the batch it leads. */
  method PlanIteration(env: Env, it: Interpretation, inv: LiveInvestigation, tracker: BudgetTracker, limit: int,
                       executed: set<string>, usedThisCall: nat)
    returns (o: Outcome<Option<bool>>, used: nat)
    requires inv.state.Valid()
    modifies inv`status, inv.state, inv.state.hypotheses, tracker
    ensures inv.state.Valid() && inv.state.hypotheses == old(inv.state.hypotheses)
    ensures Passed(o, PlanPass(env, it, old(inv.View()), old(tracker.View()), limit, executed, usedThisCall),
                   inv.View(), tracker.View(), used)
    ensures o == Ok(None) ==> SameButState(old(inv.View()), inv.View())
  {
    hide Candidates, SelectBatch, AfterChoosing, RunPass, FailSafe, Finalize, ReasonWithoutCandidates, Views;
    used := usedThisCall;
    var candidates := CandidatesOf(env, inv.id, inv.state, it, tracker);
    var chosen := SelectBatchOf(env, inv.id, inv.state, candidates, tracker, limit);
    if chosen.Raised? {
      ChoosingRaisesPolicyError(env, inv.id, old(inv.state.View()), candidates, limit);
      var ended := FailSafely(env, inv, tracker);
      o := match ended case Ok(paused) => Ok(Some(paused)) case Raised(e) => Raised(e);
    } else if chosen.value == [] {
      var reason := ReasonForNoCandidates(inv.state, tracker.experimentsUsed > 0);
      var ended := FinalizeRun(env, inv, tracker, reason);
      o := match ended case Ok(paused) => Ok(Some(paused)) case Raised(e) => Raised(e);
    } else {
      o := RunSelected(env, it, inv, tracker, chosen.value, executed, usedThisCall);
      used := usedThisCall + |chosen.value|;
    }
  }

  lemma ChoosingRaisesPolicyError(env: Env, seed: string, st: State, candidates: seq<Request>, limit: int)
    ensures SelectBatch(env, seed, st, candidates, limit).Raised? ==>
      SelectBatch(env, seed, st, candidates, limit) == Raised(PolicyError)
  {
  }

  /** The body of the while loop. */
  method Iterate(env: Env, clock: State -> real, it: Interpretation, inv: LiveInvestigation, tracker: BudgetTracker,
                 cap: Option<nat>, usedThisCall: nat)
    returns (o: Outcome<Option<bool>>, used: nat)
    requires inv.state.Valid()
    modifies inv`status, inv.state, inv.state.hypotheses, tracker
    ensures inv.state.Valid() && inv.state.hypotheses == old(inv.state.hypotheses)
    ensures Passed(o, PassOnce(env, clock, it, old(inv.View()), old(tracker.View()), cap, usedThisCall), inv.View(),
                   tracker.View(), used)
    ensures o == Ok(None) ==> SameButState(old(inv.View()), inv.View())
  {
    hide Decide, PlanPass, Finalize, BatchLimit, IntentTools, ExecutedTools, Views;
    used := usedThisCall;
    tracker.SetElapsed(clock(inv.state.View()));
    var executed := ToolsRun(inv.state);
    var stop := DecideStop(env, inv.state, tracker, executed, IntentTools(it.intent, env.manifest));
    if stop.Some? {
      var ended := FinalizeRun(env, inv, tracker, stop.value);
      o := match ended case Ok(paused) => Ok(Some(paused)) case Raised(e) => Raised(e);
      return;
    }
    if cap.Some? && usedThisCall >= cap.value {
      return Ok(Some(true)), used;
    }
    var limit := BatchLimit(tracker.View(), env.budget, cap, usedThisCall);
    o, used := PlanIteration(env, it, inv, tracker, limit, executed, usedThisCall);
  }

  // The loop

  /** The while loop of _run: it ends where RunLoop ends, for every policy. */
  method Loop(env: Env, clock: State -> real, it: Interpretation, inv: LiveInvestigation, tracker: BudgetTracker,
              cap: Option<nat>)
    returns (o: Outcome<bool>)
    requires inv.state.Valid()
    modifies inv`status, inv.state, inv.state.hypotheses, tracker
    ensures Ends(o, RunLoop(env, clock, it, old(inv.View()), old(tracker.View()), cap, 0), inv.View(), tracker.View())
  {
    hide PassOnce, Views;
    ghost var ending := RunLoop(env, clock, it, inv.View(), tracker.View(), cap, 0);
    var used := 0;
    while inv.state.termination.None?
      invariant inv.state.Valid() && inv.state.hypotheses == old(inv.state.hypotheses)
      invariant RunLoop(env, clock, it, inv.View(), tracker.View(), cap, used) == ending
      decreases ExperimentsLeft(env, tracker.View())
    {
      ghost var before, t := inv.View(), tracker.View();
      var pass: Outcome<Option<bool>>;
      pass, used := Iterate(env, clock, it, inv, tracker, cap, used);
      if pass.Raised? {
        return Raised(pass.error);
      }
      if pass.value.Some? {
        return Ok(pass.value.value);
      }
    }
    return Ok(false);
  }

  /** The initial phase: claims proposed once, and the lifecycle walked to `running`. */
  method Begin(env: Env, inv: LiveInvestigation, p: Proposals) returns (o: Outcome<()>)
    requires inv.state.Valid()
    modifies inv`status, inv.state`hypotheses, inv.state`decisions, inv.state`openQuestions, inv.state.hypotheses
    ensures inv.state.Valid() && Grown(old(inv.state.hypotheses), inv.state.hypotheses)
    ensures fresh(set k | |old(inv.state.hypotheses)| <= k < |inv.state.hypotheses| :: inv.state.hypotheses[k])
    ensures Refines(o, Begun(env, old(inv.View()), p), inv.View())
  {
    hide Generate, CanAdvance, Views;
    o := GenerateClaims(env, inv.id, inv.state, p);
    if o.Raised? {
      return;
    }
    o := inv.SetStatus(Lifecycle.Planning);
    if o.Raised? {
      return;
    }
    o := inv.SetStatus(Running);
  }

  /** The investigation the loop starts from, once the policy has proposed. */
  function Begun(env: Env, inv: Investigation, p: Proposals): Outcome<Investigation> {
    var st :- Generate(env, inv.id, inv.state, p);
    var inv1 :- AdvanceTo(inv.(state := st), Lifecycle.Planning);
    AdvanceTo(inv1, Running)
  }

  /** InvestigationLoop._run */
  method RunInvestigation(env: Env, clock: State -> real, inv: LiveInvestigation, tracker: BudgetTracker,
                          cap: Option<nat>)
    returns (o: Outcome<bool>)
    requires inv.state.Valid()
    modifies inv`status, inv.state, inv.state.hypotheses, tracker
    ensures Ends(o, Run(env, clock, old(inv.View()), old(tracker.View()), cap), inv.View(), tracker.View())
  {
    hide RunLoop, FailSafe, Finalize, RecordUnanswerable, AfterCall, CanAdvance, Generate, Views;
    tracker.Charge(env.policy.callCost(inv.state.View(), InterpretCall));
    if env.policy.interpret.Malformed? {
      o := FailSafely(env, inv, tracker);
      return;
    }
    var it := env.policy.interpret.value;
    if !it.answerable && inv.state.hypotheses == [] {
      var declined := DeclineGoal(inv);
      if declined.Raised? {
        return Raised(declined.error);
      }
      o := FinalizeRun(env, inv, tracker, UnanswerablePremise);
      return;
    }
    if inv.state.hypotheses == [] {
      o := ProposeAndLoop(env, clock, it, inv, tracker, cap);
      return;
    }
    if inv.status == Created {
      var planned := inv.SetStatus(Lifecycle.Planning);
      if planned.Raised? {
        return Raised(planned.error);
      }
      var running := inv.SetStatus(Running);
      if running.Raised? {
        return Raised(running.error);
      }
    }
    o := Loop(env, clock, it, inv, tracker, cap);
  }

  /** What _run does for an investigation without claims. */
  function Proposed(env: Env, clock: State -> real, it: Interpretation, inv: Investigation, t: Tracker,
                    cap: Option<nat>): Outcome<End> {
    var t1 := AfterCall(t, env.policy.callCost(inv.state, ProposeCall));
    match env.policy.propose(it)
    case Malformed => FailSafe(env, inv, t1)
    case Reply(p) =>
      var begun :- Begun(env, inv, p);
      RunLoop(env, clock, it, begun, t1, cap, 0)
  }

  method ProposeAndLoop(env: Env, clock: State -> real, it: Interpretation, inv: LiveInvestigation,
                        tracker: BudgetTracker, cap: Option<nat>)
    returns (o: Outcome<bool>)
    requires inv.state.Valid()
    modifies inv`status, inv.state, inv.state.hypotheses, tracker
    ensures Ends(o, Proposed(env, clock, it, old(inv.View()), old(tracker.View()), cap), inv.View(), tracker.View())
  {
    hide RunLoop, FailSafe, AfterCall, Begun, Views;
    tracker.Charge(env.policy.callCost(inv.state.View(), ProposeCall));
    match env.policy.propose(it) {
      case Malformed =>
        o := FailSafely(env, inv, tracker);
      case Reply(p) =>
        var begun := Begin(env, inv, p);
        if begun.Raised? {
          return Raised(begun.error);
        }
        o := Loop(env, clock, it, inv, tracker, cap);
    }
  }

  /** _stamp_run_scoped_ids */
  method StampRunScopedIds(inv: LiveInvestigation)
    modifies inv`goalId, inv`datasets
    ensures inv.View()
         == old(inv.View()).(goalId := Make(inv.id, "goal", 0), datasets := StampDatasets(inv.id, old(inv.datasets)))
  {
    inv.goalId := Make(inv.id, "goal", 0);
    for i := 0 to |inv.datasets|
      invariant inv.goalId == Make(inv.id, "goal", 0) && |inv.datasets| == |old(inv.datasets)|
      invariant forall k :: 0 <= k < |inv.datasets| ==>
        inv.datasets[k] == if k < i then StampDatasets(inv.id, old(inv.datasets))[k] else old(inv.datasets)[k]
    {
      var manifest := if inv.datasets[i].manifestId.Some? then Some(Make(inv.id, "mfst", i)) else None;
      inv.datasets := inv.datasets[i := Dataset(Make(inv.id, "dset", i), manifest)];
    }
  }

  /**
   InvestigationLoop.start. Whatever the policy, the tools and the clock do, the call raises nothing but the
   rejection of an entity that cannot be built, it spends no more than its limits allow, and when it pauses it can
   be resumed.
   */
  method StartInvestigation(env: Env, clock: State -> real, cap: Option<nat>)
    returns (inv: LiveInvestigation, tracker: BudgetTracker, o: Outcome<bool>)
    ensures Ends(o, Start(env, clock, cap), inv.View(), tracker.View())
    ensures o.Raised? ==> o.error == InvalidModel && !WellPosed(env)
    ensures o == Ok(true) ==> AtHead(inv.View(), tracker.View())
    ensures o.Ok? && LimitsOk(env) ==> EndWithin(env, End(inv.View(), tracker.View(), o.value), Allowance(cap, 0))
  {
    hide Run, Views, EndWithin, AtHead, EndedAt, Consistent, WellPosed;
    inv := new LiveInvestigation(env.seed, env.freshGoalId, env.freshDatasets);
    StampRunScopedIds(inv);
    tracker := new BudgetTracker();
    o := RunInvestigation(env, clock, inv, tracker, cap);
    var last := FreshRunWell(env, clock, cap);
    if LimitsOk(env) {
      FreshRunWithin(env, clock, cap);
    }
  }

  /**
   InvestigationLoop.resume: of the counters only the experiments and the uses of each tool are rebuilt. From a paused
   investigation that has claims, the guarantees of a fresh run go on holding.
   */
  method ResumeInvestigation(env: Env, clock: State -> real, inv: LiveInvestigation, cap: Option<nat>)
    returns (tracker: BudgetTracker, o: Outcome<bool>)
    requires inv.state.Valid()
    modifies inv`status, inv.state, inv.state.hypotheses
    ensures Ends(o, Resume(env, clock, old(inv.View()), cap), inv.View(), tracker.View())
    ensures old(inv.state.hypotheses) != [] && AtHead(old(inv.View()), RebuiltTracker(old(inv.state.View()))) ==>
      (o.Raised? ==> o.error == InvalidModel && !WellPosed(env))
      && (o == Ok(true) ==> AtHead(inv.View(), tracker.View()))
  {
    hide Run, CountResults, Views, AtHead, EndedAt, Consistent, WellPosed;
    ghost var before := inv.View();
    tracker := new BudgetTracker.Rebuilt(inv.state.completedExperiments, inv.state.failedExperiments);
    o := RunInvestigation(env, clock, inv, tracker, cap);
    if before.state.claims != [] && AtHead(before, RebuiltTracker(before.state)) {
      var last := ResumedRunWell(env, clock, before, RebuiltTracker(before.state), cap);
    }
  }
}
