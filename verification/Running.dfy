/** InvestigationLoop: one experiment folded, one iteration, one call of the loop, and resuming it. */
module Running {
  import opened Outcomes
  import opened Enums
  import opened Ids
  import opened Domain
  import opened Environment
  import opened Mutators
  import opened Scoring
  import opened Filing
  import opened Rivals
  import opened Criticism
  import opened Planning
  import opened Budgets
  import opened Concluding

  // Generation

  function NewClaim(seed: string, index: nat, p: Proposal, known: seq<string>): Claim {
    Claim(Make(seed, "hyp", index), p.statement,
          if Truthy(p.metric) && p.metric.value in known then [p.metric.value] else [],
          [], Proposed, 0.5, [], [])
  }

  /** The first n proposals as claims; a metric the dataset does not have is dropped. */
  function ClaimsFrom(seed: string, proposals: seq<Proposal>, known: seq<string>, n: nat): (r: seq<Claim>)
    requires n <= |proposals|
    ensures |r| == n
    ensures forall k :: 0 <= k < n ==> r[k] == NewClaim(seed, k, proposals[k], known)
  {
    seq(n, k requires 0 <= k < n => NewClaim(seed, k, proposals[k], known))
  }

  function ProposalDecisions(seed: string, n: nat, iteration: nat): (r: seq<Decision>)
    ensures |r| == n
    ensures forall k :: 0 <= k < n ==>
      r[k] == Decision(Make(seed, "dec-hyp", k), "dec-hyp", [Make(seed, "hyp", k)], iteration)
  {
    seq(n, k requires 0 <= k < n => Decision(Make(seed, "dec-hyp", k), "dec-hyp", [Make(seed, "hyp", k)], iteration))
  }

  /** A goal posed as alternatives makes rivals of its claims when there are exactly two. */
  function MarkRivals(claims: seq<Claim>, posesAlternatives: bool): (r: seq<Claim>)
    ensures |r| == |claims|
  {
    if posesAlternatives && |claims| == 2
    then [claims[0].(exclusiveWith := [claims[1].id]), claims[1].(exclusiveWith := [claims[0].id])]
    else claims
  }

  function ProposalQuestions(seed: string, n: nat, about: seq<string>): (r: seq<OpenQuestion>)
    ensures |r| == n
    ensures forall k :: 0 <= k < n ==> r[k] == OpenQuestion(Make(seed, "q", k), "q", about)
  {
    seq(n, k requires 0 <= k < n => OpenQuestion(Make(seed, "q", k), "q", about))
  }

  /** HypothesisGenerator.generate, once the policy has proposed. An empty question cannot be built. */
  function Generate(env: Env, seed: string, st: State, p: Proposals): Outcome<State> {
    if "" in p.questions then Raised(InvalidModel)
    else
      var claims := MarkRivals(st.claims + ClaimsFrom(seed, p.hypotheses, env.manifest.metricNames, |p.hypotheses|),
                               env.posesAlternatives);
      Ok(st.(claims := claims,
             decisions := st.decisions + ProposalDecisions(seed, |p.hypotheses|, st.iterationsUsed),
             questions := st.questions + ProposalQuestions(seed, |p.questions|, IdsOf(claims))))
  }

  // Folding

  /**
   One finished experiment, folded: filed, and unless it failed its evidence filed, claims rescored and rivals
   checked.
   */
  function FoldExperiment(env: Env, seed: string, st: State, req: Request, rec: Record): Outcome<State> {
    var st1 :- RecordResult(seed, st, req, rec);
    if rec.status == FailedRun then Ok(st1)
    else
      var st2 := UpdateEvidence(seed, env.expects, st1, req, rec);
      var st3 :- ScoreFirst(seed, st2, req.targets, |req.targets|);
      var st4 :- Enforce(seed, st3);
      Ok(Reconcile(st4))
  }

  datatype Fold = Fold(state: State, tracker: Tracker, anySucceeded: bool)

  /** The folding loop over the first n experiments of a batch, in selection order. */
  function FoldFirst(env: Env, seed: string, f: Fold, batch: seq<Request>, records: seq<Record>,
                     n: nat): (r: Outcome<Fold>)
    requires |records| == |batch| && n <= |batch|
    ensures r.Ok? ==> r.value.tracker.experimentsUsed == f.tracker.experimentsUsed + n
    ensures r.Ok? ==> r.value.tracker.modelCalls == f.tracker.modelCalls && r.value.tracker.cost == f.tracker.cost
  {
    if n == 0 then Ok(f)
    else
      var f1 :- FoldFirst(env, seed, f, batch, records, n - 1);
      var failed := records[n - 1].status == FailedRun;
      var st :- FoldExperiment(env, seed, f1.state, batch[n - 1], records[n - 1]);
      Ok(Fold(st, AfterExperiment(f1.tracker, batch[n - 1].tool, failed), f1.anySucceeded || !failed))
  }

  /** _run_batch: the tools' records in selection order. */
  function RunAll(run: Request -> Record, batch: seq<Request>): (r: seq<Record>)
    ensures |r| == |batch|
    ensures forall k :: 0 <= k < |r| ==> r[k] == run(batch[k])
  {
    seq(|batch|, k requires 0 <= k < |batch| => run(batch[k]))
  }

  // Ending

  /** A call's outcome: the investigation, the tracker it leaves, and whether it stopped at the caller's cap. */
  datatype End = End(inv: Investigation, tracker: Tracker, paused: bool)

  /** _finalize: synthesis makes one policy call, which can only fail to write prose. */
  function Finalize(env: Env, inv: Investigation, t: Tracker, reason: Reason): (r: Outcome<End>)
    ensures r.Ok? ==> !r.value.paused
  {
    var st := RecordTermination(Synthesize(inv.id, inv.state, reason), reason);
    var inv1 :- AdvanceTo(inv.(state := st), TerminalStatus(reason));
    Ok(End(inv1, AfterCall(t, env.policy.callCost(inv.state, NarrateCall)), false))
  }

  predicate LifecycleOver(s: Lifecycle) {
    s == Converged || s == Exhausted || s == Failed
  }

  /** Walking the lifecycle up to `running`, as far as it is not already there. */
  function StartRunning(inv: Investigation): Outcome<Investigation> {
    var inv1 :- if inv.status == Created then AdvanceTo(inv, Planning) else Ok(inv);
    if inv1.status == Planning then AdvanceTo(inv1, Running) else Ok(inv1)
  }

  /** _fail_safe: a malformed policy answer ends the run with a conclusion. */
  function FailSafe(env: Env, inv: Investigation, t: Tracker): (r: Outcome<End>)
    ensures r.Ok? ==> !r.value.paused
  {
    var live := inv.state.termination.None?;
    var st := if live then RecordTermination(Synthesize(inv.id, inv.state, InternalError), InternalError)
              else inv.state;
    var t1 := if live then AfterCall(t, env.policy.callCost(inv.state, NarrateCall)) else t;
    if LifecycleOver(inv.status) then Ok(End(inv.(state := st), t1, false))
    else
      var inv1 :- StartRunning(inv.(state := st));
      var inv2 :- AdvanceTo(inv1, Failed);
      Ok(End(inv2, t1, false))
  }

  /** _record_unanswerable */
  function RecordUnanswerable(inv: Investigation): Outcome<Investigation> {
    var st := AddQuestion(LogDecision(inv.state, inv.id, "dec-unanswerable", []), inv.id, "q-unanswerable", []);
    StartRunning(inv.(state := st))
  }

  // Iterating

  function ExecutedTools(st: State): set<string> {
    (set k | 0 <= k < |st.completed| :: st.completed[k].tool) + (set k | 0 <= k < |st.failed| :: st.failed[k].tool)
  }

  /** What one pass of the loop body comes to. */
  datatype Pass =
    | Continue(state: State, tracker: Tracker, usedThisCall: nat)
    | Stop(end: End)

  /** The policy was asked to choose, or there was nothing to choose from. */
  function AfterChoosing(env: Env, st: State, t: Tracker, candidates: seq<Request>): Tracker {
    if candidates == [] then t else AfterCall(t, env.policy.callCost(st, ChooseCall))
  }

  function AfterCritique(env: Env, st: State, t: Tracker): Tracker {
    if ClaimToChallenge(st).None? then t else AfterCall(t, env.policy.callCost(st, CritiqueCall))
  }

  /** The end of the body: the critic speaks if anything succeeded, and the iteration is counted. */
  function ClosePass(env: Env, it: Interpretation, inv: Investigation, f: Fold, executed: set<string>,
                     used: nat): (r: Outcome<Pass>)
    ensures r.Ok? && r.value.Continue? ==>
      r.value.tracker.experimentsUsed == f.tracker.experimentsUsed && r.value.usedThisCall == used
    ensures r.Ok? && r.value.Stop? ==> !r.value.end.paused
  {
    if !f.anySucceeded then Ok(Continue(f.state.(iterationsUsed := f.state.iterationsUsed + 1), f.tracker, used))
    else
      var t := AfterCritique(env, f.state, f.tracker);
      match Challenge(env, inv.id, it, f.state, executed)
      case Ok(st) => Ok(Continue(st.(iterationsUsed := st.iterationsUsed + 1), t, used))
      case Raised(e) =>
        if e != PolicyError then Raised(e)
        else
          var end :- FailSafe(env, inv.(state := f.state), t);
          Ok(Stop(end))
  }

  /** The second half of the body: run the batch, fold it in selection order, and close the pass. */
  function RunPass(env: Env, it: Interpretation, inv: Investigation, t: Tracker, batch: seq<Request>,
                   executed: set<string>, usedThisCall: nat): (r: Outcome<Pass>)
    requires batch != []
    ensures r.Ok? && r.value.Continue? ==> r.value.tracker.experimentsUsed == t.experimentsUsed + |batch|
                                           && r.value.usedThisCall == usedThisCall + |batch|
    ensures r.Ok? && r.value.Stop? ==> !r.value.end.paused
  {
    var f :- FoldFirst(env, inv.id, Fold(inv.state, t, false), batch, RunAll(env.run, batch), |batch|);
    ClosePass(env, it, inv, f, executed + ToolsOf(batch), usedThisCall + |batch|)
  }

  /** The middle of the body: draw up candidates, let the policy lead the selection, and run what it selects. */
  function PlanPass(env: Env, it: Interpretation, inv: Investigation, t: Tracker, limit: int, executed: set<string>,
                    usedThisCall: nat): (r: Outcome<Pass>)
    ensures r.Ok? && r.value.Continue? ==> t.experimentsUsed < r.value.tracker.experimentsUsed
    ensures r.Ok? && r.value.Stop? ==> !r.value.end.paused
  {
    var st := inv.state;
    var candidates := Candidates(env, inv.id, st, it, t.toolUses);
    var t1 := AfterChoosing(env, st, t, candidates);
    match SelectBatch(env, inv.id, st, candidates, limit)
    case Raised(e) =>
      var end :- FailSafe(env, inv, t1);
      Ok(Stop(end))
    case Ok(sel) =>
      if sel.batch == [] then
        var end :- Finalize(env, inv.(state := sel.state), t1,
                            ReasonWithoutCandidates(sel.state, t1.experimentsUsed > 0));
        Ok(Stop(end))
      else
        RunPass(env, it, inv.(state := sel.state), t1, sel.batch, executed, usedThisCall)
  }

  /** The body of the while loop. */
  function PassOnce(env: Env, clock: State -> real, it: Interpretation, inv: Investigation, t: Tracker,
                    cap: Option<nat>, usedThisCall: nat): (r: Outcome<Pass>)
    ensures r.Ok? && r.value.Continue? ==> t.experimentsUsed < env.budget.maxExperiments
                                           && t.experimentsUsed < r.value.tracker.experimentsUsed
    ensures r.Ok? && r.value.Stop? && r.value.end.paused ==> cap.Some? && usedThisCall >= cap.value
  {
    var t0 := t.(elapsed := clock(inv.state));
    var executed := ExecutedTools(inv.state);
    match Decide(env, inv.state, t0, executed, IntentTools(it.intent, env.manifest))
    case Some(reason) =>
      var end :- Finalize(env, inv, t0, reason);
      Ok(Stop(end))
    case None =>
      if cap.Some? && usedThisCall >= cap.value then Ok(Stop(End(inv, t0, true)))
      else PlanPass(env, it, inv, t0, BatchLimit(t0, env.budget, cap, usedThisCall), executed, usedThisCall)
  }

  function ExperimentsLeft(env: Env, t: Tracker): nat {
    if t.experimentsUsed <= env.budget.maxExperiments then env.budget.maxExperiments - t.experimentsUsed else 0
  }

  /** The while loop: it terminates for every policy because each pass spends experiments. */
  function RunLoop(env: Env, clock: State -> real, it: Interpretation, inv: Investigation, t: Tracker, cap: Option<nat>,
                   usedThisCall: nat): (r: Outcome<End>)
    ensures cap.None? && r.Ok? ==> !r.value.paused
    decreases ExperimentsLeft(env, t)
  {
    if inv.state.termination.Some? then Ok(End(inv, t, false))
    else
      var p :- PassOnce(env, clock, it, inv, t, cap, usedThisCall);
      match p
      case Stop(end) => Ok(end)
      case Continue(st, t1, used) => RunLoop(env, clock, it, inv.(state := st), t1, cap, used)
  }

  /** InvestigationLoop._run */
  function Run(env: Env, clock: State -> real, inv: Investigation, t: Tracker, cap: Option<nat>): Outcome<End> {
    var t1 := AfterCall(t, env.policy.callCost(inv.state, InterpretCall));
    match env.policy.interpret
    case Malformed => FailSafe(env, inv, t1)
    case Reply(it) =>
      if !it.answerable && inv.state.claims == [] then
        var inv1 :- RecordUnanswerable(inv);
        Finalize(env, inv1, t1, UnanswerablePremise)
      else if inv.state.claims == [] then
        var t2 := AfterCall(t1, env.policy.callCost(inv.state, ProposeCall));
        match env.policy.propose(it)
        case Malformed => FailSafe(env, inv, t2)
        case Reply(p) =>
          var st :- Generate(env, inv.id, inv.state, p);
          var inv1 :- AdvanceTo(inv.(state := st), Planning);
          var inv2 :- AdvanceTo(inv1, Running);
          RunLoop(env, clock, it, inv2, t2, cap, 0)
      else if inv.status == Created then
        var inv1 :- AdvanceTo(inv, Planning);
        var inv2 :- AdvanceTo(inv1, Running);
        RunLoop(env, clock, it, inv2, t1, cap, 0)
      else
        RunLoop(env, clock, it, inv, t1, cap, 0)
  }

  /** _stamp_run_scoped_ids: goal, datasets and manifests are renamed from the investigation's id. */
  function StampDatasets(seed: string, datasets: seq<Dataset>): (r: seq<Dataset>)
    ensures |r| == |datasets|
    ensures forall k :: 0 <= k < |r| ==>
      r[k] == Dataset(Make(seed, "dset", k), if datasets[k].manifestId.Some? then Some(Make(seed, "mfst", k)) else None)
  {
    seq(|datasets|, k requires 0 <= k < |datasets| =>
      Dataset(Make(seed, "dset", k), if datasets[k].manifestId.Some? then Some(Make(seed, "mfst", k)) else None))
  }

  function FreshInvestigation(env: Env): Investigation {
    var inv := Investigation(env.seed, env.freshGoalId, env.freshDatasets, Created, EMPTY_STATE);
    inv.(goalId := Make(env.seed, "goal", 0), datasets := StampDatasets(env.seed, inv.datasets))
  }

  /** InvestigationLoop.start */
  function Start(env: Env, clock: State -> real, cap: Option<nat>): Outcome<End> {
    Run(env, clock, FreshInvestigation(env), FRESH_TRACKER, cap)
  }

  /** InvestigationLoop.resume */
  function Resume(env: Env, clock: State -> real, inv: Investigation, cap: Option<nat>): Outcome<End> {
    Run(env, clock, inv, RebuiltTracker(inv.state), cap)
  }
}
