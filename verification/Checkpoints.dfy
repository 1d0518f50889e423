/**
 What every checkpoint of every run satisfies, for any policy and any tools: the state is consistent, nothing is
 pending, the tracker agrees with what was filed, and a run that ends does so with a reason it can account for.
 */
module Checkpoints {
  import opened Outcomes
  import opened Enums
  import opened Ids
  import opened Domain
  import opened Environment
  import opened Mutators
  import opened Rivals
  import opened Criticism
  import opened Planning
  import opened Budgets
  import opened Concluding
  import opened Running
  import opened Explanation
  import opened RivalSafety
  import opened Trace
  import opened Folding
  import opened PlanningProofs

  /** The live tracker and the state count the same experiments. */
  predicate Accounts(st: State, t: Tracker) {
    t.experimentsUsed == |st.executed| && t.toolUses == CountTools(st.executed)
  }

  /** The head of an iteration. */
  predicate AtHead(inv: Investigation, t: Tracker) {
    && Consistent(inv.id, inv.state)
    && inv.state.pending == []
    && inv.state.termination.None?
    && inv.status == Running
    && Accounts(inv.state, t)
  }

  /** The registry knows the request's tool, and the tool's validator passes its parameters. */
  predicate Runnable(env: Env, r: Request) {
    env.registered(r.tool) && env.validates(r.tool, r.parameters)
  }

  /** A request the planner can draw up: it can run, and its parameters are the planner's. */
  ghost predicate Plannable(env: Env, it: Interpretation, r: Request) {
    Runnable(env, r) && r.status == PlannedRun && Parametrized(r, it, env.manifest)
  }

  /**
   A critique proposal whose fields fit the entity that is built from it: a contradiction over two standing claims, or a
   challenge that names its claim and its tool. A reply that comes to neither builds nothing, so it may say anything.
   */
  predicate ProposalFits(st: State, p: CritiqueProposal, askedAbout: string) {
    if LiveConflict(st, p, askedAbout).Some? then SuggestionFits(p.falsificationTool)
    else p.shouldChallenge && Truthy(p.targetId) && Truthy(p.falsificationTool) ==>
      p.message != "" && SuggestionFits(p.falsificationTool)
  }

  /** What the policy answers, if the critic asks it anything in this state, fits. */
  predicate CriticFits(env: Env, it: Interpretation, st: State, executed: set<string>) {
    match ClaimToChallenge(st)
    case None => true
    case Some((k, reason)) =>
      match env.policy.critique(st, st.claims[k], reason, Unused(IntentTools(it.intent, env.manifest), executed))
      case Malformed => true
      case Reply(p) => ProposalFits(st, p, st.claims[k].id)
  }

  /** In the states a run can be in, over the tools the critic can offer. */
  ghost predicate CriticAlwaysFits(env: Env, it: Interpretation) {
    forall seed: string, st: State, executed: set<string> :: Consistent(seed, st) ==> CriticFits(env, it, st, executed)
  }

  /** Records of what the planner can ask for, and the critic's answers, are values the domain's entities accept. */
  ghost predicate AnswersFit(env: Env, it: Interpretation) {
    && (forall r: Request :: Plannable(env, it, r) ==> Fileable(env.run(r)))
    && CriticAlwaysFits(env, it)
  }

  /** So are the questions proposed, under the policy's own reading of the goal. */
  ghost predicate WellPosed(env: Env) {
    env.policy.interpret.Reply? ==> FitsGoal(env, env.policy.interpret.value)
  }

  ghost predicate FitsGoal(env: Env, it: Interpretation) {
    AnswersFit(env, it) && (env.policy.propose(it).Reply? ==> "" !in env.policy.propose(it).value.questions)
  }

  // A batch

  /** The executed requests a folded batch leaves behind. */
  function Stamped(batch: seq<Request>, records: seq<Record>, n: nat): (r: seq<Request>)
    requires |records| == |batch| && n <= |batch|
    ensures |r| == n
    ensures forall k :: 0 <= k < n ==> r[k] == batch[k].(status := records[k].status)
  {
    seq(n, k requires 0 <= k < n => batch[k].(status := records[k].status))
  }

  lemma CountToolsAppend(executed: seq<Request>, r: Request)
    ensures CountTools(executed + [r]) == CountTools(executed)[r.tool := UsesOf(CountTools(executed), r.tool) + 1]
  {
    assert (executed + [r])[..|executed|] == executed;
  }

  predicate BatchFolded(seed: string, st: State, r: State, batch: seq<Request>, records: seq<Record>, n: nat)
    requires |records| == |batch| && n <= |batch|
  {
    && Consistent(seed, r) && Background(st, r)
    && r.pending == batch[n..]
    && r.executed == st.executed + Stamped(batch, records, n)
  }

  lemma FoldStep(env: Env, seed: string, st: State, t: Tracker, mid: State, batch: seq<Request>, records: seq<Record>,
                 n: nat)
    requires |records| == |batch| && 0 < n <= |batch| && DistinctRequestIds(batch)
    requires BatchFolded(seed, st, mid, batch, records, n - 1) && Accounts(mid, t)
    ensures var r := FoldExperiment(env, seed, mid, batch[n - 1], records[n - 1]);
            && (r.Ok? <==> Fileable(records[n - 1]))
            && (r.Raised? ==> r.error == InvalidModel)
            && (r.Ok? ==> BatchFolded(seed, st, r.value, batch, records, n)
                          && Accounts(r.value, AfterExperiment(t, batch[n - 1].tool,
                                                             records[n - 1].status == FailedRun)))
  {
    hide Consistent, FoldExperiment, CountTools, Fileable;
    assert mid.pending[0] == batch[n - 1];
    assert forall k :: 1 <= k < |mid.pending| ==> mid.pending[k] == batch[n - 1 + k];
    FoldExperimentKeeps(env, seed, mid, batch[n - 1], records[n - 1]);
    var done := batch[n - 1].(status := records[n - 1].status);
    CountToolsAppend(mid.executed, done);
    assert Stamped(batch, records, n) == Stamped(batch, records, n - 1) + [done];
    assert batch[n - 1..][1..] == batch[n..];
    var out := FoldExperiment(env, seed, mid, batch[n - 1], records[n - 1]);
    if out.Ok? {
      CarryOnTransitive(st.claims, mid.claims, out.value.claims);
    }
  }

  /** Folding a batch succeeds exactly when every record can be filed, and keeps the state and the accounts. */
  lemma {:induction false} FoldFirstKeeps(env: Env, seed: string, f: Fold, batch: seq<Request>, records: seq<Record>,
                                          n: nat)
    requires |records| == |batch| && n <= |batch| && DistinctRequestIds(batch)
    requires Consistent(seed, f.state) && f.state.pending == batch && Accounts(f.state, f.tracker)
    ensures var r := FoldFirst(env, seed, f, batch, records, n);
            && (r.Ok? <==> forall k :: 0 <= k < n ==> Fileable(records[k]))
            && (r.Raised? ==> r.error == InvalidModel)
            && (r.Ok? ==> BatchFolded(seed, f.state, r.value.state, batch, records, n)
                          && Accounts(r.value.state, r.value.tracker))
  {
    hide Consistent, FoldExperiment, AfterExperiment, Fileable, CountTools;
    if n == 0 {
      assert f.state.executed + Stamped(batch, records, 0) == f.state.executed;
    } else {
      FoldFirstKeeps(env, seed, f, batch, records, n - 1);
      var f1 := FoldFirst(env, seed, f, batch, records, n - 1);
      if f1.Ok? {
        FoldStep(env, seed, f.state, f1.value.tracker, f1.value.state, batch, records, n);
      }
    }
  }

  // The critic

  /** What the critic leaves alone. */
  predicate Criticised(seed: string, st: State, r: State) {
    Consistent(seed, r) && Background(st, r) && r.pending == st.pending && r.executed == st.executed
    && r.completed == st.completed && r.failed == st.failed && r.evidence == st.evidence
  }

  lemma ConflictCriticises(seed: string, st: State, a: nat, b: nat, suggested: Option<string>)
    requires Consistent(seed, st) && a < |st.claims| && b < |st.claims|
    requires st.claims[a].status == Supported && st.claims[b].status == Supported
    ensures var r := RecordConflict(seed, st, a, b, suggested);
            r.Ok? && Criticised(seed, st, r.value)
  {
    MintedClaimsDistinct(seed, st.claims);
    assert AwaitingClaim(st.claims[a], st, {}) && AwaitingClaim(st.claims[b], st, {});
    ExplainedBounds(st.claims[a], st.evidence, st.critiques, st.executed);
    ExplainedBounds(st.claims[b], st.evidence, st.critiques, st.executed);
    RecordConflictExplains(seed, st, a, b, suggested);
    RecordConflictMints(seed, st, a, b, suggested);
    var r := RecordConflict(seed, st, a, b, suggested).value;
    ConflictsKeepCores(st, r);
    ConflictsKeepRivalsApart(st, r);
  }

  lemma ChallengeCriticises(seed: string, st: State, c: Critique, targets: seq<string>)
    requires Consistent(seed, st) && c.id == Make(seed, "crit", |st.critiques|)
    ensures Criticised(seed, st, LogDecision(AddCritique(st, c), seed, "dec-crit", targets))
  {
    var st1 := AddCritique(st, c);
    AddCritiqueMints(seed, st, c);
    LogDecisionMints(seed, st1, "dec-crit", targets);
    var r := LogDecision(st1, seed, "dec-crit", targets);
    forall k | 0 <= k < |r.claims|
      ensures AwaitingClaim(r.claims[k], r, {})
    {
      assert AwaitingClaim(st.claims[k], st, {});
      MoreCritiquesExplain(st.claims[k], st, r);
    }
  }

  /** Applying a reply raises exactly where its fields do not fit, and then nothing but the rejected entity. */
  lemma ReplyApplies(seed: string, st: State, p: CritiqueProposal, askedAbout: string)
    requires Consistent(seed, st)
    ensures var r := ApplyCritique(seed, st, p, askedAbout);
            && (r.Ok? <==> ProposalFits(st, p, askedAbout))
            && (r.Raised? ==> r.error == InvalidModel)
            && (r.Ok? ==> Criticised(seed, st, r.value))
  {
    hide Consistent, RecordConflict, SuggestionFits;
    var live := LiveConflict(st, p, askedAbout);
    if live.Some? {
      ConflictCriticises(seed, st, live.value.0, live.value.1, p.falsificationTool);
    } else if Truthy(p.targetId) {
      ChallengeCriticises(seed, st, Critique(Make(seed, "crit", |st.critiques|), false, p.targetId.value, None,
                                             p.falsificationTool, false), [p.targetId.value]);
    }
  }

  /** The critic never makes an illegal move; only a malformed answer or an entity that cannot be built stops it. */
  lemma ChallengeKeeps(env: Env, seed: string, it: Interpretation, st: State, executed: set<string>)
    requires Consistent(seed, st)
    ensures var r := Challenge(env, seed, it, st, executed);
            && (r == Raised(InvalidModel) <==> !CriticFits(env, it, st, executed))
            && (r.Raised? ==> r.error == PolicyError || r.error == InvalidModel)
            && (r.Ok? ==> Criticised(seed, st, r.value))
  {
    hide Consistent, ClaimToChallenge, ApplyCritique, ProposalFits, Unused, IntentTools;
    var asked := ClaimToChallenge(st);
    if asked.Some? {
      var (k, reason) := asked.value;
      var answer := env.policy.critique(st, st.claims[k], reason,
                                        Unused(IntentTools(it.intent, env.manifest), executed));
      if answer.Reply? {
        ReplyApplies(seed, st, answer.value, st.claims[k].id);
      }
    }
  }

  // Ending

  /** What `sufficient_evidence` requires of a state, on either path to it. */
  predicate Settles(st: State) {
    && !AnyProposed(st.claims)
    && FirstOpen(st.claims, st.critiques).None?
    && AnyStands(st.claims)
  }

  /** The investigation a run that stopped for a reason in this state comes to. */
  predicate EndedAt(st: State, reason: Reason, inv: Investigation) {
    && inv.state == RecordTermination(Synthesize(inv.id, st, reason), reason)
    && inv.status == TerminalStatus(reason)
    && (reason == SufficientEvidence ==> Settles(st))
  }

  lemma FinalizeEnds(env: Env, inv: Investigation, t: Tracker, reason: Reason)
    requires inv.status == Running && (reason == SufficientEvidence ==> Settles(inv.state))
    ensures var r := Finalize(env, inv, t, reason);
            r.Ok? && r.value.inv.id == inv.id && EndedAt(inv.state, reason, r.value.inv) && !r.value.paused
  {
    hide Synthesize, Settles;
  }

  lemma FailSafeEnds(env: Env, inv: Investigation, t: Tracker)
    requires inv.status == Running || inv.status == Created || inv.status == Planning
    requires inv.state.termination.None?
    ensures var r := FailSafe(env, inv, t);
            r.Ok? && r.value.inv.id == inv.id && EndedAt(inv.state, InternalError, r.value.inv) && !r.value.paused
  {
    hide Synthesize;
  }

  lemma DecideIsHonest(env: Env, st: State, t: Tracker, executed: set<string>, tools: seq<string>)
    ensures Decide(env, st, t, executed, tools) == Some(SufficientEvidence) ==> Settles(st)
    ensures forall ranAny :: ReasonWithoutCandidates(st, ranAny) == SufficientEvidence ==> Settles(st)
  {
  }

  /**
   The run stops as sufficient exactly when no limit stops it, its state settles, and every standing claim has been
   challenged.
   */
  lemma SufficientMeans(env: Env, st: State, t: Tracker, executed: set<string>, tools: seq<string>)
    ensures Decide(env, st, t, executed, tools) == Some(SufficientEvidence)
      <==> && !env.userStop && !SafetyViolated(t, env.safety, st.iterationsUsed) && !FailedRepeatedly(t, env.safety)
           && !BudgetSpent(t, env.budget) && Settles(st)
           && (AnyUnused(tools, executed) ==>
                 forall k :: 0 <= k < |st.claims| && Stands(st.claims[k]) ==>
                   Challenged(st.critiques, st.claims[k].id, executed))
  {
    hide SafetyViolated, FailedRepeatedly, BudgetSpent, AnyProposed, AnyStands, Challenged, AnyUnused, Settled;
  }

  // One pass

  /** A pass that continues is back at the head, one iteration and at least one experiment later. */
  predicate Advanced(inv: Investigation, p: Pass) {
    && p.Continue?
    && AtHead(inv.(state := p.state), p.tracker)
    && p.state.iterationsUsed == inv.state.iterationsUsed + 1
    && CarryOn(inv.state.claims, p.state.claims)
    && inv.state.executed < p.state.executed
  }

  /** A pass that stops either pauses where it was or ends in a consistent state for an honest reason. */
  predicate StoppedWell(inv: Investigation, end: End, last: State) {
    && end.inv.id == inv.id
    && Consistent(inv.id, last) && last.pending == []
    && CarryOn(inv.state.claims, last.claims)
    && if end.paused then last == inv.state && end.inv == inv && AtHead(inv, end.tracker)
       else exists reason :: EndedAt(last, reason, end.inv)
  }

  lemma IterationCounted(seed: string, st: State)
    requires Consistent(seed, st)
    ensures Consistent(seed, st.(iterationsUsed := st.iterationsUsed + 1))
  {
    var r := st.(iterationsUsed := st.iterationsUsed + 1);
    forall k | 0 <= k < |r.claims|
      ensures AwaitingClaim(r.claims[k], r, {})
    {
      assert AwaitingClaim(st.claims[k], st, {});
    }
    assert AllLinked(st) && AllLinked(r);
  }

  ghost predicate PassWell(env: Env, it: Interpretation, inv: Investigation, r: Outcome<Pass>, last: State) {
    match r
    case Raised(e) => e == InvalidModel && !AnswersFit(env, it)
    case Ok(Continue(st, t, used)) => Advanced(inv, r.value)
    case Ok(Stop(end)) => StoppedWell(inv, end, last)
  }

  lemma FittingAnswers(env: Env, it: Interpretation, batch: seq<Request>, seed: string, st: State,
                       executed: set<string>)
    requires forall k :: 0 <= k < |batch| ==> Plannable(env, it, batch[k])
    ensures AnswersFit(env, it) ==> forall k :: 0 <= k < |batch| ==> Fileable(RunAll(env.run, batch)[k])
    ensures AnswersFit(env, it) && Consistent(seed, st) ==> CriticFits(env, it, st, executed)
  {
    hide Consistent, CriticFits, Plannable, Fileable;
  }

  /** Running and folding a selected batch. */
  lemma RunPassKeeps(env: Env, it: Interpretation, inv: Investigation, t: Tracker, batch: seq<Request>,
                     executed: set<string>, used: nat) returns (last: State)
    requires batch != [] && DistinctRequestIds(batch) && forall k :: 0 <= k < |batch| ==> Plannable(env, it, batch[k])
    requires Consistent(inv.id, inv.state) && inv.state.pending == batch && inv.state.termination.None?
    requires inv.status == Running && Accounts(inv.state, t)
    ensures var r := RunPass(env, it, inv, t, batch, executed, used);
            PassWell(env, it, inv, r, last) && (r.Ok? && r.value.Stop? ==> !r.value.end.paused)
  {
    hide Consistent, FoldFirst, Challenge, FailSafe, EndedAt, AnswersFit, CriticFits, Plannable, Fileable;
    last := inv.state;
    var records := RunAll(env.run, batch);
    FoldFirstKeeps(env, inv.id, Fold(inv.state, t, false), batch, records, |batch|);
    var out := FoldFirst(env, inv.id, Fold(inv.state, t, false), batch, records, |batch|);
    FittingAnswers(env, it, batch, inv.id, inv.state, executed);
    if out.Ok? {
      var f := out.value;
      assert batch[|batch|..] == [];
      last := f.state;
      if !f.anySucceeded {
        IterationCounted(inv.id, f.state);
      } else {
        ChallengeKeeps(env, inv.id, it, f.state, executed + ToolsOf(batch));
        FittingAnswers(env, it, batch, inv.id, f.state, executed + ToolsOf(batch));
        var answer := Challenge(env, inv.id, it, f.state, executed + ToolsOf(batch));
        if answer.Ok? {
          IterationCounted(inv.id, answer.value);
          CarryOnTransitive(inv.state.claims, f.state.claims, answer.value.claims);
        } else if answer.error == PolicyError {
          var t1 := AfterCritique(env, f.state, f.tracker);
          FailSafeEnds(env, inv.(state := f.state), t1);
        }
      }
    }
  }

  lemma ConsistentIsDistinct(seed: string, st: State)
    requires Consistent(seed, st)
    ensures DistinctIds(st.claims) && LogsMinted(seed, st)
  {
    MintedClaimsDistinct(seed, st.claims);
  }

  lemma NothingAccepted(seed: string, st: State)
    ensures AcceptFirst(seed, st, [], 0) == st
  {
  }

  /** Distinct candidates are drawn up, every one of them plannable. */
  lemma DrawnUp(env: Env, seed: string, st: State, it: Interpretation, t: Tracker)
    requires Consistent(seed, st)
    ensures DistinctRequestIds(Candidates(env, seed, st, it, t.toolUses))
    ensures forall r :: r in Candidates(env, seed, st, it, t.toolUses) ==> Plannable(env, it, r)
  {
    hide Candidates, Consistent, Parametrized, PlansAreKept;
    ConsistentIsDistinct(seed, st);
    CandidatesAreSound(env, seed, st, it, t.toolUses);
    CandidatesHaveDistinctIds(SettingOf(env, seed, st, it, t.toolUses),
                              Draft(Candidates(env, seed, st, it, t.toolUses), {}));
  }

  /** A selected batch is pending, its requests can run, their ids are distinct, and nothing else has moved. */
  lemma SelectionKeeps(env: Env, seed: string, st: State, it: Interpretation, t: Tracker, limit: int, sel: Selection)
    requires Consistent(seed, st) && st.pending == [] && 1 <= limit
    requires SelectBatch(env, seed, st, Candidates(env, seed, st, it, t.toolUses), limit) == Ok(sel)
    ensures sel.batch == [] ==> sel.state == st
    ensures DistinctRequestIds(sel.batch) && sel.state.pending == sel.batch
    ensures forall k :: 0 <= k < |sel.batch| ==> Plannable(env, it, sel.batch[k])
    ensures sel.state.(decisions := st.decisions, pending := st.pending) == st && Consistent(seed, sel.state)
  {
    hide Candidates, BatchFor, AcceptFirst, Plannable, Consistent;
    ConsistentIsDistinct(seed, st);
    var candidates := Candidates(env, seed, st, it, t.toolUses);
    NothingAccepted(seed, st);
    if candidates != [] {
      DrawnUp(env, seed, st, it, t);
      BatchIsDrawn(candidates, env.policy.choose(st, candidates).value, limit);
      assert forall k :: 0 <= k < |sel.batch| ==> sel.batch[k] in candidates;
      AcceptFirstKeeps(seed, st, sel.batch, |sel.batch|);
      assert [] + sel.batch[..|sel.batch|] == sel.batch;
      AcceptedIsConsistent(seed, st, sel.state);
    }
  }

  /** Planning, selecting and running. */
  lemma PlanPassKeeps(env: Env, it: Interpretation, inv: Investigation, t: Tracker, limit: int, executed: set<string>,
                      used: nat) returns (last: State)
    requires AtHead(inv, t) && 1 <= limit
    ensures PassWell(env, it, inv, PlanPass(env, it, inv, t, limit, executed, used), last)
  {
    hide Consistent, Candidates, RunPass, FailSafe, Finalize, EndedAt, CountTools, SelectBatch, ReasonWithoutCandidates;
    var st := inv.state;
    var candidates := Candidates(env, inv.id, st, it, t.toolUses);
    var t1 := AfterChoosing(env, st, t, candidates);
    last := st;
    match SelectBatch(env, inv.id, st, candidates, limit)
    case Raised(e) =>
      FailSafeEnds(env, inv, t1);
    case Ok(sel) =>
      SelectionKeeps(env, inv.id, st, it, t, limit, sel);
      if sel.batch == [] {
        DecideIsHonest(env, st, t1, executed, []);
        FinalizeEnds(env, inv, t1, ReasonWithoutCandidates(st, t1.experimentsUsed > 0));
      } else {
        last := RunPassKeeps(env, it, inv.(state := sel.state), t1, sel.batch, executed, used);
      }
  }

  /** Accepting a batch touches only the pending list and the decisions. */
  lemma AcceptedIsConsistent(seed: string, st: State, r: State)
    requires Consistent(seed, st) && LogsMinted(seed, r)
    requires r.(decisions := st.decisions, pending := st.pending) == st
    ensures Consistent(seed, r)
  {
    forall k | 0 <= k < |r.claims|
      ensures AwaitingClaim(r.claims[k], r, {})
    {
      assert AwaitingClaim(st.claims[k], st, {});
    }
    assert AllLinked(st) && AllLinked(r);
  }

  /** The body of the loop keeps every checkpoint, whatever the policy says and whatever the tools return. */
  lemma PassOnceKeeps(env: Env, clock: State -> real, it: Interpretation, inv: Investigation, t: Tracker,
                      cap: Option<nat>, used: nat) returns (last: State)
    requires AtHead(inv, t)
    ensures PassWell(env, it, inv, PassOnce(env, clock, it, inv, t, cap, used), last)
  {
    hide Consistent, AnswersFit, PlanPass, Finalize, Settles, EndedAt, Decide, Advanced, CountTools, IntentTools;
    last := inv.state;
    var t0 := t.(elapsed := clock(inv.state));
    var executed := ExecutedTools(inv.state);
    DecideIsHonest(env, inv.state, t0, executed, IntentTools(it.intent, env.manifest));
    match Decide(env, inv.state, t0, executed, IntentTools(it.intent, env.manifest))
    case Some(reason) =>
      FinalizeEnds(env, inv, t0, reason);
    case None =>
      if !(cap.Some? && used >= cap.value) {
        last := PlanPassKeeps(env, it, inv, t0, BatchLimit(t0, env.budget, cap, used), executed, used);
      }
  }

  // The loop

  /** How a call of the loop can come out of a state at the head. */
  ghost predicate LoopWell(env: Env, it: Interpretation, inv: Investigation, r: Outcome<End>, last: State) {
    match r
    case Raised(e) => e == InvalidModel && !AnswersFit(env, it)
    case Ok(end) =>
      && end.inv.id == inv.id
      && Consistent(inv.id, last) && last.pending == []
      && CarryOn(inv.state.claims, last.claims)
      && if end.paused then end.inv == inv.(state := last) && AtHead(end.inv, end.tracker)
         else exists reason :: EndedAt(last, reason, end.inv)
  }

  /**
   Every run from the head keeps every checkpoint and raises no illegal move; it pauses at the head or ends
   honestly.
   */
  lemma {:induction false} RunLoopKeeps(env: Env, clock: State -> real, it: Interpretation, inv: Investigation,
                                        t: Tracker, cap: Option<nat>, used: nat) returns (last: State)
    requires AtHead(inv, t)
    ensures LoopWell(env, it, inv, RunLoop(env, clock, it, inv, t, cap, used), last)
    decreases ExperimentsLeft(env, t)
  {
    hide Consistent, PassOnce, EndedAt;
    last := PassOnceKeeps(env, clock, it, inv, t, cap, used);
    var p := PassOnce(env, clock, it, inv, t, cap, used);
    if p.Ok? && p.value.Continue? {
      last := RunLoopKeeps(env, clock, it, inv.(state := p.value.state), p.value.tracker, cap, p.value.usedThisCall);
      if RunLoop(env, clock, it, inv, t, cap, used).Ok? {
        CarryOnTransitive(inv.state.claims, p.value.state.claims, last.claims);
      }
    }
  }
}
