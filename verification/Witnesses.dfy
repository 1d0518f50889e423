/**
 Inputs on which the code falls short of what is asked of it, each followed through a whole run: repeated work, a
 resumed run that ends for another reason, `supported` over a claim never tested, and a pause that cannot be resumed.
 */
module Witnesses {
  import opened Outcomes
  import opened Enums
  import opened Ids
  import opened Domain
  import opened Environment
  import opened Mutators
  import opened Scoring
  import opened Filing
  import opened Rivals
  import opened Criticism
  import opened Planning
  import opened Budgets
  import opened Concluding
  import opened Running
  import opened Explanation
  import opened RivalSafety
  import opened Trace
  import opened Folding
  import opened Checkpoints
  import opened Runs
  import opened Lifecycles
  import opened NoRepeatedWork
  import opened Conclusions
  import opened Resumption

  // The cases

  const TOOL := "profile_dataset"
  const OTHER := "summarize_distribution"
  const GOAL := Interpretation(General, None, None, false, true)
  const DECLINE := CritiqueProposal(false, None, None, "", None)

  /** What the tool reports: a failure without detail, or one strong item whose slope points up or down. */
  const FAILURE := Record(FailedRun, [], [], map[], [], [], "", None, "")

  /** What a tool answers where a request does not validate or its computation breaks down: a failure with a detail. */
  const REFUSAL := FAILURE.(errorDetail := Some("UNKNOWN_TOOL"))

  function Report(slope: real): Record {
    Record(SucceededRun, [], [RawEvidence("", Neutral, 1.0, Some(map["slope" := slope]))], map[], [], [], "", None, "")
  }

  /**
   Two metrics and one registered tool, which applies whenever it is asked for and always reports the same; a policy
   that claims one rise per metric named, takes the first candidate and declines to criticise; every limit but the
   experiments' out of reach.
   */
  function Case(metrics: seq<string>, rec: Record, experiments: nat): Env {
    Env("inv", "", [], Manifest(["a", "b"], [], None, false), false, tool => tool == TOOL, (_, _) => true,
        (r: Request) => if r.tool == TOOL then rec else REFUSAL, _ => Some(1),
        Policy(Reply(GOAL), _ => Reply(Claims(metrics)), (_, _) => Reply(Some(0)), (_, _, _, _) => Reply(DECLINE),
               (_, _) => 0.0),
        LoopBudget(experiments, 1, 2 * experiments + 1, 1.0, 1.0, experiments + 1),
        SafetyLimits(experiments + 1, 2, 1.0), false)
  }

  function Claims(metrics: seq<string>): Proposals {
    Proposals(seq(|metrics|, k requires 0 <= k < |metrics| => Proposal("It rises.", Some(metrics[k]))), [])
  }

  /** Time stands still. */
  function Noon(st: State): real {
    0.0
  }

  // One pass of a case

  /** What a pass needs to know of its environment. */
  ghost predicate Simple(env: Env, rec: Record) {
    && Roomy(env, 0.0) && Unhurried(env, Noon) && env.budget.maxParallel == 1 && !env.userStop
    && (forall st: State, cs: seq<Request> :: env.policy.choose(st, cs) == Reply(Some(0)))
    && (forall st: State, c: Claim, reason: ChallengeReason,
        tools: seq<string> :: env.policy.critique(st, c, reason, tools) == Reply(DECLINE))
    && (forall r: Request :: Runnable(env, r) ==> env.run(r) == rec)
  }

  lemma CaseIsSimple(metrics: seq<string>, rec: Record, experiments: nat)
    ensures Simple(Case(metrics, rec, experiments), rec)
  {
  }

  /**
   Being well-posed asks nothing of a policy that declines to criticise, nor of a tool on requests that do not
   validate: a case is well-posed although its policy declines with an empty message and its tool refuses with an
   error detail.
   */
  lemma CaseIsWellPosed(metrics: seq<string>, rec: Record, experiments: nat)
    requires Fileable(rec)
    ensures WellPosed(Case(metrics, rec, experiments))
    ensures DECLINE.message == "" && exists r :: !Fileable(Case(metrics, rec, experiments).run(r))
  {
    var refused := Request("", OTHER, map[], [], false, 0.0, PlannedRun);
    assert !Fileable(Case(metrics, rec, experiments).run(refused));
  }

  // The default critic

  /** FixtureAgentPolicy.critique: one challenge per claim, by the first tool on offer; the wording is a parameter. */
  function DefaultCritique(wording: ChallengeReason -> string, st: State, c: Claim, reason: ChallengeReason,
                           tools: seq<string>): CritiqueProposal {
    if tools == [] || exists k :: 0 <= k < |st.critiques| && st.critiques[k].targetId == c.id then DECLINE
    else CritiqueProposal(true, Some(c.id), Some(tools[0]), wording(reason), None)
  }

  /** The tools on offer are tools of the intent. */
  lemma {:induction false} OfferedAreOfIntent(tools: seq<string>, executed: set<string>)
    ensures forall t :: t in Unused(tools, executed) ==> t in tools
  {
    if tools != [] {
      OfferedAreOfIntent(tools[..|tools| - 1], executed);
    }
  }

  lemma IntentToolsFit(intent: Intent, manifest: Manifest)
    ensures forall t :: t in IntentTools(intent, manifest) ==> |t| <= MAX_SUGGESTION
  {
    forall t | t in IntentTools(intent, manifest)
      ensures |t| <= MAX_SUGGESTION
    {
      assert t in EdgarTools(intent) || t in GeneralTools(intent);
    }
  }

  lemma DefaultAnswerFits(wording: ChallengeReason -> string, st: State, c: Claim, reason: ChallengeReason,
                          tools: seq<string>)
    requires wording(reason) != "" && forall t :: t in tools ==> |t| <= MAX_SUGGESTION
    ensures ProposalFits(st, DefaultCritique(wording, st, c, reason, tools), c.id)
  {
    hide LiveConflict;
    assert tools != [] ==> tools[0] in tools;
  }

  /** An environment whose critic is the default one, whatever words it uses. */
  ghost predicate CriticIsDefault(env: Env, wording: ChallengeReason -> string) {
    && (forall reason :: wording(reason) != "")
    && (forall st: State, c: Claim, reason: ChallengeReason, tools: seq<string> ::
          env.policy.critique(st, c, reason, tools) == Reply(DefaultCritique(wording, st, c, reason, tools)))
  }

  /** The default critic's answers always fit: its message is not empty, and it suggests no tool but one on offer. */
  lemma DefaultCriticFits(env: Env, it: Interpretation, wording: ChallengeReason -> string)
    requires CriticIsDefault(env, wording)
    ensures CriticAlwaysFits(env, it)
  {
    hide ClaimToChallenge, Unused, IntentTools, ProposalFits, DefaultCritique, Consistent;
    forall seed: string, st: State, executed: set<string> | Consistent(seed, st)
      ensures CriticFits(env, it, st, executed)
    {
      var offered := Unused(IntentTools(it.intent, env.manifest), executed);
      OfferedAreOfIntent(IntentTools(it.intent, env.manifest), executed);
      IntentToolsFit(it.intent, env.manifest);
      if ClaimToChallenge(st).Some? {
        var (k, reason) := ClaimToChallenge(st).value;
        DefaultAnswerFits(wording, st, st.claims[k], reason, offered);
      }
    }
  }

  /**
   With that critic, an environment is well-posed exactly when its tools report what can be filed and no question is
   empty.
   */
  lemma DefaultCriticIsWellPosed(env: Env, wording: ChallengeReason -> string)
    requires CriticIsDefault(env, wording)
    ensures WellPosed(env) <==> (env.policy.interpret.Reply? ==> Answerable(env, env.policy.interpret.value))
  {
    hide CriticAlwaysFits;
    if env.policy.interpret.Reply? {
      DefaultCriticFits(env, env.policy.interpret.value, wording);
    }
  }

  /** Tools report what can be filed on every request the planner can draw up, and no proposed question is empty. */
  ghost predicate Answerable(env: Env, it: Interpretation) {
    && (forall r: Request :: Plannable(env, it, r) ==> Fileable(env.run(r)))
    && (env.policy.propose(it).Reply? ==> "" !in env.policy.propose(it).value.questions)
  }

  /** A head where no limit binds, nothing is contested and nothing stands is one to go on from. */
  lemma GoesOn(env: Env, rec: Record, st: State, t: Tracker, executed: set<string>, tools: seq<string>)
    requires Simple(env, rec) && Light(env, 0.0, st, t) && st.critiques == []
    requires t.consecutiveFailures < env.safety.maxConsecutiveFailures
    requires t.experimentsUsed < env.budget.maxExperiments && st.iterationsUsed < env.safety.maxIterations
    requires AnyProposed(st.claims) || !AnyStands(st.claims)
    ensures Decide(env, st, t.(elapsed := Noon(st)), executed, tools) == None
  {
    hide Roomy, Unhurried, Light;
    OnlyExperimentsBind(env, 0.0, Noon, st, t);
  }

  /** A declining critic changes nothing. */
  lemma CriticDeclines(env: Env, rec: Record, seed: string, it: Interpretation, st: State, executed: set<string>)
    requires Simple(env, rec)
    ensures Challenge(env, seed, it, st, executed) == Ok(st)
  {
    hide ClaimToChallenge, Unused, Roomy, Unhurried, Fileable;
  }

  /** Running the first candidate of a case: it is folded, and the critic, if anyone is asked about, changes nothing. */
  lemma OneRun(env: Env, rec: Record, it: Interpretation, inv: Investigation, t: Tracker, c: Request,
               executed: set<string>, used: nat)
    returns (t1: Tracker)
    requires Simple(env, rec) && Fileable(rec) && Runnable(env, c) && Consistent(inv.id, inv.state)
    requires inv.state.pending == [c]
    ensures var f := FoldExperiment(env, inv.id, inv.state, c, rec);
            && f.Ok?
            && RunPass(env, it, inv, t, [c], executed, used)
               == Ok(Continue(f.value.(iterationsUsed := f.value.iterationsUsed + 1), t1, used + 1))
    ensures t1.consecutiveFailures == if rec.status == FailedRun then t.consecutiveFailures + 1 else 0
  {
    hide FoldExperiment, Consistent, ClaimToChallenge, Fileable, Roomy, Unhurried, Challenge, Folded, CountTools;
    FoldExperimentKeeps(env, inv.id, inv.state, c, rec);
    var records, f := RunAll(env.run, [c]), FoldExperiment(env, inv.id, inv.state, c, rec);
    CriticDeclines(env, rec, inv.id, it, f.value, executed + ToolsOf([c]));
    var failed := rec.status == FailedRun;
    var u := AfterExperiment(t, c.tool, failed);
    assert FoldFirst(env, inv.id, Fold(inv.state, t, false), [c], records, 0) == Ok(Fold(inv.state, t, false));
    assert FoldFirst(env, inv.id, Fold(inv.state, t, false), [c], records, 1) == Ok(Fold(f.value, u, !failed));
    t1 := if failed then u else AfterCritique(env, f.value, u);
  }

  /** The state a selection of one leaves: one request pending, one decision more. */
  function Selected(seed: string, st: State, c: Request): State {
    LogDecision(AddRequest(st, c), seed, "dec-sel", [c.id])
  }

  /** Selecting from the candidates of a case takes the first. */
  lemma FirstIsSelected(env: Env, rec: Record, it: Interpretation, inv: Investigation, t: Tracker, c: Request)
    requires Simple(env, rec) && AtHead(inv, t)
    requires var cs := Candidates(env, inv.id, inv.state, it, t.toolUses); cs != [] && cs[0] == c
    ensures SelectBatch(env, inv.id, inv.state, Candidates(env, inv.id, inv.state, it, t.toolUses), 1)
         == Ok(Selection([c], Selected(inv.id, inv.state, c)))
    ensures Consistent(inv.id, Selected(inv.id, inv.state, c)) && Selected(inv.id, inv.state, c).pending == [c]
    ensures Runnable(env, c)
  {
    hide Candidates, Consistent, Fileable, CountTools, Roomy, Unhurried;
    assert AcceptFirst(inv.id, inv.state, [c], 0) == inv.state;
    SelectionKeeps(env, inv.id, inv.state, it, t, 1, Selection([c], Selected(inv.id, inv.state, c)));
  }

  /** A pass that goes on runs the first candidate. */
  lemma OnePass(env: Env, rec: Record, it: Interpretation, inv: Investigation, t: Tracker, cap: Option<nat>, used: nat)
    returns (p: Pass, c: Request)
    requires Simple(env, rec) && Fileable(rec) && AtHead(inv, t) && (cap.Some? ==> used < cap.value)
    requires Decide(env, inv.state, t.(elapsed := Noon(inv.state)), ExecutedTools(inv.state),
                    IntentTools(it.intent, env.manifest)) == None
    requires Candidates(env, inv.id, inv.state, it, t.toolUses) != []
    ensures c == Candidates(env, inv.id, inv.state, it, t.toolUses)[0] && Runnable(env, c)
    ensures PassOnce(env, Noon, it, inv, t, cap, used) == Ok(p) && p.Continue? && Advanced(inv, p)
    ensures p.usedThisCall == used + 1
    ensures p.tracker.consecutiveFailures == if rec.status == FailedRun then t.consecutiveFailures + 1 else 0
    ensures p.state.executed == inv.state.executed + [c.(status := rec.status)]
    ensures Consistent(inv.id, Selected(inv.id, inv.state, c)) && Selected(inv.id, inv.state, c).pending == [c]
    ensures FoldExperiment(env, inv.id, Selected(inv.id, inv.state, c), c, rec).Ok?
    ensures var f := FoldExperiment(env, inv.id, Selected(inv.id, inv.state, c), c, rec).value;
            p.state == f.(iterationsUsed := f.iterationsUsed + 1)
  {
    hide Candidates, Decide, Consistent, RunPass, FoldExperiment, Fileable, CountTools, CarryOn, Roomy, Unhurried,
         SelectBatch, Advanced;
    var st, t0 := inv.state, t.(elapsed := Noon(inv.state));
    var candidates := Candidates(env, inv.id, st, it, t.toolUses);
    c := candidates[0];
    FirstIsSelected(env, rec, it, inv, t, c);
    var t1, picked := AfterChoosing(env, st, t0, candidates), Selected(inv.id, st, c);
    var u := OneRun(env, rec, it, inv.(state := picked), t1, c, ExecutedTools(st), used);
    FoldExperimentKeeps(env, inv.id, picked, c, rec);
    var f := FoldExperiment(env, inv.id, picked, c, rec).value;
    p := Continue(f.(iterationsUsed := f.iterationsUsed + 1), u, used + 1);
    assert BatchLimit(t0, env.budget, cap, used) == 1;
    assert PlanPass(env, it, inv, t0, 1, ExecutedTools(st), used) == Ok(p);
    var last := PassOnceKeeps(env, Noon, it, inv, t, cap, used);
  }

  /** The loop goes on where its pass does. */
  lemma Unrolled(env: Env, it: Interpretation, inv: Investigation, t: Tracker, cap: Option<nat>, used: nat, p: Pass)
    requires AtHead(inv, t) && PassOnce(env, Noon, it, inv, t, cap, used) == Ok(p)
    ensures RunLoop(env, Noon, it, inv, t, cap, used)
         == match p
            case Stop(end) => Ok(end)
            case Continue(st, t1, used1) => RunLoop(env, Noon, it, inv.(state := st), t1, cap, used1)
  {
    hide PassOnce, Consistent, CountTools;
  }

  /** Room is left after a pass as before it. */
  lemma StaysRoomy(env: Env, rec: Record, it: Interpretation, inv: Investigation, t: Tracker, cap: Option<nat>,
                   used: nat, p: Pass)
    requires Simple(env, rec) && AtHead(inv, t) && Light(env, 0.0, inv.state, t) && (cap.Some? ==> used < cap.value)
    requires PassOnce(env, Noon, it, inv, t, cap, used) == Ok(p) && p.Continue?
    ensures Light(env, 0.0, p.state, p.tracker)
  {
    hide PassOnce, Consistent, CountTools, Roomy, Unhurried, Light, Fileable;
    if cap.Some? {
      CapNeedsNarrow(env, 0.0);
      CapOnlyPauses(env, Noon, it, inv, t, cap.value, used);
    }
    AlikeItself(env, t);
    PassesAlike(env, 0.0, Noon, Noon, it, inv, t, t, used, used);
  }

  // One experiment of a case

  predicate NoRivals(claims: seq<Claim>) {
    forall k :: 0 <= k < |claims| ==> claims[k].exclusiveWith == []
  }

  lemma {:induction false} NothingToSweep(seed: string, st: State, n: nat)
    requires n <= |st.claims| && NoRivals(st.claims)
    ensures SweepClaims(seed, st, n) == Ok(Sweep(st, {}))
  {
    if n > 0 {
      NothingToSweep(seed, st, n - 1);
    }
  }

  /** A failure is filed and changes neither claims nor evidence nor critiques. */
  lemma FailureIsFiled(env: Env, seed: string, st: State, c: Request)
    ensures var r := FoldExperiment(env, seed, st, c, FAILURE);
            r.Ok? && r.value.claims == st.claims && r.value.evidence == st.evidence && r.value.critiques == st.critiques
  {
  }

  /** The one item a report files, about the one claim its experiment is for. */
  predicate Bears(e: Evidence, id: string, slope: real) {
    e.hypothesisIds == [id] && e.strength == 1.0 && e.direction == (if slope > 0.0 then Supports else Refutes)
  }

  lemma ReportIsFiled(env: Env, seed: string, st: State, c: Request, slope: real, k: nat) returns (e: Evidence)
    requires k < |st.claims| && env.expects(st.claims[k].statement) == Some(1) && (slope == 1.0 || slope == -1.0)
    requires st.completed != [] && FindClaim(st.claims, st.claims[k].id) == Some(k)
    requires c.targets == [st.claims[k].id] && st.claims[k].id != ""
    ensures Bears(e, st.claims[k].id, slope)
    ensures UpdateEvidence(seed, env.expects, st, c, Report(slope)).evidence == st.evidence + [e]
  {
    hide Make, LinkFirst, FileFirst, EvidenceFrom, KnownTargets, Pairings, SignalSign;
    var id, item := st.claims[k].id, RawEvidence("", Neutral, 1.0, Some(map["slope" := slope]));
    OneTarget(st.claims, id, item);
    var pairs := [(item, Some(id))];
    var resultId, signal := st.completed[|st.completed| - 1].id, SignalSign(Report(slope));
    e := EvidenceFrom(seed, |st.evidence|, env.expects, st.claims, pairs[0], signal, resultId);
    OneFiled(seed, env.expects, st, pairs, signal, resultId);
    ReportBears(seed, env.expects, st, pairs[0], slope, k, signal, resultId);
  }

  lemma OneTarget(claims: seq<Claim>, id: string, item: RawEvidence)
    requires FindClaim(claims, id).Some?
    ensures KnownTargets(claims, [id]) == [id] && Pairings([item], [id]) == [(item, Some(id))]
  {
    hide FindClaim;
    assert [id][..0] == [] && [item][..0] == [];
  }

  lemma OneFiled(seed: string, expects: string -> Option<int>, st: State, pairs: seq<(RawEvidence, Option<string>)>,
                 signal: int, resultId: string)
    requires |pairs| == 1
    ensures FileFirst(seed, expects, st, pairs, 1, signal, resultId)
         == AddEvidence(st, EvidenceFrom(seed, |st.evidence|, expects, st.claims, pairs[0], signal, resultId))
  {
    hide AddEvidence, EvidenceFrom;
    assert FileFirst(seed, expects, st, pairs, 0, signal, resultId) == st;
  }

  lemma ReportBears(seed: string, expects: string -> Option<int>, st: State, pair: (RawEvidence, Option<string>),
                    slope: real, k: nat, signal: int, resultId: string)
    requires k < |st.claims| && expects(st.claims[k].statement) == Some(1) && (slope == 1.0 || slope == -1.0)
    requires FindClaim(st.claims, st.claims[k].id) == Some(k) && st.claims[k].id != ""
    requires pair == (RawEvidence("", Neutral, 1.0, Some(map["slope" := slope])), Some(st.claims[k].id))
    ensures Bears(EvidenceFrom(seed, |st.evidence|, expects, st.claims, pair, signal, resultId), st.claims[k].id, slope)
  {
    hide Make, FindClaim;
    assert FirstSign(pair.0.diagnostics.value, ["slope", "shift", "mean_diff"]) == Some(Sign(slope));
  }

  lemma RescoreKeepsExclusions(c: Claim, log: seq<Evidence>)
    requires Rescore(c, log).Ok?
    ensures Rescore(c, log).value.exclusiveWith == c.exclusiveWith
  {
    hide Bearing, Strongest, CanMove;
  }

  /** Rescoring moves no rival and no critique. */
  lemma ScoreKeepsRivals(seed: string, st: State, id: string)
    requires NoRivals(st.claims) && ScoreClaim(seed, st, id).Ok?
    ensures var r := ScoreClaim(seed, st, id).value;
            NoRivals(r.claims) && r.critiques == st.critiques && r.evidence == st.evidence
  {
    hide ScoreClaim, Rescore, IsTerminal;
    ScoreShape(seed, st, id);
    var found := FindClaim(st.claims, id);
    if found.Some? && Rescore(st.claims[found.value], st.evidence).Ok? {
      RescoreKeepsExclusions(st.claims[found.value], st.evidence);
    }
  }

  /** Without rivals and contradictions, folding a report adds its item and contests nothing. */
  lemma ReportFolds(env: Env, seed: string, st: State, c: Request, slope: real, k: nat) returns (e: Evidence)
    requires Consistent(seed, st) && HeadOfPending(st, c) && NoRivals(st.claims) && st.critiques == []
    requires k < |st.claims| && env.expects(st.claims[k].statement) == Some(1) && (slope == 1.0 || slope == -1.0)
    requires FindClaim(st.claims, st.claims[k].id) == Some(k) && c.targets == [st.claims[k].id] && st.claims[k].id != ""
    ensures Bears(e, st.claims[k].id, slope)
    ensures var r := FoldExperiment(env, seed, st, c, Report(slope));
            r.Ok? && r.value.evidence == st.evidence + [e] && r.value.critiques == []
  {
    hide RecordResult, UpdateEvidence, ScoreClaim, Filed, Attributed, Awaiting, RivalsApart, LogsMinted, Folded;
    FoldExperimentKeeps(env, seed, st, c, Report(slope));
    RecordResultFiles(seed, st, c, Report(slope));
    var st1 := RecordResult(seed, st, c, Report(slope)).value;
    e := ReportIsFiled(env, seed, st1, c, slope, k);
    var more := UpdateFiles(seed, env, st1, c, Report(slope));
    var st2 := UpdateEvidence(seed, env.expects, st1, c, Report(slope));
    UnlinkedKeepsIds(st1.claims, st2.claims);
    assert ScoreFirst(seed, st2, c.targets, 0) == Ok(st2);
    assert ScoreFirst(seed, st2, c.targets, 1) == ScoreClaim(seed, st2, c.targets[0]);
    ScoreKeepsRivals(seed, st2, c.targets[0]);
    var st3 := ScoreClaim(seed, st2, c.targets[0]).value;
    NothingToSweep(seed, st3, |st3.claims|);
  }

  /** What a log of one report says of its claim. */
  lemma OneReport(e: Evidence, id: string, slope: real)
    requires Bears(e, id, slope)
    ensures Bearing([e], id, Supports) == (if slope > 0.0 then [e] else [])
    ensures Bearing([e], id, Refutes) == (if slope > 0.0 then [] else [e])
    ensures Strongest([e]) == 1.0 && Strongest([]) == 0.0
  {
    assert [e][..0] == [] && [] + [e] == [e];
    BearingAppend([], e, id, Supports);
    BearingAppend([], e, id, Refutes);
  }

  /** A claim tested by one report alone is rejected where the slope points down and supported where it points up. */
  lemma VerdictOnReport(c: Claim, executed: seq<Request>, e: Evidence, slope: real)
    requires Explained(c, [e], [], executed) && c.status != Unresolved && Tested(executed, c.id)
    requires Bears(e, c.id, slope)
    ensures c.status == if slope > 0.0 then Supported else Rejected
  {
    hide Bearing, Strongest, Tested, Mentioned;
    OneReport(e, c.id, slope);
  }

  lemma ClaimIsExplained(seed: string, st: State, k: nat)
    requires Consistent(seed, st) && k < |st.claims|
    ensures Explained(st.claims[k], st.evidence, st.critiques, st.executed) && st.claims[k].status != Unresolved
  {
    assert AwaitingClaim(st.claims[k], st, {});
  }

  // The candidates of a case

  lemma OnlyToolIsConsidered(s: Setting, d: Draft, g: Group)
    requires !s.registered(OTHER) && forall k :: 0 <= k < |g.members| ==> g.members[k] < |s.claims|
    ensures ConsiderTools(s, d, g, [TOOL, OTHER], 2) == ConsiderTool(s, d, g, TOOL, 0)
  {
    assert ConsiderTools(s, d, g, [TOOL, OTHER], 1)
        == ConsiderTool(s, ConsiderTools(s, d, g, [TOOL, OTHER], 0), g, TOOL, 0);
  }

  function ConsiderBoth(s: Setting, groups: seq<Group>): Draft
    requires GroupsFit(s, groups) && |groups| == 2
  {
    ConsiderTool(s, ConsiderTool(s, Draft([], {}), groups[0], TOOL, 0), groups[1], TOOL, 0)
  }

  /** With nothing contested, the candidates are those of the groups, one each where the tool is not done. */
  lemma CandidatesPerGroup(env: Env, st: State, uses: map<string, nat>)
    requires st.critiques == [] && !env.registered(OTHER) && !env.manifest.isEdgar
    ensures var s, groups := SettingOf(env, env.seed, st, GOAL, uses), Groups(st.claims, GOAL, env.manifest);
            && GroupsFit(s, groups)
            && (|groups| == 1 ==>
                  Candidates(env, env.seed, st, GOAL, uses) == ConsiderTool(s, Draft([], {}), groups[0], TOOL, 0).out)
            && (|groups| == 2 ==> Candidates(env, env.seed, st, GOAL, uses) == ConsiderBoth(s, groups).out)
  {
    hide ConsiderTool, Groups, ExecutedKeys, ConsiderTools;
    var s, groups, d := SettingOf(env, env.seed, st, GOAL, uses), Groups(st.claims, GOAL, env.manifest), Draft([], {});
    GroupsAreInRange(st.claims, GOAL, env.manifest);
    var tools := IntentTools(General, env.manifest);
    assert tools == [TOOL, OTHER];
    assert ConsiderCritiques(s, st.critiques, 0) == d;
    if |groups| == 1 {
      OnlyToolIsConsidered(s, d, groups[0]);
      assert ConsiderGroups(s, d, groups, tools, 0) == d;
    } else if |groups| == 2 {
      OnlyToolIsConsidered(s, d, groups[0]);
      assert ConsiderGroups(s, d, groups, tools, 0) == d;
      var d1 := ConsiderTool(s, d, groups[0], TOOL, 0);
      assert ConsiderGroups(s, d, groups, tools, 1) == d1;
      OnlyToolIsConsidered(s, d1, groups[1]);
    }
  }

  // The states of a case

  /** One claim per metric, in order, named apart, without rivals, and nothing contested so far. */
  predicate Posed(st: State, metrics: seq<string>) {
    && |st.claims| == |metrics| && st.critiques == [] && NoRivals(st.claims)
    && (forall k :: 0 <= k < |metrics| ==> st.claims[k].metricRefs == [metrics[k]] && st.claims[k].id != ""
                                           && FindClaim(st.claims, st.claims[k].id) == Some(k))
  }

  /** A head of a case with room to go on. */
  ghost predicate Under(metrics: seq<string>, rec: Record, n: nat, inv: Investigation, t: Tracker) {
    && AtHead(inv, t) && inv.id == "inv" && Light(Case(metrics, rec, n), 0.0, inv.state, t)
    && Posed(inv.state, metrics)
  }

  lemma CaseStarts(metrics: seq<string>, rec: Record, n: nat) returns (inv: Investigation, t: Tracker)
    requires forall k :: 0 <= k < |metrics| ==> metrics[k] in ["a", "b"]
    ensures var env := Case(metrics, rec, n);
            forall cap :: Start(env, Noon, cap) == RunLoop(env, Noon, GOAL, inv, t, cap, 0)
    ensures Under(metrics, rec, n, inv, t) && t.consecutiveFailures == 0 && t.experimentsUsed == 0
    ensures inv.state.executed == [] && inv.state.evidence == [] && inv.state.iterationsUsed == 0
    ensures forall k :: 0 <= k < |metrics| ==> inv.state.claims[k].status == Proposed
  {
    hide RunLoop, Consistent, Start, Light, Make;
    var env := Case(metrics, rec, n);
    CaseIsSimple(metrics, rec, n);
    GenerateSucceeds(env, env.seed, Claims(metrics));
    inv, t := StartIsRunLoop(env, 0.0, Noon, GOAL);
    GeneratedClaims(env, env.seed, Claims(metrics));
    CaseIsPosed(env, metrics);
  }

  lemma CaseIsPosed(env: Env, metrics: seq<string>)
    requires env.manifest.metricNames == ["a", "b"] && !env.posesAlternatives && forall k :: 0 <= k < |metrics| ==>
      metrics[k] in ["a", "b"]
    ensures var r := Generate(env, env.seed, EMPTY_STATE, Claims(metrics)); r.Ok? && Posed(r.value, metrics)
    ensures var r := Generate(env, env.seed, EMPTY_STATE, Claims(metrics)).value;
            r.executed == [] && r.iterationsUsed == 0
  {
    hide Make;
    GenerateSucceeds(env, env.seed, Claims(metrics));
    GeneratedClaims(env, env.seed, Claims(metrics));
    var st := Generate(env, env.seed, EMPTY_STATE, Claims(metrics)).value;
    var drawn := ClaimsFrom(env.seed, Claims(metrics).hypotheses, env.manifest.metricNames, |metrics|);
    assert st.claims == [] + drawn;
    NamesFind(env.seed, st.claims);
  }

  /** Ids minted by position find their own claim. */
  lemma NamesFind(seed: string, claims: seq<Claim>)
    requires ClaimsMinted(seed, claims)
    ensures forall k :: 0 <= k < |claims| ==> claims[k].id != "" && FindClaim(claims, claims[k].id) == Some(k)
  {
    MintedClaimsDistinct(seed, claims);
    forall k | 0 <= k < |claims|
      ensures claims[k].id != "" && FindClaim(claims, claims[k].id) == Some(k)
    {
      var found := FindClaim(claims, claims[k].id);
    }
  }

  /** A state is posed as long as its claims carry on and nothing is contested. */
  lemma StaysPosed(seed: string, st: State, r: State, metrics: seq<string>)
    requires Posed(st, metrics) && CarryOn(st.claims, r.claims) && r.critiques == [] && ClaimsMinted(seed, r.claims)
    ensures Posed(r, metrics) && forall k :: 0 <= k < |metrics| ==> r.claims[k].id == st.claims[k].id
  {
    NamesFind(seed, r.claims);
    forall k | 0 <= k < |metrics|
      ensures r.claims[k].id == st.claims[k].id && r.claims[k].exclusiveWith == st.claims[k].exclusiveWith
      ensures r.claims[k].metricRefs == st.claims[k].metricRefs
    {
      assert Core(r.claims[k]).id == Core(st.claims[k]).id;
      assert Core(r.claims[k]).exclusiveWith == Core(st.claims[k]).exclusiveWith;
      assert Core(r.claims[k]).metricRefs == Core(st.claims[k]).metricRefs;
    }
  }

  predicate Known(rec: Record) {
    rec == FAILURE || rec == Report(1.0) || rec == Report(-1.0)
  }

  lemma SlopesDiffer()
    ensures Report(1.0) != Report(-1.0)
  {
    assert Report(1.0).evidence[0].diagnostics.value["slope"] != Report(-1.0).evidence[0].diagnostics.value["slope"];
  }

  /** What a pass of a case leaves of the log: as it was, or one report more about the claim it was for. */
  predicate Reported(rec: Record, log: seq<Evidence>, r: seq<Evidence>, id: string) {
    if rec == FAILURE then r == log
    else |r| == |log| + 1 && r[..|log|] == log && Bears(r[|log|], id, if rec == Report(1.0) then 1.0 else -1.0)
  }

  lemma CaseFolds(metrics: seq<string>, rec: Record, n: nat, seed: string, st: State, c: Request, k: nat)
    requires Known(rec) && Consistent(seed, st) && HeadOfPending(st, c) && Posed(st, metrics)
    requires k < |st.claims| && c.targets == [st.claims[k].id]
    ensures var r := FoldExperiment(Case(metrics, rec, n), seed, st, c, rec);
            r.Ok? ==> r.value.critiques == [] && Reported(rec, st.evidence, r.value.evidence, st.claims[k].id)
                      && (rec == FAILURE ==> r.value.claims == st.claims)
  {
    hide Consistent, FoldExperiment;
    var env := Case(metrics, rec, n);
    if rec == FAILURE {
      FailureIsFiled(env, seed, st, c);
    } else {
      var e := ReportFolds(env, seed, st, c, if rec == Report(1.0) then 1.0 else -1.0, k);
    }
  }

  /** A pass that goes on from a head of a case leaves another, with one experiment more. */
  lemma CasePass(metrics: seq<string>, rec: Record, n: nat, inv: Investigation, t: Tracker, cap: Option<nat>, used: nat,
                 k: nat)
    returns (p: Pass)
    requires Known(rec) && Under(metrics, rec, n, inv, t) && (cap.Some? ==> used < cap.value) && k < |inv.state.claims|
    requires inv.state.iterationsUsed <= t.experimentsUsed < n && t.consecutiveFailures < 2
    requires AnyProposed(inv.state.claims) || !AnyStands(inv.state.claims)
    requires var cs := Candidates(Case(metrics, rec, n), "inv", inv.state, GOAL, t.toolUses);
             cs != [] && cs[0].targets == [inv.state.claims[k].id]
    ensures PassOnce(Case(metrics, rec, n), Noon, GOAL, inv, t, cap, used) == Ok(p) && p.Continue?
    ensures p.usedThisCall == used + 1
    ensures Under(metrics, rec, n, inv.(state := p.state), p.tracker) && CarryOn(inv.state.claims, p.state.claims)
    ensures p.tracker.experimentsUsed == t.experimentsUsed + 1 && p.state.iterationsUsed == inv.state.iterationsUsed + 1
    ensures p.tracker.consecutiveFailures == if rec == FAILURE then t.consecutiveFailures + 1 else 0
    ensures forall i :: 0 <= i < |inv.state.claims| ==> p.state.claims[i].id == inv.state.claims[i].id
    ensures |p.state.executed| == |inv.state.executed| + 1
    ensures p.state.executed[..|inv.state.executed|] == inv.state.executed
    ensures var c := p.state.executed[|inv.state.executed|];
            c.tool == TOOL && c.targets == [inv.state.claims[k].id] && c.status == rec.status
    ensures Reported(rec, inv.state.evidence, p.state.evidence, inv.state.claims[k].id)
    ensures rec == FAILURE ==> p.state.claims == inv.state.claims
  {
    hide Candidates, Decide, Consistent, PassOnce, FoldExperiment, Light, RunLoop, CountTools, FindClaim;
    var env, st := Case(metrics, rec, n), inv.state;
    CaseIsSimple(metrics, rec, n);
    GoesOn(env, rec, st, t, ExecutedTools(st), IntentTools(General, env.manifest));
    var c;
    p, c := OnePass(env, rec, GOAL, inv, t, cap, used);
    StaysRoomy(env, rec, GOAL, inv, t, cap, used, p);
    CaseFolds(metrics, rec, n, "inv", Selected("inv", st, c), c, k);
    ConsistentIsMinted("inv", p.state);
    StaysPosed("inv", st, p.state, metrics);
  }

  lemma ConsistentIsMinted(seed: string, st: State)
    requires Consistent(seed, st)
    ensures ClaimsMinted(seed, st.claims)
  {
  }

  // Candidates of a case

  lemma {:induction false} UsedAtMost(executed: seq<Request>, tool: string)
    ensures TimesUsed(executed, tool) <= |executed|
  {
    if executed != [] {
      UsedAtMost(executed[..|executed| - 1], tool);
    }
  }

  /** As long as experiments are left, the tool is not spent. */
  lemma ToolIsLeft(st: State, t: Tracker, n: nat)
    requires Accounts(st, t) && t.experimentsUsed <= n
    ensures UsesOf(t.toolUses, TOOL) < n + 1
  {
    CountToolsCounts(st.executed, TOOL);
    UsedAtMost(st.executed, TOOL);
  }

  /** A request of the tool for the claim at one position. */
  predicate RanFor(st: State, r: Request, k: nat)
    requires k < |st.claims|
  {
    r.tool == TOOL && r.targets == [st.claims[k].id]
  }

  /** Experiments are remembered under the metric of the claim they were for. */
  lemma DoneKeys(st: State, metrics: seq<string>, m: Manifest, whom: seq<nat>)
    requires Posed(st, metrics) && |whom| == |st.executed|
    requires forall i :: 0 <= i < |whom| ==> whom[i] < |metrics| && RanFor(st, st.executed[i], whom[i])
    ensures forall i :: 0 <= i < |whom| ==>
      ResolvedKey(st.claims, GOAL, m, st.executed[i]) == (TOOL, Some(metrics[whom[i]]))
    ensures ExecutedKeys(st.claims, GOAL, m, st.executed) == set i | 0 <= i < |whom| :: (TOOL, Some(metrics[whom[i]]))
  {
    forall i | 0 <= i < |whom|
      ensures ResolvedKey(st.claims, GOAL, m, st.executed[i]) == (TOOL, Some(metrics[whom[i]]))
    {
      assert LookUp(st.claims, st.claims[whom[i]].id) == Some(st.claims[whom[i]]);
    }
  }

  lemma OneOpen(claims: seq<Claim>)
    requires |claims| == 1 && !IsTerminal(claims[0].status)
    ensures OpenClaims(claims) == [0]
  {
    var open := OpenClaims(claims);
    assert 0 in open;
  }

  lemma TwoOpen(claims: seq<Claim>)
    requires |claims| == 2 && !IsTerminal(claims[0].status) && !IsTerminal(claims[1].status)
    ensures OpenClaims(claims) == [0, 1]
  {
    OneOpen(claims[..1]);
  }

  /** The only claim, still open, is whom the first candidate is for. */
  lemma OpenCandidate(rec: Record, n: nat, st: State, t: Tracker, metric: string)
    requires Posed(st, [metric]) && Accounts(st, t) && t.experimentsUsed <= n && st.executed == []
    requires st.claims[0].status == Proposed
    ensures var cs := Candidates(Case([metric], rec, n), "inv", st, GOAL, t.toolUses);
            cs != [] && cs[0].targets == [st.claims[0].id]
  {
    hide Make, ParamsFor;
    var env := Case([metric], rec, n);
    OnlyRejectedIsTerminal(Proposed);
    OneOpen(st.claims);
    assert GroupFirst(st.claims, GOAL, env.manifest, [0], 0) == [];
    assert Groups(st.claims, GOAL, env.manifest) == [Group(Some(metric), [0])];
    CandidatesPerGroup(env, st, t.toolUses);
    ToolIsLeft(st, t, n);
  }

  /** The fallback's candidate names the first claim, rejected as it is. */
  lemma FallbackCandidate(rec: Record, n: nat, st: State, t: Tracker)
    requires Posed(st, ["b"]) && Accounts(st, t) && t.experimentsUsed <= n && st.claims[0].status == Rejected
    requires |st.executed| == 1 && RanFor(st, st.executed[0], 0)
    ensures var cs := Candidates(Case(["b"], rec, n), "inv", st, GOAL, t.toolUses);
            cs != [] && cs[0].targets == [st.claims[0].id]
  {
    hide Make, ParamsFor, ExecutedKeys;
    var env := Case(["b"], rec, n);
    OnlyRejectedIsTerminal(Rejected);
    assert Groups(st.claims, GOAL, env.manifest) == [Group(Some("a"), [])];
    CandidatesPerGroup(env, st, t.toolUses);
    ToolIsLeft(st, t, n);
    DoneKeys(st, ["b"], env.manifest, [0]);
  }

  /** A metric met for the first time opens a group. */
  lemma NewGroup(groups: seq<Group>, metric: Option<string>, member: nat)
    requires forall g :: 0 <= g < |groups| ==> groups[g].metric != metric
    ensures AddToGroup(groups, metric, member) == groups + [Group(metric, [member])]
  {
  }

  /** Two open claims of different metrics are two groups. */
  lemma TwoGroups(st: State, m: Manifest)
    requires Posed(st, ["a", "b"]) && st.claims[0].status == Proposed && st.claims[1].status == Proposed
    ensures Groups(st.claims, GOAL, m) == [Group(Some("a"), [0]), Group(Some("b"), [1])]
  {
    hide AddToGroup, OpenClaims, FindClaim, AllowedClaimMoves;
    OnlyRejectedIsTerminal(Proposed);
    TwoOpen(st.claims);
    NewGroup([], Some("a"), 0);
    NewGroup([Group(Some("a"), [0])], Some("b"), 1);
    assert GroupFirst(st.claims, GOAL, m, [0, 1], 0) == [];
    assert GroupFirst(st.claims, GOAL, m, [0, 1], 1) == [Group(Some("a"), [0])];
  }

  /** With two open claims the first candidate is for the first claim that has not had its experiment, if any. */
  lemma NextCandidate(rec: Record, n: nat, st: State, t: Tracker, whom: seq<nat>)
    requires Posed(st, ["a", "b"]) && Accounts(st, t) && t.experimentsUsed <= n
    requires st.claims[0].status == Proposed && st.claims[1].status == Proposed
    requires whom in [[], [0], [0, 1]] && |st.executed| == |whom| && forall i :: 0 <= i < |whom| ==>
      RanFor(st, st.executed[i], whom[i])
    ensures var cs := Candidates(Case(["a", "b"], rec, n), "inv", st, GOAL, t.toolUses);
            if whom == [0, 1] then cs == [] else cs != [] && cs[0].targets == [st.claims[|whom|].id]
  {
    hide Make, ParamsFor, ExecutedKeys, Groups;
    var env := Case(["a", "b"], rec, n);
    TwoGroups(st, env.manifest);
    CandidatesPerGroup(env, st, t.toolUses);
    ToolIsLeft(st, t, n);
    DoneKeys(st, ["a", "b"], env.manifest, whom);
    var s := SettingOf(env, "inv", st, GOAL, t.toolUses);
    assert (TOOL, Some("a")) in s.done <==> |whom| > 0 by {
      if |whom| > 0 { assert (TOOL, Some(["a", "b"][whom[0]])) in s.done; }
    }
    assert (TOOL, Some("b")) in s.done <==> |whom| > 1 by {
      if |whom| > 1 { assert (TOOL, Some(["a", "b"][whom[1]])) in s.done; }
    }
  }

  // The first pass of a case

  /** The claim of a log of one report has the verdict the report's slope gives it. */
  lemma ReportedClaim(seed: string, st: State, k: nat, slope: real)
    requires Consistent(seed, st) && st.critiques == [] && k < |st.claims| && |st.executed| == 1
    requires RanFor(st, st.executed[0], k)
    requires st.executed[0].status != FailedRun && |st.evidence| == 1 && Bears(st.evidence[0], st.claims[k].id, slope)
    ensures st.claims[k].status == if slope > 0.0 then Supported else Rejected
  {
    hide Consistent, Explained;
    ClaimIsExplained(seed, st, k);
    assert st.evidence == [st.evidence[0]];
    assert st.claims[k].id in st.executed[0].targets;
    VerdictOnReport(st.claims[k], st.executed, st.evidence[0], slope);
  }

  /** A claim no experiment was raised for is still proposed. */
  lemma SecondIsUntested(seed: string, st: State)
    requires Consistent(seed, st) && Posed(st, ["a", "b"]) && |st.executed| == 1 && RanFor(st, st.executed[0], 0)
    ensures st.claims[1].status == Proposed && !Tested(st.executed, st.claims[1].id)
    ensures st.claims[0].status == Supported ==> RestUntested(st)
  {
    hide Consistent, FindClaim;
    ClaimIsExplained(seed, st, 1);
    assert FindClaim(st.claims, st.claims[0].id) == Some(0) && FindClaim(st.claims, st.claims[1].id) == Some(1);
  }

  function FirstVerdict(rec: Record): ClaimStatus {
    if rec == FAILURE then Proposed else if rec == Report(1.0) then Supported else Rejected
  }

  /** The first candidate for the first claim, whichever the case. */
  lemma FirstCandidate(metrics: seq<string>, rec: Record, n: nat, st: State, t: Tracker)
    requires metrics in [["b"], ["a", "b"]] && Posed(st, metrics) && Accounts(st, t) && t.experimentsUsed == 0
    requires st.executed == []
    requires forall k :: 0 <= k < |metrics| ==> st.claims[k].status == Proposed
    ensures var cs := Candidates(Case(metrics, rec, n), "inv", st, GOAL, t.toolUses);
            cs != [] && cs[0].targets == [st.claims[0].id]
  {
    hide Candidates, Accounts;
    if metrics == ["b"] {
      OpenCandidate(rec, n, st, t, "b");
    } else {
      NextCandidate(rec, n, st, t, []);
    }
  }

  /** The state of a case after one experiment. */
  predicate AfterOne(metrics: seq<string>, rec: Record, st: State, t: Tracker) {
    && Posed(st, metrics) && metrics != [] && |st.executed| == 1 && RanFor(st, st.executed[0], 0)
    && st.executed[0].status == rec.status && st.iterationsUsed == 1
    && t.experimentsUsed == 1 && t.consecutiveFailures == (if rec == FAILURE then 1 else 0)
    && st.claims[0].status == FirstVerdict(rec) && (|metrics| == 2 ==> st.claims[1].status == Proposed)
  }

  /** Every case begins with an experiment for its first claim, whose report decides it. */
  lemma FirstPass(metrics: seq<string>, rec: Record, n: nat, cap: nat) returns (inv: Investigation, t: Tracker)
    requires Known(rec) && metrics in [["b"], ["a", "b"]] && 1 <= n && 1 <= cap
    ensures Under(metrics, rec, n, inv, t) && AfterOne(metrics, rec, inv.state, t)
    ensures Start(Case(metrics, rec, n), Noon, None) == RunLoop(Case(metrics, rec, n), Noon, GOAL, inv, t, None, 1)
    ensures Start(Case(metrics, rec, n), Noon, Some(cap))
         == RunLoop(Case(metrics, rec, n), Noon, GOAL, inv, t, Some(cap), 1)
  {
    hide RunLoop, PassOnce, Consistent, Candidates, Light, CountTools, Start, Decide, CarryOn, FindClaim, Unhurried,
         Posed, RestUntested;
    var env := Case(metrics, rec, n);
    var inv0, t0 := CaseStarts(metrics, rec, n);
    FirstCandidate(metrics, rec, n, inv0.state, t0);
    assert inv0.state.claims[0].status == Proposed by { PosedCounts(inv0.state, metrics); }
    PosedCounts(inv0.state, metrics);
    var p := CasePass(metrics, rec, n, inv0, t0, None, 0, 0);
    CapOnlyPauses(env, Noon, GOAL, inv0, t0, cap, 0);
    Unrolled(env, GOAL, inv0, t0, None, 0, p);
    Unrolled(env, GOAL, inv0, t0, Some(cap), 0, p);
    inv, t := inv0.(state := p.state), p.tracker;
    PosedCounts(inv.state, metrics);
    FirstIsDecided(metrics, rec, inv0.state, inv.state);
  }

  lemma PosedCounts(st: State, metrics: seq<string>)
    requires Posed(st, metrics)
    ensures |st.claims| == |metrics| && st.critiques == []
  {
  }

  lemma FirstIsDecided(metrics: seq<string>, rec: Record, st: State, r: State)
    requires Known(rec) && metrics in [["b"], ["a", "b"]] && Consistent("inv", r) && Posed(r, metrics)
    requires |r.executed| == 1 && RanFor(r, r.executed[0], 0) && r.executed[0].status == rec.status
    requires st.evidence == [] && Reported(rec, st.evidence, r.evidence, r.claims[0].id)
    requires rec == FAILURE ==> r.claims == st.claims && st.claims[0].status == Proposed
    ensures r.claims[0].status == FirstVerdict(rec) && (|metrics| == 2 ==> r.claims[1].status == Proposed)
  {
    hide Consistent, FindClaim;
    SlopesDiffer();
    if rec != FAILURE {
      ReportedClaim("inv", r, 0, if rec == Report(1.0) then 1.0 else -1.0);
    }
    if |metrics| == 2 {
      SecondIsUntested("inv", r);
    }
  }

  // A record that cannot be filed

  /** A pass that goes on to an experiment whose record cannot be filed raises. */
  lemma UnfileablePassRaises(env: Env, rec: Record, it: Interpretation, inv: Investigation, t: Tracker,
                             cap: Option<nat>, used: nat)
    requires Simple(env, rec) && !Fileable(rec) && AtHead(inv, t) && (cap.Some? ==> used < cap.value)
    requires Decide(env, inv.state, t.(elapsed := Noon(inv.state)), ExecutedTools(inv.state),
                    IntentTools(it.intent, env.manifest)) == None
    requires Candidates(env, inv.id, inv.state, it, t.toolUses) != []
    ensures PassOnce(env, Noon, it, inv, t, cap, used) == Raised(InvalidModel)
  {
    hide Candidates, Decide, Consistent, FoldExperiment, Fileable, CountTools, CarryOn, Roomy, Unhurried, SelectBatch,
         ClosePass;
    var st, t0 := inv.state, t.(elapsed := Noon(inv.state));
    var candidates := Candidates(env, inv.id, st, it, t.toolUses);
    var c := candidates[0];
    FirstIsSelected(env, rec, it, inv, t, c);
    var t1, picked := AfterChoosing(env, st, t0, candidates), Selected(inv.id, st, c);
    FoldExperimentKeeps(env, inv.id, picked, c, rec);
    var f := Fold(picked, t1, false);
    assert FoldFirst(env, inv.id, f, [c], RunAll(env.run, [c]), 0) == Ok(f);
    assert FoldFirst(env, inv.id, f, [c], RunAll(env.run, [c]), 1) == Raised(InvalidModel);
    assert BatchLimit(t0, env.budget, cap, used) == 1;
  }

  /** One claim, and a tool that breaks down: the run raises, with whatever budget and any cap of at least one. */
  lemma FailureWithDetailRaises(n: nat, cap: Option<nat>)
    requires 1 <= n && (cap.Some? ==> 1 <= cap.value)
    ensures Start(Case(["b"], REFUSAL, n), Noon, cap) == Raised(InvalidModel)
  {
    hide RunLoop, PassOnce, Consistent, Candidates, Light, CountTools, Start, Decide, FindClaim, Roomy, Unhurried;
    var env := Case(["b"], REFUSAL, n);
    CaseIsSimple(["b"], REFUSAL, n);
    var inv, t := CaseStarts(["b"], REFUSAL, n);
    assert inv.state.claims[0].status == Proposed;
    FirstCandidate(["b"], REFUSAL, n, inv.state, t);
    GoesOn(env, REFUSAL, inv.state, t, ExecutedTools(inv.state), IntentTools(General, env.manifest));
    UnfileablePassRaises(env, REFUSAL, GOAL, inv, t, cap, 0);
    RaisedEndsLoop(env, inv, t, cap);
  }

  lemma RaisedEndsLoop(env: Env, inv: Investigation, t: Tracker, cap: Option<nat>)
    requires AtHead(inv, t) && PassOnce(env, Noon, GOAL, inv, t, cap, 0) == Raised(InvalidModel)
    ensures RunLoop(env, Noon, GOAL, inv, t, cap, 0) == Raised(InvalidModel)
  {
    hide PassOnce, Consistent, CountTools;
  }

  // Repeated work

  /**
   One claim on the second metric, refuted by its first experiment: the fallback then runs the tool again, and both
   experiments are remembered as the tool on the second metric.
   */
  lemma RejectedRunRepeats(n: nat) returns (end: End)
    requires 3 <= n
    ensures Start(Case(["b"], Report(-1.0), n), Noon, Some(2)) == Ok(end) && end.paused && AtHead(end.inv, end.tracker)
    ensures |end.inv.state.claims| == 1 && end.inv.state.claims[0].status == Rejected
    ensures |end.inv.state.executed| == 2 && !KeysDistinct(end.inv.state, GOAL, Case(["b"], Report(-1.0), n).manifest)
  {
    hide RunLoop, PassOnce, Consistent, Candidates, Light, CountTools, Start, Decide, FindClaim, ExecutedKeys,
         Unhurried, Roomy;
    var rec, env := Report(-1.0), Case(["b"], Report(-1.0), n);
    SlopesDiffer();
    CaseIsSimple(["b"], rec, n);
    var inv, t := FirstPass(["b"], rec, n, 2);
    FallbackCandidate(rec, n, inv.state, t);
    var q := CasePass(["b"], rec, n, inv, t, Some(2), 1, 0);
    Unrolled(env, GOAL, inv, t, Some(2), 1, q);
    var inv2, t2 := inv.(state := q.state), q.tracker;
    end := PausesHere(env, rec, inv2, t2, 2);
    BothForFirst(inv2.state, env.manifest);
  }

  lemma BothForFirst(st: State, m: Manifest)
    requires Posed(st, ["b"]) && |st.executed| == 2 && RanFor(st, st.executed[0], 0) && RanFor(st, st.executed[1], 0)
    ensures !KeysDistinct(st, GOAL, m)
  {
    DoneKeys(st, ["b"], m, [0, 0]);
    assert KeyIn(st, GOAL, m, 0) == KeyIn(st, GOAL, m, 1);
  }

  /** At its cap a call pauses where it would have gone on. */
  lemma PausesHere(env: Env, rec: Record, inv: Investigation, t: Tracker, cap: nat) returns (end: End)
    requires Simple(env, rec) && AtHead(inv, t) && Light(env, 0.0, inv.state, t) && inv.state.critiques == []
    requires t.consecutiveFailures < env.safety.maxConsecutiveFailures
    requires t.experimentsUsed < env.budget.maxExperiments && inv.state.iterationsUsed < env.safety.maxIterations
    requires AnyProposed(inv.state.claims) || !AnyStands(inv.state.claims)
    ensures RunLoop(env, Noon, GOAL, inv, t, Some(cap), cap) == Ok(end)
    ensures end == End(inv, t.(elapsed := Noon(inv.state)), true)
  {
    hide Decide, Consistent, Light, CountTools;
    GoesOn(env, rec, inv.state, t, ExecutedTools(inv.state), IntentTools(General, env.manifest));
    end := End(inv, t.(elapsed := Noon(inv.state)), true);
  }

  // Supported over a claim never tested

  /**
   Two claims, and a budget for one experiment, which supports the first: the run is exhausted and concludes
   `supported`, though the second claim was never tested. Its one folded state is consistent.
   */
  lemma SupportedOverUntested() returns (last: State, end: End)
    ensures Consistent("inv", last) && |last.claims| == 2
    ensures last.claims[0].status == Supported && last.claims[1].status == Proposed
    ensures !Tested(last.executed, last.claims[1].id)
    ensures Start(Case(["a", "b"], Report(1.0), 1), Noon, None) == Ok(end) && !end.paused
    ensures EndedAt(last, BudgetExhausted, end.inv)
    ensures end.inv.state.conclusion.Some? && end.inv.state.conclusion.value.disposition == SupportedFinding
  {
    hide RunLoop, PassOnce, Consistent, Candidates, Light, CountTools, Start, Decide, Synthesize, EndedAt, RestUntested,
         Simple, Tested;
    var rec, env := Report(1.0), Case(["a", "b"], Report(1.0), 1);
    CaseIsSimple(["a", "b"], rec, 1);
    var inv, t := FirstPass(["a", "b"], rec, 1, 1);
    last := inv.state;
    SecondIsUntested("inv", last);
    end := SpentBudgetEnds(env, rec, inv, t, 1);
    SupportedInTheEnd("inv", last, BudgetExhausted, end.inv);
  }

  lemma SupportedInTheEnd(seed: string, last: State, reason: Reason, inv: Investigation)
    requires Consistent(seed, last) && EndedAt(last, reason, inv) && inv.id == seed && RestUntested(last)
    requires last.claims != [] && last.claims[0].status == Supported
    ensures inv.state.conclusion.Some? && inv.state.conclusion.value.disposition == SupportedFinding
  {
    hide ConclusionOf, Consistent, RestUntested, Settles;
    assert AnyWith(last.claims, Supported);
    SupportedMayHideUntested(seed, last, reason);
  }

  /** With its experiments spent a run ends as exhausted. */
  lemma SpentBudgetEnds(env: Env, rec: Record, inv: Investigation, t: Tracker, used: nat) returns (end: End)
    requires Simple(env, rec) && AtHead(inv, t) && Light(env, 0.0, inv.state, t)
    requires t.consecutiveFailures < env.safety.maxConsecutiveFailures
    requires t.experimentsUsed >= env.budget.maxExperiments && inv.state.iterationsUsed < env.safety.maxIterations
    ensures RunLoop(env, Noon, GOAL, inv, t, None, used) == Ok(end) && !end.paused && end.inv.id == inv.id
    ensures EndedAt(inv.state, BudgetExhausted, end.inv)
  {
    hide Consistent, Light, CountTools, Roomy, Unhurried, Synthesize, PlanPass, Finalize;
    OnlyExperimentsBind(env, 0.0, Noon, inv.state, t);
    var t0 := t.(elapsed := Noon(inv.state));
    FinalizeEnds(env, inv, t0, BudgetExhausted);
    end := Finalize(env, inv, t0, BudgetExhausted).value;
  }

  // A failure pending where a run stops

  /** The failures in a row are up: a run ends, whatever is left to do. */
  lemma RepeatedFailureEnds(env: Env, rec: Record, inv: Investigation, t: Tracker, used: nat) returns (end: End)
    requires Simple(env, rec) && AtHead(inv, t) && Light(env, 0.0, inv.state, t)
    requires t.consecutiveFailures >= env.safety.maxConsecutiveFailures
    requires inv.state.iterationsUsed < env.safety.maxIterations
    ensures RunLoop(env, Noon, GOAL, inv, t, None, used) == Ok(end) && EndedAt(inv.state, RepeatedFailure, end.inv)
  {
    hide Consistent, Light, CountTools, Roomy, Unhurried, Synthesize, PlanPass, Finalize;
    OnlyExperimentsBind(env, 0.0, Noon, inv.state, t);
    var t0 := t.(elapsed := Noon(inv.state));
    FinalizeEnds(env, inv, t0, RepeatedFailure);
    end := Finalize(env, inv, t0, RepeatedFailure).value;
  }

  /** Nothing is left to run, and something was never tested: a run ends for want of evidence. */
  lemma NothingLeftEnds(env: Env, rec: Record, inv: Investigation, t: Tracker, used: nat) returns (end: End)
    requires Simple(env, rec) && AtHead(inv, t) && Light(env, 0.0, inv.state, t) && inv.state.critiques == []
    requires AnyProposed(inv.state.claims)
    requires t.consecutiveFailures < env.safety.maxConsecutiveFailures && 0 < t.experimentsUsed
    requires t.experimentsUsed < env.budget.maxExperiments && inv.state.iterationsUsed < env.safety.maxIterations
    requires Candidates(env, inv.id, inv.state, GOAL, t.toolUses) == []
    ensures RunLoop(env, Noon, GOAL, inv, t, None, used) == Ok(end) && EndedAt(inv.state, InsufficientEvidence, end.inv)
  {
    hide Consistent, Light, CountTools, Roomy, Unhurried, Synthesize, Decide, Candidates, RunPass, Finalize;
    GoesOn(env, rec, inv.state, t, ExecutedTools(inv.state), IntentTools(General, env.manifest));
    var t0 := t.(elapsed := Noon(inv.state));
    FinalizeEnds(env, inv, t0, InsufficientEvidence);
    end := Finalize(env, inv, t0, InsufficientEvidence).value;
  }

  /** Two open claims whose experiments fail: the first failure leaves the second claim's turn. */
  lemma SecondFailure(n: nat, inv: Investigation, t: Tracker, used: nat) returns (p: Pass)
    requires 2 <= n && Under(["a", "b"], FAILURE, n, inv, t) && t.consecutiveFailures < 2
    requires inv.state.claims[0].status == Proposed && inv.state.claims[1].status == Proposed
    requires |inv.state.executed| == 1 && RanFor(inv.state, inv.state.executed[0], 0) && inv.state.iterationsUsed == 1
    ensures p.Continue? && Under(["a", "b"], FAILURE, n, inv.(state := p.state), p.tracker)
    ensures RunLoop(Case(["a", "b"], FAILURE, n), Noon, GOAL, inv, t, None, used)
         == RunLoop(Case(["a", "b"], FAILURE, n), Noon, GOAL, inv.(state := p.state), p.tracker, None, used + 1)
    ensures p.tracker.experimentsUsed == 2 && p.tracker.consecutiveFailures == t.consecutiveFailures + 1
    ensures p.state.iterationsUsed == 2
    ensures p.state.claims == inv.state.claims && |p.state.executed| == 2
    ensures RanFor(p.state, p.state.executed[0], 0) && RanFor(p.state, p.state.executed[1], 1)
  {
    hide RunLoop, PassOnce, Consistent, Candidates, Light, CountTools, Decide, FindClaim;
    NextCandidate(FAILURE, n, inv.state, t, [0]);
    p := CasePass(["a", "b"], FAILURE, n, inv, t, None, used, 1);
    Unrolled(Case(["a", "b"], FAILURE, n), GOAL, inv, t, None, used, p);
  }

  /**
   Two claims whose experiments fail, and a run that gives up after two failures in a row: uninterrupted it ends for
   repeated failure; stopped after the first failure and resumed, it has forgotten it, and ends for want of
   evidence.
   */
  lemma PendingFailureIsForgotten(n: nat) returns (first: End, full: End, resumed: End)
    requires 2 <= n
    ensures var env := Case(["a", "b"], FAILURE, n);
            && Roomy(env, 0.0) && Unhurried(env, Noon) && env.policy.interpret == Reply(GOAL)
            && Start(env, Noon, Some(1)) == Ok(first) && first.paused && first.inv.state.claims != []
            && !ForgetsNothing(env, first.inv.state)
            && Start(env, Noon, None) == Ok(full) && Relay(env, [Noon], first.inv, []) == Ok(resumed)
    ensures full.inv.state.termination.Some? && full.inv.state.termination.value.reason == RepeatedFailure
    ensures resumed.inv.state.termination.Some?
    ensures resumed.inv.state.termination.value.reason
         == if n == 2 then BudgetExhausted else InsufficientEvidence
  {
    hide RunLoop, PassOnce, Consistent, Candidates, Light, CountTools, Start, Resume, Decide, Roomy, Unhurried,
         Synthesize, FindClaim, Simple;
    var metrics, env := ["a", "b"], Case(["a", "b"], FAILURE, n);
    CaseIsSimple(metrics, FAILURE, n);
    SimpleIsRoomy(env, FAILURE);
    var inv, t := FirstPass(metrics, FAILURE, n, 1);
    first := PausesHere(env, FAILURE, inv, t, 1);
    var q := SecondFailure(n, inv, t, 1);
    full := RepeatedFailureEnds(env, FAILURE, inv.(state := q.state), q.tracker, 2);
    var u := ResumesFresh(n, inv, t);
    var r := SecondFailure(n, inv, u, 0);
    if n == 2 {
      resumed := SpentBudgetEnds(env, FAILURE, inv.(state := r.state), r.tracker, 1);
    } else {
      NextCandidate(FAILURE, n, r.state, r.tracker, [0, 1]);
      assert r.state.claims[0].status == Proposed;
      resumed := NothingLeftEnds(env, FAILURE, inv.(state := r.state), r.tracker, 1);
    }
  }

  lemma SimpleIsRoomy(env: Env, rec: Record)
    requires Simple(env, rec)
    ensures Roomy(env, 0.0) && Unhurried(env, Noon)
  {
  }

  /** A resumed case starts over with no failure counted. */
  lemma ResumesFresh(n: nat, inv: Investigation, t: Tracker) returns (u: Tracker)
    requires Under(["a", "b"], FAILURE, n, inv, t) && inv.state.claims != []
    ensures Resume(Case(["a", "b"], FAILURE, n), Noon, inv, None)
         == RunLoop(Case(["a", "b"], FAILURE, n), Noon, GOAL, inv, u, None, 0)
    ensures Under(["a", "b"], FAILURE, n, inv, u) && u.consecutiveFailures == 0
    ensures u.experimentsUsed == t.experimentsUsed
  {
    hide Resume, RunLoop, Consistent, CountTools, Posed;
    var env := Case(["a", "b"], FAILURE, n);
    CaseIsSimple(["a", "b"], FAILURE, n);
    ResumeIsRunLoop(env, 0.0, Noon, GOAL, inv, t, None);
    u := AfterCall(RebuiltTracker(inv.state), env.policy.callCost(inv.state, InterpretCall));
  }

  // A pause that cannot be resumed

  /** A policy that proposes nothing, and a call for no experiments: the pause has no claims, and resuming it raises. */
  lemma ClaimlessPauseOccurs(n: nat, cap: Option<nat>) returns (end: End)
    requires 1 <= n
    ensures Start(Case([], FAILURE, n), Noon, Some(0)) == Ok(end) && end.paused && end.inv.state.claims == []
    ensures AtHead(end.inv, end.tracker)
    ensures Resume(Case([], FAILURE, n), Noon, end.inv, cap) == Raised(IllegalLifecycleMove)
  {
    hide Start, Resume, Consistent;
    var env := Case([], FAILURE, n);
    assert Claims([]) == Proposals([], []);
    ClaimlessPauseIsFinal(env, Noon, GOAL, [], Noon, cap);
    end := Start(env, Noon, Some(0)).value;
  }
}
