/**
 What the loop consults but does not compute: the dataset's manifest, the experiment registry and its tools,
 the policy, the cost and time it meets, and the limits it is given.
 */
module Environment {
  import opened Outcomes
  import opened Enums
  import opened Domain

  datatype Intent = Trend | Comparison | Correlation | AnomalyHunt | Ranking | Association
    | Distribution | Profile | General

  datatype Manifest = Manifest(
    metricNames: seq<string>,
    dimensions: seq<string>,
    entityColumn: Option<string>,
    isEdgar: bool)

  /** GoalInterpretation */
  datatype Interpretation = Interpretation(
    intent: Intent,
    metricHint: Option<string>,
    groupHint: Option<string>,
    rankDown: bool,
    answerable: bool)

  /** HypothesisProposals: statements with the metric each one names, and the follow-up questions. */
  datatype Proposal = Proposal(statement: string, metric: Option<string>)
  datatype Proposals = Proposals(hypotheses: seq<Proposal>, questions: seq<string>)

  datatype CritiqueProposal = CritiqueProposal(
    shouldChallenge: bool,
    targetId: Option<string>,
    falsificationTool: Option<string>,
    message: string,
    contradictsId: Option<string>)

  datatype ChallengeReason = FalseConfidence | ConflictingEvidence | UndiscriminatingEvidence | UnexplainedRefutation

  /** Where in a run the policy is called. */
  datatype Call = InterpretCall | ProposeCall | ChooseCall | CritiqueCall | NarrateCall

  /** What a policy call comes back with: an answer, or AgentPolicyError. */
  datatype Answer<+T> = Reply(value: T) | Malformed

  /**
   The policy as an oracle. A run never shows it the same state twice, so answers that are functions of the state
   cover every behaviour of a stateful or random policy along one run.
   */
  datatype Policy = Policy(
    interpret: Answer<Interpretation>,
    propose: Interpretation -> Answer<Proposals>,
    choose: (State, seq<Request>) -> Answer<Option<int>>,
    critique: (State, Claim, ChallengeReason, seq<string>) -> Answer<CritiqueProposal>,
    callCost: (State, Call) -> real)

  /** One item of evidence as the tool reports it, before it is filed against a claim. */
  datatype RawEvidence = RawEvidence(
    freshId: string,
    direction: Direction,
    strength: Score,
    diagnostics: Option<map<string, real>>)

  datatype RawObservation = RawObservation(freshId: string, content: string)

  /** ExperimentExecutionRecord: the fields the loop reads. The freshId fields are minted at random by the tool. */
  datatype Record = Record(
    status: ExperimentStatus,
    observations: seq<RawObservation>,
    evidence: seq<RawEvidence>,
    metrics: map<string, real>,
    statistics: seq<map<string, real>>,
    artifactIds: seq<string>,
    summary: string,
    errorDetail: Option<string>,
    freshReproducibilityId: string)

  datatype LoopBudget = LoopBudget(
    maxExperiments: nat,
    maxParallel: nat,
    maxModelCalls: nat,
    maxElapsed: real,
    maxCost: real,
    maxToolUses: nat)

  datatype SafetyLimits = SafetyLimits(maxIterations: nat, maxConsecutiveFailures: nat, maxElapsed: real)

  /** userStop covers both the caller's flag and the tracker's. */
  datatype Env = Env(
    seed: string,
    freshGoalId: string,
    freshDatasets: seq<Dataset>,
    manifest: Manifest,
    posesAlternatives: bool,
    registered: string -> bool,
    validates: (string, map<string, string>) -> bool,
    run: Request -> Record,
    expects: string -> Option<int>,
    policy: Policy,
    budget: LoopBudget,
    safety: SafetyLimits,
    userStop: bool)

  /** The bounds pydantic puts on the limits (ge=1). */
  predicate LimitsOk(env: Env) {
    && 1 <= env.budget.maxExperiments
    && 1 <= env.budget.maxParallel
    && 1 <= env.budget.maxModelCalls
    && 1 <= env.budget.maxToolUses
    && 1 <= env.safety.maxIterations
    && 1 <= env.safety.maxConsecutiveFailures
    && 0.0 < env.budget.maxElapsed && 0.0 < env.budget.maxCost && 0.0 < env.safety.maxElapsed
  }

  /** INTENT_TOOLS */
  function GeneralTools(intent: Intent): seq<string> {
    match intent
    case Trend => ["analyze_time_series_trend", "detect_change_points", "summarize_distribution"]
    case Comparison => ["compare_groups", "rank_entities"]
    case Correlation => ["analyze_correlation", "fit_simple_regression"]
    case AnomalyHunt => ["detect_outliers", "summarize_distribution"]
    case Ranking => ["rank_entities", "compare_groups"]
    case Association => ["test_association", "compare_groups"]
    case Distribution => ["summarize_distribution", "profile_dataset", "detect_outliers"]
    case Profile => ["profile_dataset", "summarize_distribution"]
    case General => ["profile_dataset", "summarize_distribution"]
  }

  /** EDGAR_INTENT_TOOLS */
  function EdgarTools(intent: Intent): seq<string> {
    match intent
    case AnomalyHunt => ["edgar_revenue_growth_analysis", "edgar_margin_quality_analysis"]
    case Trend => ["edgar_trend_break_analysis"]
    case Comparison => ["edgar_peer_comparison"]
    case _ => []
  }

  /** InvestigationLoop._intent_tools, and the planner's own copy of it. */
  function IntentTools(intent: Intent, manifest: Manifest): seq<string> {
    if manifest.isEdgar then EdgarTools(intent) + GeneralTools(intent) else GeneralTools(intent)
  }
}
