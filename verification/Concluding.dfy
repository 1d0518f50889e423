/** TerminationPolicy and ConclusionSynthesizer: when a run stops, why, and what it concludes. */
module Concluding {
  import opened Outcomes
  import opened Enums
  import opened Ids
  import opened Domain
  import opened Environment
  import opened Mutators
  import opened Rivals
  import opened Budgets

  const SUFFICIENT_CONFIDENCE := 0.6

  predicate AnyProposed(claims: seq<Claim>) {
    exists k :: 0 <= k < |claims| && claims[k].status == Proposed
  }

  /** Supported at a confidence that can settle the run. */
  predicate Stands(c: Claim) {
    c.status == Supported && c.confidence >= SUFFICIENT_CONFIDENCE
  }

  predicate AnyStands(claims: seq<Claim>) {
    exists k :: 0 <= k < |claims| && Stands(claims[k])
  }

  /** Some critique of the claim suggested a tool that has been run. */
  predicate Challenged(critiques: seq<Critique>, id: string, executed: set<string>) {
    exists k :: 0 <= k < |critiques| && critiques[k].targetId == id
      && (if critiques[k].suggestedAction.Some? then critiques[k].suggestedAction.value else "") in executed
  }

  predicate AnyUnused(tools: seq<string>, executed: set<string>) {
    exists k :: 0 <= k < |tools| && tools[k] !in executed
  }

  /** TerminationPolicy.decide: Some(reason) stops the run. */
  function Decide(env: Env, st: State, t: Tracker, executed: set<string>, tools: seq<string>): (r: Option<Reason>)
    ensures r.None? ==> !BudgetSpent(t, env.budget) && !SafetyViolated(t, env.safety, st.iterationsUsed)
                        && !FailedRepeatedly(t, env.safety)
  {
    if env.userStop then Some(UserStop)
    else if SafetyViolated(t, env.safety, st.iterationsUsed) then Some(SafetyConstraint)
    else if FailedRepeatedly(t, env.safety) then Some(RepeatedFailure)
    else if BudgetSpent(t, env.budget) then Some(BudgetExhausted)
    else if AnyProposed(st.claims) then None
    else match FirstOpen(st.claims, st.critiques)
      case Some(c) =>
        if Truthy(c.suggestedAction) && c.suggestedAction.value !in executed then None else Some(InsufficientEvidence)
      case None =>
        if !AnyStands(st.claims) then None
        else if AnyUnused(tools, executed)
             && exists k :: 0 <= k < |st.claims| && Stands(st.claims[k])
                   && !Challenged(st.critiques, st.claims[k].id, executed)
        then None
        else Some(SufficientEvidence)
  }

  /** TerminationPolicy.finalize_no_candidates */
  function ReasonWithoutCandidates(st: State, ranAny: bool): Reason {
    if FirstOpen(st.claims, st.critiques).Some? then InsufficientEvidence
    else if AnyProposed(st.claims) then if ranAny then InsufficientEvidence else NoValidExperiment
    else if AnyStands(st.claims) then SufficientEvidence
    else if ranAny then InsufficientEvidence
    else NoValidExperiment
  }

  // Conclusion

  function WithStatus(claims: seq<Claim>, s: ClaimStatus): (r: seq<Claim>)
    ensures r == [] <==> forall k :: 0 <= k < |claims| ==> claims[k].status != s
    ensures forall c :: c in r <==> c in claims && c.status == s
  {
    if claims == [] then []
    else
      var last := claims[|claims| - 1];
      assert claims == claims[..|claims| - 1] + [last];
      WithStatus(claims[..|claims| - 1], s) + if last.status == s then [last] else []
  }

  /** Claims still active are left explicitly unresolved. */
  function ResolveFirst(claims: seq<Claim>, n: nat): (r: seq<Claim>)
    requires n <= |claims|
    ensures |r| == |claims|
    ensures forall k :: 0 <= k < |r| ==>
      r[k] == if k < n && claims[k].status == Active then claims[k].(status := Unresolved) else claims[k]
  {
    seq(|claims|, k requires 0 <= k < |claims| =>
      if k < n && claims[k].status == Active then claims[k].(status := Unresolved) else claims[k])
  }

  function IdsOf(claims: seq<Claim>): seq<string> {
    seq(|claims|, k requires 0 <= k < |claims| => claims[k].id)
  }

  function StatementsOf(claims: seq<Claim>): seq<string> {
    seq(|claims|, k requires 0 <= k < |claims| => claims[k].statement)
  }

  function QuestionIds(questions: seq<OpenQuestion>): seq<string> {
    seq(|questions|, k requires 0 <= k < |questions| => questions[k].id)
  }

  function TotalConfidence(claims: seq<Claim>): real {
    if claims == [] then 0.0 else TotalConfidence(claims[..|claims| - 1]) + claims[|claims| - 1].confidence
  }

  function MeanConfidence(claims: seq<Claim>): real
    requires claims != []
  {
    TotalConfidence(claims) / (|claims| as real)
  }

  /** The ids of the evidence pointing one way. */
  function PointingIds(log: seq<Evidence>, d: Direction): seq<string> {
    if log == [] then []
    else PointingIds(log[..|log| - 1], d) + if log[|log| - 1].direction == d then [log[|log| - 1].id] else []
  }

  /** Claims that did not hold: refuted, weakened or left undetermined. */
  function Opposed(claims: seq<Claim>): (r: seq<Claim>)
    ensures r == [] <==> forall k :: 0 <= k < |claims| ==>
      claims[k].status != Rejected && claims[k].status != Weakened && claims[k].status != Unresolved
    ensures forall c :: c in r ==> c in claims
  {
    WithStatus(claims, Rejected) + WithStatus(claims, Weakened) + WithStatus(claims, Unresolved)
  }

  /** ConclusionSynthesizer.synthesize, once the active claims have been left unresolved. */
  function ConclusionOf(seed: string, st: State, reason: Reason): Conclusion {
    var supported, rejected := WithStatus(st.claims, Supported), WithStatus(st.claims, Rejected);
    var weakened, opposed := WithStatus(st.claims, Weakened), Opposed(st.claims);
    var id, questions := Make(seed, "concl", 0), QuestionIds(st.questions);
    if supported != [] && opposed != [] then
      Conclusion(id, MixedFinding, MeanConfidence(supported + opposed), StatementsOf(supported + opposed),
                 IdsOf(supported + opposed), EvidenceIds(st.evidence), questions)
    else if supported != [] then
      Conclusion(id, SupportedFinding, MeanConfidence(supported), StatementsOf(supported), IdsOf(supported),
                 PointingIds(st.evidence, Supports), questions)
    else if rejected != [] && weakened == [] then
      Conclusion(id, RefutedFinding, 0.6, StatementsOf(rejected), IdsOf(rejected), PointingIds(st.evidence, Refutes),
                 questions)
    else if weakened != [] then
      Conclusion(id, InconclusiveFinding, 0.4, StatementsOf(weakened), IdsOf(weakened), EvidenceIds(st.evidence),
                 questions)
    else if reason == UnanswerablePremise then
      Conclusion(id, UnanswerableFinding, 0.0, [], [], [], questions)
    else
      Conclusion(id, InsufficientFinding, 0.2, [], IdsOf(st.claims), [], questions)
  }

  /** synthesize: the conclusion is set, its confidence becomes the run's, and the decision is logged. */
  function Synthesize(seed: string, st: State, reason: Reason): State {
    var st1 := st.(claims := ResolveFirst(st.claims, |st.claims|));
    var c := ConclusionOf(seed, st1, reason);
    LogDecision(st1.(conclusion := Some(c), confidence := c.confidence), seed, "dec-concl", [c.id])
  }

  /** make_termination and record_termination */
  function RecordTermination(st: State, reason: Reason): State {
    st.(termination := Some(Termination(reason, st.iterationsUsed)))
  }

  /** _TERMINAL_STATUS, with its default. */
  function TerminalStatus(reason: Reason): Lifecycle {
    match reason
    case SufficientEvidence => Converged
    case InternalError => Failed
    case SafetyConstraint => Failed
    case _ => Exhausted
  }
}
