/** Critic: which claim is worth challenging, and what the policy's reply does to the state. */
module Criticism {
  import opened Outcomes
  import opened Enums
  import opened Ids
  import opened Domain
  import opened Environment
  import opened Mutators
  import opened Rivals

  const MAX_SUGGESTION := 512

  /** Some item of the log names the claim and points this way. */
  predicate Points(log: seq<Evidence>, id: string, d: Direction) {
    exists k :: 0 <= k < |log| && id in log[k].hypothesisIds && log[k].direction == d
  }

  /** The tier a claim falls in, by its status and the directions of the evidence naming it. */
  function Tier(c: Claim, log: seq<Evidence>): Option<ChallengeReason> {
    if c.status == Supported then Some(FalseConfidence)
    else if c.status == Rejected || c.status == Unresolved then None
    else if !Mentioned(log, c.id) then None
    else
      var supports, refutes := Points(log, c.id, Supports), Points(log, c.id, Refutes);
      if supports && refutes then Some(ConflictingEvidence)
      else if !supports && !refutes then Some(UndiscriminatingEvidence)
      else if refutes then Some(UnexplainedRefutation)
      else None
  }

  /** max(tier, key=confidence): the first of the most confident claims in the tier. */
  function MostConfident(claims: seq<Claim>, log: seq<Evidence>, tier: ChallengeReason): (r: Option<nat>)
    ensures r.None? <==> forall k :: 0 <= k < |claims| ==> Tier(claims[k], log) != Some(tier)
    ensures r.Some? ==> r.value < |claims| && Tier(claims[r.value], log) == Some(tier)
    ensures r.Some? ==> forall k :: 0 <= k < |claims| && Tier(claims[k], log) == Some(tier) ==>
      claims[k].confidence <= claims[r.value].confidence
      && (k < r.value ==> claims[k].confidence < claims[r.value].confidence)
  {
    if claims == [] then None
    else
      var n := |claims| - 1;
      var best := MostConfident(claims[..n], log, tier);
      if Tier(claims[n], log) != Some(tier) then best
      else if best.None? || claims[n].confidence > claims[best.value].confidence then Some(n)
      else best
  }

  /** _claim_to_challenge: four tiers, most urgent first. */
  function ClaimToChallenge(st: State): (r: Option<(nat, ChallengeReason)>)
    ensures r.Some? ==> r.value.0 < |st.claims| && Tier(st.claims[r.value.0], st.evidence) == Some(r.value.1)
    ensures r.None? <==> forall k :: 0 <= k < |st.claims| ==> Tier(st.claims[k], st.evidence).None?
  {
    match MostConfident(st.claims, st.evidence, FalseConfidence)
    case Some(k) => Some((k, FalseConfidence))
    case None =>
      match MostConfident(st.claims, st.evidence, ConflictingEvidence)
      case Some(k) => Some((k, ConflictingEvidence))
      case None =>
        match MostConfident(st.claims, st.evidence, UndiscriminatingEvidence)
        case Some(k) => Some((k, UndiscriminatingEvidence))
        case None =>
          match MostConfident(st.claims, st.evidence, UnexplainedRefutation)
          case Some(k) => Some((k, UnexplainedRefutation))
          case None => None
  }

  predicate SuggestionFits(o: Option<string>) {
    o.Some? ==> |o.value| <= MAX_SUGGESTION
  }

  /** The pair a reported contradiction names, when both of its sides are still asserted. */
  function LiveConflict(st: State, p: CritiqueProposal, askedAbout: string): (r: Option<(nat, nat)>)
    ensures r.Some? ==> r.value.0 < |st.claims| && r.value.1 < |st.claims| && r.value.0 != r.value.1
                        && st.claims[r.value.0].status == Supported && st.claims[r.value.1].status == Supported
  {
    var target := if Truthy(p.targetId) then p.targetId.value else askedAbout;
    if !Truthy(p.contradictsId) || p.contradictsId.value == target then None
    else
      var a, b := FindClaim(st.claims, target), FindClaim(st.claims, p.contradictsId.value);
      if a.None? || b.None? then None
      else if st.claims[a.value].status != Supported || st.claims[b.value].status != Supported then None
      else Some((a.value, b.value))
  }

  /** What the critic does with the policy's reply about the claim it was asked about. */
  function ApplyCritique(seed: string, st: State, p: CritiqueProposal, askedAbout: string): Outcome<State> {
    match LiveConflict(st, p, askedAbout)
    case Some((a, b)) =>
      if !SuggestionFits(p.falsificationTool) then Raised(InvalidModel)
      else RecordConflict(seed, st, a, b, p.falsificationTool)
    case None =>
      if !p.shouldChallenge || !Truthy(p.targetId) || !Truthy(p.falsificationTool) then Ok(st)
      else if p.message == "" || !SuggestionFits(p.falsificationTool) then Raised(InvalidModel)
      else
        var st1 := AddCritique(st, Critique(Make(seed, "crit", |st.critiques|), false, p.targetId.value, None,
                                            p.falsificationTool, false));
        Ok(LogDecision(st1, seed, "dec-crit", [p.targetId.value]))
  }

  /** The tools of the intent that have not run, offered to the policy. */
  function Unused(tools: seq<string>, executed: set<string>): seq<string> {
    if tools == [] then []
    else
      var rest := Unused(tools[..|tools| - 1], executed);
      var last := tools[|tools| - 1];
      if last in executed then rest else rest + [last]
  }

  /** Critic.challenge */
  function Challenge(env: Env, seed: string, it: Interpretation, st: State, executed: set<string>): Outcome<State> {
    match ClaimToChallenge(st)
    case None => Ok(st)
    case Some((k, reason)) =>
      match env.policy.critique(st, st.claims[k], reason, Unused(IntentTools(it.intent, env.manifest), executed))
      case Malformed => Raised(PolicyError)
      case Reply(p) => ApplyCritique(seed, st, p, st.claims[k].id)
  }
}
