/** Critic, TerminationPolicy and ConclusionSynthesizer over the live state. */
module Judging {
  import opened Outcomes
  import opened Enums
  import opened Ids
  import opened Domain
  import opened Environment
  import opened Mutators
  import opened Rivals
  import opened Criticism
  import opened Budgets
  import opened Concluding
  import opened Entities
  import opened Tracking
  import opened Updating
  import Running

  // Critic

  /** The claims of one tier, in claim order. */
  function TierMembers(claims: seq<Claim>, log: seq<Evidence>, tier: ChallengeReason): (r: seq<nat>)
    ensures forall k :: 0 <= k < |r| ==> r[k] < |claims|
  {
    if claims == [] then []
    else
      var n := |claims| - 1;
      var rest := TierMembers(claims[..n], log, tier);
      if Tier(claims[n], log) == Some(tier) then rest + [n] else rest
  }

  /** max(members, key=confidence): the first of the most confident. */
  function FirstMax(claims: seq<Claim>, members: seq<nat>): (r: Option<nat>)
    requires forall k :: 0 <= k < |members| ==> members[k] < |claims|
    ensures r.Some? <==> members != []
    ensures r.Some? ==> r.value < |claims|
  {
    if members == [] then None
    else
      var last, best := members[|members| - 1], FirstMax(claims, members[..|members| - 1]);
      if best.None? || claims[last].confidence > claims[best.value].confidence then Some(last) else best
  }

  lemma {:induction false} FirstMaxOfPrefix(claims: seq<Claim>, members: seq<nat>, n: nat)
    requires n <= |claims| && forall k :: 0 <= k < |members| ==> members[k] < n
    ensures FirstMax(claims[..n], members) == FirstMax(claims, members)
    decreases |members|
  {
    if members != [] {
      FirstMaxOfPrefix(claims, members[..|members| - 1], n);
    }
  }

  /** Listing a tier and taking its maximum finds the tier's most confident claim. */
  lemma {:induction false} MaxOfTier(claims: seq<Claim>, log: seq<Evidence>, tier: ChallengeReason)
    ensures FirstMax(claims, TierMembers(claims, log, tier)) == MostConfident(claims, log, tier)
  {
    hide Tier;
    if claims != [] {
      var n := |claims| - 1;
      MaxOfTier(claims[..n], log, tier);
      var rest := TierMembers(claims[..n], log, tier);
      FirstMaxOfPrefix(claims, rest, n);
      assert (rest + [n])[..|rest|] == rest;
    }
  }

  method MaxOf(st: InvestigationState, members: seq<nat>) returns (best: Option<nat>)
    requires forall k :: 0 <= k < |members| ==> members[k] < |st.hypotheses|
    ensures best == FirstMax(st.View().claims, members)
  {
    best := None;
    for n := 0 to |members|
      invariant best == FirstMax(st.View().claims, members[..n])
    {
      assert members[..n + 1][..n] == members[..n];
      if best.None? || st.hypotheses[members[n]].confidence > st.hypotheses[best.value].confidence {
        best := Some(members[n]);
      }
    }
    assert members[..|members|] == members;
  }

  /** The directions of the evidence that names a claim. */
  method DirectionsOf(st: InvestigationState, id: string) returns (ds: set<Direction>)
    ensures forall d :: d in ds <==> Points(st.evidence, id, d)
    ensures ds == {} <==> !Mentioned(st.evidence, id)
  {
    ds := {};
    for n := 0 to |st.evidence|
      invariant forall d :: d in ds <==> Points(st.evidence[..n], id, d)
      invariant ds == {} <==> !Mentioned(st.evidence[..n], id)
    {
      if id in st.evidence[n].hypothesisIds {
        ds := ds + {st.evidence[n].direction};
      }
      PointsOneMore(st.evidence, id, n);
    }
    assert st.evidence[..|st.evidence|] == st.evidence;
  }

  lemma PointsOneMore(log: seq<Evidence>, id: string, n: nat)
    requires n < |log|
    ensures forall d ::
      Points(log[..n + 1], id, d) <==> Points(log[..n], id, d) || (id in log[n].hypothesisIds && log[n].direction == d)
    ensures Mentioned(log[..n + 1], id) <==> Mentioned(log[..n], id) || id in log[n].hypothesisIds
  {
    var one, more := log[..n], log[..n + 1];
    assert forall k :: 0 <= k < n ==> more[k] == one[k];
    assert more[n] == log[n];
    forall d
      ensures Points(more, id, d) <==> Points(one, id, d) || (id in log[n].hypothesisIds && log[n].direction == d) {
      if Points(one, id, d) {
        var k :| 0 <= k < |one| && id in one[k].hypothesisIds && one[k].direction == d;
        assert id in more[k].hypothesisIds && more[k].direction == d;
      }
      if Points(more, id, d) {
        var k :| 0 <= k < |more| && id in more[k].hypothesisIds && more[k].direction == d;
        assert k == n || (id in one[k].hypothesisIds && one[k].direction == d);
      }
    }
    if Mentioned(one, id) {
      var k :| 0 <= k < |one| && id in one[k].hypothesisIds;
      assert id in more[k].hypothesisIds;
    }
    if Mentioned(more, id) {
      var k :| 0 <= k < |more| && id in more[k].hypothesisIds;
      assert k == n || id in one[k].hypothesisIds;
    }
  }

  /** The tier of one claim that is not supported, as the second loop of _claim_to_challenge sorts it. */
  method TierOf(st: InvestigationState, h: Hypothesis) returns (tier: Option<ChallengeReason>)
    requires h.status != Supported
    ensures tier == Tier(h.View(), st.evidence)
  {
    if h.status == Rejected || h.status == Unresolved {
      return None;
    }
    var directions := DirectionsOf(st, h.id);
    if directions == {} {
      return None;
    }
    var supports, refutes := Supports in directions, Refutes in directions;
    if supports && refutes {
      return Some(ConflictingEvidence);
    } else if !supports && !refutes {
      return Some(UndiscriminatingEvidence);
    } else if refutes {
      return Some(UnexplainedRefutation);
    }
    return None;
  }

  method SupportedMembers(st: InvestigationState) returns (members: seq<nat>)
    ensures members == TierMembers(st.View().claims, st.evidence, FalseConfidence)
  {
    hide Mentioned, Points;
    members := [];
    ghost var claims := st.View().claims;
    for n := 0 to |st.hypotheses|
      invariant members == TierMembers(claims[..n], st.evidence, FalseConfidence)
    {
      assert claims[..n + 1][..n] == claims[..n];
      if st.hypotheses[n].status == Supported {
        members := members + [n];
      }
    }
    assert claims[..|st.hypotheses|] == claims;
  }

  /** The three lists below the first tier, for a state none of whose claims is supported. */
  method SortIntoTiers(st: InvestigationState)
    returns (conflicting: seq<nat>, undiscriminating: seq<nat>, unexplained: seq<nat>)
    requires forall k :: 0 <= k < |st.View().claims| ==> st.View().claims[k].status != Supported
    ensures conflicting == TierMembers(st.View().claims, st.evidence, ConflictingEvidence)
    ensures undiscriminating == TierMembers(st.View().claims, st.evidence, UndiscriminatingEvidence)
    ensures unexplained == TierMembers(st.View().claims, st.evidence, UnexplainedRefutation)
  {
    hide Tier;
    conflicting, undiscriminating, unexplained := [], [], [];
    ghost var claims := st.View().claims;
    for n := 0 to |st.hypotheses|
      invariant conflicting == TierMembers(claims[..n], st.evidence, ConflictingEvidence)
      invariant undiscriminating == TierMembers(claims[..n], st.evidence, UndiscriminatingEvidence)
      invariant unexplained == TierMembers(claims[..n], st.evidence, UnexplainedRefutation)
    {
      assert claims[..n + 1][..n] == claims[..n];
      var tier := TierOf(st, st.hypotheses[n]);
      assert tier == Tier(claims[n], st.evidence);
      if tier == Some(ConflictingEvidence) {
        conflicting := conflicting + [n];
      } else if tier == Some(UndiscriminatingEvidence) {
        undiscriminating := undiscriminating + [n];
      } else if tier == Some(UnexplainedRefutation) {
        unexplained := unexplained + [n];
      }
    }
    assert claims[..|st.hypotheses|] == claims;
  }

  lemma NobodySupported(claims: seq<Claim>, log: seq<Evidence>)
    requires MostConfident(claims, log, FalseConfidence).None?
    ensures forall k :: 0 <= k < |claims| ==> claims[k].status != Supported
  {
    hide MostConfident;
    forall k | 0 <= k < |claims|
      ensures claims[k].status != Supported
    {
      assert Tier(claims[k], log) != Some(FalseConfidence);
    }
  }

  /** _claim_to_challenge */
  method ClaimWorthChallenging(st: InvestigationState) returns (asked: Option<(nat, ChallengeReason)>)
    ensures asked == ClaimToChallenge(st.View())
  {
    hide TierMembers, MostConfident, FirstMax, Mentioned, Points, Tier, Views;
    ghost var claims := st.View().claims;
    var supported := SupportedMembers(st);
    MaxOfTier(claims, st.evidence, FalseConfidence);
    if supported != [] {
      var best := MaxOf(st, supported);
      return Some((best.value, FalseConfidence));
    }
    NobodySupported(claims, st.evidence);
    var conflicting, undiscriminating, unexplained := SortIntoTiers(st);
    MaxOfTier(claims, st.evidence, ConflictingEvidence);
    MaxOfTier(claims, st.evidence, UndiscriminatingEvidence);
    MaxOfTier(claims, st.evidence, UnexplainedRefutation);
    if conflicting != [] {
      var best := MaxOf(st, conflicting);
      return Some((best.value, ConflictingEvidence));
    }
    if undiscriminating != [] {
      var best := MaxOf(st, undiscriminating);
      return Some((best.value, UndiscriminatingEvidence));
    }
    if unexplained != [] {
      var best := MaxOf(st, unexplained);
      return Some((best.value, UnexplainedRefutation));
    }
    return None;
  }

  method UnusedTools(tools: seq<string>, executed: set<string>) returns (unused: seq<string>)
    ensures unused == Unused(tools, executed)
  {
    unused := [];
    for n := 0 to |tools|
      invariant unused == Unused(tools[..n], executed)
    {
      assert tools[..n + 1][..n] == tools[..n];
      if tools[n] !in executed {
        unused := unused + [tools[n]];
      }
    }
    assert tools[..|tools|] == tools;
  }

  /** A live conflict decides what applying the reply comes to. */
  lemma LiveConflictApplied(seed: string, st: State, p: CritiqueProposal, askedAbout: string)
    ensures var live := LiveConflict(st, p, askedAbout);
            live.Some? ==>
              ApplyCritique(seed, st, p, askedAbout)
              == if SuggestionFits(p.falsificationTool)
                 then RecordConflict(seed, st, live.value.0, live.value.1, p.falsificationTool)
                 else Raised(InvalidModel)
  {
    hide LiveConflict, RecordConflict;
  }

  /** _record_contradiction: acts on a reported conflict between two claims that are both still asserted. */
  method RecordContradiction(seed: string, st: InvestigationState, p: CritiqueProposal, askedAbout: string)
    returns (recorded: bool, o: Outcome<()>)
    requires st.Valid()
    modifies st`critiques, st`decisions, st`openQuestions, st.hypotheses
    ensures recorded <==> LiveConflict(old(st.View()), p, askedAbout).Some?
    ensures recorded ==> Refines(o, ApplyCritique(seed, old(st.View()), p, askedAbout), st.View())
    ensures !recorded ==> st.View() == old(st.View())
  {
    hide FindClaim, RecordConflict, Views, SuggestionFits, ApplyCritique;
    o := Ok(());
    LiveConflictApplied(seed, st.View(), p, askedAbout);
    var target := if Truthy(p.targetId) then p.targetId.value else askedAbout;
    if !Truthy(p.contradictsId) || p.contradictsId.value == target {
      return false, o;
    }
    var a := st.FindHypothesis(target);
    var b := st.FindHypothesis(p.contradictsId.value);
    if a.None? || b.None? {
      return false, o;
    }
    assert st.hypotheses[a.value].View() == st.View().claims[a.value]
           && st.hypotheses[b.value].View() == st.View().claims[b.value];
    if st.hypotheses[a.value].status != Supported || st.hypotheses[b.value].status != Supported {
      return false, o;
    }
    if !SuggestionFits(p.falsificationTool) {
      return true, Raised(InvalidModel);
    }
    o := RecordConflictOver(seed, st, a.value, b.value, p.falsificationTool);
    recorded := true;
  }

  /** What the critic does with the policy's reply. */
  method Apply(seed: string, st: InvestigationState, p: CritiqueProposal, askedAbout: string) returns (o: Outcome<()>)
    requires st.Valid()
    modifies st`critiques, st`decisions, st`openQuestions, st.hypotheses
    ensures Refines(o, ApplyCritique(seed, old(st.View()), p, askedAbout), st.View())
  {
    hide LiveConflict, RecordConflict, Views;
    var recorded: bool;
    recorded, o := RecordContradiction(seed, st, p, askedAbout);
    if recorded {
      return;
    }
    if !p.shouldChallenge || !Truthy(p.targetId) || !Truthy(p.falsificationTool) {
      return Ok(());
    }
    if p.message == "" || !SuggestionFits(p.falsificationTool) {
      return Raised(InvalidModel);
    }
    st.AddCritique(Critique(Make(seed, "crit", |st.critiques|), false, p.targetId.value, None,
                             p.falsificationTool, false));
    st.RecordDecision(seed, "dec-crit", [p.targetId.value]);
    return Ok(());
  }

  /** Only the policy's own answer is a policy error. */
  lemma ApplyingIsNoPolicyError(seed: string, st: State, p: CritiqueProposal, askedAbout: string)
    ensures ApplyCritique(seed, st, p, askedAbout) != Raised(PolicyError)
  {
    hide FindClaim, CanMove;
  }

  /** Critic.challenge: a malformed reply leaves the state as it was. */
  method ChallengeClaims(env: Env, seed: string, it: Interpretation, st: InvestigationState, executed: set<string>,
                         tracker: BudgetTracker)
    returns (o: Outcome<()>)
    requires st.Valid()
    modifies st`critiques, st`decisions, st`openQuestions, st.hypotheses, tracker
    ensures Refines(o, Challenge(env, seed, it, old(st.View()), executed), st.View())
    ensures o == Raised(PolicyError) ==> st.View() == old(st.View())
    ensures tracker.View() == Running.AfterCritique(env, old(st.View()), old(tracker.View()))
  {
    hide ClaimToChallenge, ApplyCritique, Views, Unused, IntentTools, AfterCall;
    var asked := ClaimWorthChallenging(st);
    if asked.None? {
      return Ok(());
    }
    var (k, reason) := asked.value;
    var h := st.hypotheses[k];
    assert h.View() == st.View().claims[k];
    var available := UnusedTools(IntentTools(it.intent, env.manifest), executed);
    tracker.Charge(env.policy.callCost(st.View(), CritiqueCall));
    match env.policy.critique(st.View(), h.View(), reason, available) {
      case Malformed =>
        return Raised(PolicyError);
      case Reply(p) =>
        ApplyingIsNoPolicyError(seed, st.View(), p, h.id);
        o := Apply(seed, st, p, h.id);
    }
  }

  // TerminationPolicy

  method SomeProposed(st: InvestigationState) returns (b: bool)
    ensures b == AnyProposed(st.View().claims)
  {
    var n := 0;
    while n < |st.hypotheses|
      invariant 0 <= n <= |st.hypotheses|
      invariant forall k :: 0 <= k < n ==> st.View().claims[k].status != Proposed
    {
      if st.hypotheses[n].status == Proposed {
        assert st.View().claims[n].status == Proposed;
        return true;
      }
      n := n + 1;
    }
    return false;
  }

  /** open_contradictions, as far as its first element. */
  method FirstOpenContradiction(st: InvestigationState) returns (c: Option<Critique>)
    ensures c == FirstOpen(st.View().claims, st.critiques)
  {
    hide Settled, Views;
    var n := 0;
    while n < |st.critiques|
      invariant 0 <= n <= |st.critiques|
      invariant FirstOpen(st.View().claims, st.critiques) == FirstOpen(st.View().claims, st.critiques[n..])
    {
      var settled := IsSettled(st, st.critiques[n]);
      if st.critiques[n].isContradiction && !settled {
        return Some(st.critiques[n]);
      }
      assert st.critiques[n..][1..] == st.critiques[n + 1..];
      n := n + 1;
    }
    return None;
  }

  /** The supported claims that can settle the run. */
  method StandingClaims(st: InvestigationState) returns (standing: seq<nat>)
    ensures standing != [] <==> AnyStands(st.View().claims)
    ensures forall k :: k in standing <==> 0 <= k < |st.hypotheses| && Stands(st.View().claims[k])
    ensures forall j :: 0 <= j < |standing| ==> standing[j] < |st.hypotheses|
  {
    standing := [];
    for n := 0 to |st.hypotheses|
      invariant forall j :: 0 <= j < |standing| ==> standing[j] < n
      invariant forall k :: k in standing <==> 0 <= k < n && Stands(st.View().claims[k])
    {
      if st.hypotheses[n].status == Supported && st.hypotheses[n].confidence >= SUFFICIENT_CONFIDENCE {
        assert Stands(st.View().claims[n]);
        standing := standing + [n];
      } else {
        assert !Stands(st.View().claims[n]);
      }
    }
    if standing != [] {
      assert standing[0] in standing;
    }
  }

  /** Some critique of the claim suggested a tool that has been run. */
  method WasChallenged(critiques: seq<Critique>, id: string, executed: set<string>) returns (b: bool)
    ensures b == Challenged(critiques, id, executed)
  {
    var n := 0;
    while n < |critiques|
      invariant 0 <= n <= |critiques|
      invariant forall k :: 0 <= k < n ==>
        !(critiques[k].targetId == id
          && (if critiques[k].suggestedAction.Some? then critiques[k].suggestedAction.value else "") in executed)
    {
      var c := critiques[n];
      if c.targetId == id && (if c.suggestedAction.Some? then c.suggestedAction.value else "") in executed {
        return true;
      }
      n := n + 1;
    }
    return false;
  }

  /** TerminationPolicy.decide */
  method DecideStop(env: Env, st: InvestigationState, tracker: BudgetTracker, executed: set<string>, tools: seq<string>)
    returns (reason: Option<Reason>)
    ensures reason == Decide(env, st.View(), tracker.View(), executed, tools)
  {
    hide AnyProposed, FirstOpen, Stands, AnyStands, Challenged, Views, Unused, SafetyViolated, FailedRepeatedly,
         BudgetSpent;
    if env.userStop {
      return Some(UserStop);
    }
    if SafetyViolated(tracker.View(), env.safety, st.iterationsUsed) {
      return Some(SafetyConstraint);
    }
    if FailedRepeatedly(tracker.View(), env.safety) {
      return Some(RepeatedFailure);
    }
    if BudgetSpent(tracker.View(), env.budget) {
      return Some(BudgetExhausted);
    }
    var proposed := SomeProposed(st);
    if proposed {
      return None;
    }
    var contradiction := FirstOpenContradiction(st);
    if contradiction.Some? {
      var suggested := contradiction.value.suggestedAction;
      return if Truthy(suggested) && suggested.value !in executed then None else Some(InsufficientEvidence);
    }
    var standing := StandingClaims(st);
    if standing == [] {
      return None;
    }
    var unused := UnusedTools(tools, executed);
    UnusedMeansAny(tools, executed);
    var n := 0;
    while n < |standing|
      invariant 0 <= n <= |standing|
      invariant unused != [] ==> forall k :: 0 <= k < n ==>
        Challenged(st.critiques, st.View().claims[standing[k]].id, executed)
    {
      assert standing[n] in standing;
      var h := st.hypotheses[standing[n]];
      assert h.View() == st.View().claims[standing[n]];
      var tested := WasChallenged(st.critiques, h.id, executed);
      if !tested && unused != [] {
        assert Stands(st.View().claims[standing[n]]);
        return None;
      }
      n := n + 1;
    }
    return Some(SufficientEvidence);
  }

  lemma {:induction false} UnusedMeansAny(tools: seq<string>, executed: set<string>)
    ensures Unused(tools, executed) != [] <==> AnyUnused(tools, executed)
  {
    if tools != [] {
      var n := |tools| - 1;
      UnusedMeansAny(tools[..n], executed);
      assert forall k :: 0 <= k < n ==> tools[..n][k] == tools[k];
      if AnyUnused(tools[..n], executed) {
        var k :| 0 <= k < n && tools[..n][k] !in executed;
        assert tools[k] !in executed;
      }
      if AnyUnused(tools, executed) && tools[n] in executed {
        var k :| 0 <= k < |tools| && tools[k] !in executed;
        assert tools[..n][k] !in executed;
      }
    }
  }

  /** TerminationPolicy.finalize_no_candidates */
  method ReasonForNoCandidates(st: InvestigationState, ranAny: bool) returns (reason: Reason)
    ensures reason == ReasonWithoutCandidates(st.View(), ranAny)
  {
    hide AnyProposed, FirstOpen, AnyStands, Views;
    var contradiction := FirstOpenContradiction(st);
    if contradiction.Some? {
      return InsufficientEvidence;
    }
    var proposed := SomeProposed(st);
    if proposed {
      return if ranAny then InsufficientEvidence else NoValidExperiment;
    }
    var standing := StandingClaims(st);
    if standing != [] {
      return SufficientEvidence;
    }
    return if ranAny then InsufficientEvidence else NoValidExperiment;
  }

  // ConclusionSynthesizer

  method ClaimsWith(st: InvestigationState, s: ClaimStatus) returns (r: seq<Claim>)
    ensures r == WithStatus(st.View().claims, s)
  {
    hide WithStatus;
    r := [];
    ghost var claims := st.View().claims;
    NobodyWith(s);
    for n := 0 to |st.hypotheses|
      invariant r == WithStatus(claims[..n], s)
    {
      OneMoreWith(claims, s, n);
      if st.hypotheses[n].status == s {
        r := r + [st.hypotheses[n].View()];
      }
    }
    assert claims[..|st.hypotheses|] == claims;
  }

  lemma NobodyWith(s: ClaimStatus)
    ensures WithStatus([], s) == []
  {
  }

  lemma OneMoreWith(claims: seq<Claim>, s: ClaimStatus, n: nat)
    requires n < |claims|
    ensures WithStatus(claims[..n + 1], s)
         == if claims[n].status == s then WithStatus(claims[..n], s) + [claims[n]] else WithStatus(claims[..n], s)
  {
    assert claims[..n + 1][..n] == claims[..n];
  }

  method Pointing(log: seq<Evidence>, d: Direction) returns (ids: seq<string>)
    ensures ids == PointingIds(log, d)
  {
    ids := [];
    for n := 0 to |log|
      invariant ids == PointingIds(log[..n], d)
    {
      assert log[..n + 1][..n] == log[..n];
      if log[n].direction == d {
        ids := ids + [log[n].id];
      }
    }
    assert log[..|log|] == log;
  }

  /** Claims still active are left explicitly unresolved. */
  method ResolveActive(st: InvestigationState)
    requires st.Valid()
    modifies st.hypotheses
    ensures st.View() == old(st.View()).(claims := ResolveFirst(old(st.View()).claims, |old(st.View()).claims|))
  {
    hide AllowedClaimMoves, ResolveFirst;
    ghost var claims := st.View().claims;
    assert ResolveFirst(claims, 0) == claims;
    for n := 0 to |st.hypotheses|
      invariant Views(st.hypotheses) == ResolveFirst(claims, n)
    {
      assert CanMove(Active, Unresolved) by { ActiveMayBeUnresolved(); }
      OneMoreResolved(claims, n);
      var h := st.hypotheses[n];
      assert h.View() == Views(st.hypotheses)[n];
      if h.status == Active {
        var _ := h.SetStatus(Unresolved);
      }
    }
  }

  lemma OneMoreResolved(claims: seq<Claim>, n: nat)
    requires n < |claims|
    ensures ResolveFirst(claims, n)[n] == claims[n]
    ensures ResolveFirst(claims, n + 1)
         == ResolveFirst(claims, n)[n := if claims[n].status == Active
                                         then claims[n].(status := Unresolved) else claims[n]]
  {
  }

  lemma ActiveMayBeUnresolved()
    ensures CanMove(Active, Unresolved)
  {
  }

  lemma OpposedIsJoined(claims: seq<Claim>)
    ensures Opposed(claims)
         == WithStatus(claims, Rejected) + WithStatus(claims, Weakened) + WithStatus(claims, Unresolved)
  {
    hide WithStatus;
  }

  /** The conclusion over claims none of which is still active. */
  method Conclude(seed: string, st: InvestigationState, reason: Reason) returns (c: Conclusion)
    ensures c == ConclusionOf(seed, st.View(), reason)
  {
    hide WithStatus, PointingIds, MeanConfidence, StatementsOf, IdsOf, QuestionIds, Views, EvidenceIds,
         Make, Opposed;
    var supported := ClaimsWith(st, Supported);
    var rejected := ClaimsWith(st, Rejected);
    var weakened := ClaimsWith(st, Weakened);
    var unresolved := ClaimsWith(st, Unresolved);
    var opposed := rejected + weakened + unresolved;
    OpposedIsJoined(st.View().claims);
    var contradicting := Pointing(st.evidence, Refutes);
    var id, questions := Make(seed, "concl", 0), QuestionIds(st.openQuestions);
    if supported != [] && opposed != [] {
      c := Conclusion(id, MixedFinding, MeanConfidence(supported + opposed), StatementsOf(supported + opposed),
                      IdsOf(supported + opposed), EvidenceIds(st.evidence), questions);
    } else if supported != [] {
      var supporting := Pointing(st.evidence, Supports);
      c := Conclusion(id, SupportedFinding, MeanConfidence(supported), StatementsOf(supported), IdsOf(supported),
                      supporting, questions);
    } else if rejected != [] && weakened == [] {
      c := Conclusion(id, RefutedFinding, 0.6, StatementsOf(rejected), IdsOf(rejected), contradicting, questions);
    } else if weakened != [] {
      c := Conclusion(id, InconclusiveFinding, 0.4, StatementsOf(weakened), IdsOf(weakened), EvidenceIds(st.evidence),
                      questions);
    } else if reason == UnanswerablePremise {
      c := Conclusion(id, UnanswerableFinding, 0.0, [], [], [], questions);
    } else {
      c := Conclusion(id, InsufficientFinding, 0.2, [], IdsOf(Views(st.hypotheses)), [], questions);
    }
  }

  /** ConclusionSynthesizer.synthesize, its one policy call charged. */
  method SynthesizeConclusion(env: Env, seed: string, st: InvestigationState, reason: Reason, tracker: BudgetTracker)
    requires st.Valid()
    modifies st`currentConclusion, st`confidence, st`decisions, st.hypotheses, tracker
    ensures st.View() == Synthesize(seed, old(st.View()), reason)
    ensures tracker.View() == AfterCall(old(tracker.View()), env.policy.callCost(old(st.View()), NarrateCall))
  {
    hide ResolveFirst, ConclusionOf, Views, AfterCall;
    var cost := env.policy.callCost(st.View(), NarrateCall);
    ResolveActive(st);
    var c := Conclude(seed, st, reason);
    tracker.Charge(cost);
    st.SetConclusion(c);
    st.RecordDecision(seed, "dec-concl", [c.id]);
  }
}
