/**
 Whom the critic asks about and what it makes of the answer, told from the claims, the evidence log and the reply.
 */
module Challenges {
  import opened Outcomes
  import opened Enums
  import opened Ids
  import opened Domain
  import opened Environment
  import opened Rivals
  import opened Criticism
  import opened Explanation
  import opened Weighing

  // Whom to ask about

  /** A claim that is neither supported nor given up. */
  predicate Undecided(c: Claim) {
    c.status == Proposed || c.status == Active || c.status == Weakened
  }

  /** A supported claim may be falsely so; an undecided one may have evidence both ways, neither way, or against it. */
  predicate Qualifies(c: Claim, log: seq<Evidence>, reason: ChallengeReason) {
    match reason
    case FalseConfidence => c.status == Supported
    case ConflictingEvidence => Undecided(c) && Bears(log, c.id, Supports) && Bears(log, c.id, Refutes)
    case UndiscriminatingEvidence =>
      Undecided(c) && Bears(log, c.id, Neutral) && !Bears(log, c.id, Supports) && !Bears(log, c.id, Refutes)
    case UnexplainedRefutation => Undecided(c) && Bears(log, c.id, Refutes) && !Bears(log, c.id, Supports)
  }

  lemma MentionedBears(log: seq<Evidence>, id: string)
    ensures Mentioned(log, id) <==> Bears(log, id, Supports) || Bears(log, id, Refutes) || Bears(log, id, Neutral)
  {
    if Mentioned(log, id) {
      var k :| 0 <= k < |log| && id in log[k].hypothesisIds;
      assert Bears(log, id, log[k].direction);
    }
  }

  lemma TierMeans(c: Claim, log: seq<Evidence>, reason: ChallengeReason)
    ensures Tier(c, log) == Some(reason) <==> Qualifies(c, log, reason)
  {
    hide Mentioned;
    MentionedBears(log, c.id);
    assert forall d :: Points(log, c.id, d) <==> Bears(log, c.id, d);
  }

  /** The most urgent reason comes first. */
  function Urgency(reason: ChallengeReason): nat {
    match reason
    case FalseConfidence => 0
    case ConflictingEvidence => 1
    case UndiscriminatingEvidence => 2
    case UnexplainedRefutation => 3
  }

  /** The claim to ask about, and why: no claim qualifies more urgently, and the most confident comes first. */
  predicate Foremost(st: State, k: nat, reason: ChallengeReason)
    requires k < |st.claims|
  {
    && Qualifies(st.claims[k], st.evidence, reason)
    && forall j, other :: 0 <= j < |st.claims| && Qualifies(st.claims[j], st.evidence, other) ==>
         Urgency(reason) <= Urgency(other)
         && (other == reason ==> st.claims[j].confidence <= st.claims[k].confidence
                                 && (j < k ==> st.claims[j].confidence < st.claims[k].confidence))
  }

  lemma Tiers(st: State)
    ensures forall j, reason :: 0 <= j < |st.claims| ==>
      (Tier(st.claims[j], st.evidence) == Some(reason) <==> Qualifies(st.claims[j], st.evidence, reason))
  {
    forall j, reason | 0 <= j < |st.claims|
      ensures Tier(st.claims[j], st.evidence) == Some(reason) <==> Qualifies(st.claims[j], st.evidence, reason)
    {
      TierMeans(st.claims[j], st.evidence, reason);
    }
  }

  /** Nobody is asked about exactly when no claim qualifies; otherwise it is the foremost claim. */
  lemma AskedMeans(st: State)
    ensures ClaimToChallenge(st).None?
       <==> forall j, reason :: 0 <= j < |st.claims| ==> !Qualifies(st.claims[j], st.evidence, reason)
    ensures ClaimToChallenge(st).Some? ==> Foremost(st, ClaimToChallenge(st).value.0, ClaimToChallenge(st).value.1)
  {
    hide Tier, Qualifies, MostConfident;
    Tiers(st);
    if ClaimToChallenge(st).None? {
      forall j, reason | 0 <= j < |st.claims| ensures !Qualifies(st.claims[j], st.evidence, reason) {
        assert Tier(st.claims[j], st.evidence) != Some(reason);
      }
    }
  }

  // What is offered

  /** The tools on offer are those of the intent that have not been executed, in the intent's order. */
  lemma {:induction false} OfferedMeans(tools: seq<string>, executed: set<string>) returns (places: seq<nat>)
    ensures |places| == |Unused(tools, executed)|
    ensures forall j :: 0 <= j < |places| ==>
      places[j] < |tools| && Unused(tools, executed)[j] == tools[places[j]] && tools[places[j]] !in executed
    ensures forall i, j :: 0 <= i < j < |places| ==> places[i] < places[j]
    ensures forall k :: 0 <= k < |tools| && tools[k] !in executed ==> k in places
  {
    places := [];
    if tools != [] {
      var n := |tools| - 1;
      places := OfferedMeans(tools[..n], executed);
      if tools[n] !in executed {
        places := places + [n];
      }
    }
  }

  // What the answer comes to

  /**
   An answer stops the run exactly for a tool name over 512 characters, or for a challenge without a message; then the
   entity made of it cannot be built.
   */
  lemma RejectedMeans(seed: string, st: State, p: CritiqueProposal, askedAbout: string)
    requires forall k :: 0 <= k < |st.claims| ==> 0.0 <= st.claims[k].confidence <= 1.0
    ensures var live, r := LiveConflict(st, p, askedAbout).Some?, ApplyCritique(seed, st, p, askedAbout);
            var challenges := p.shouldChallenge && p.targetId.Some? && p.targetId.value != ""
                              && p.falsificationTool.Some? && p.falsificationTool.value != "";
            && (r.Raised? ==> r.error == InvalidModel)
            && (r.Raised? <==> || (live && p.falsificationTool.Some? && |p.falsificationTool.value| > 512)
                               || (!live && challenges && (p.message == "" || |p.falsificationTool.value| > 512)))
  {
    var live := LiveConflict(st, p, askedAbout);
    hide LiveConflict;
    if live.Some? {
      WeakenedSide(seed, st, p.falsificationTool, live.value.0, live.value.1);
    }
  }

  lemma WeakenedSide(seed: string, st: State, tool: Option<string>, a: nat, b: nat)
    requires a < |st.claims| && b < |st.claims| && a != b
    requires st.claims[a].status == Supported && st.claims[b].status == Supported
    requires 0.0 <= st.claims[a].confidence <= 1.0 && 0.0 <= st.claims[b].confidence <= 1.0
    ensures RecordConflict(seed, st, a, b, tool).Ok?
  {
    hide Make;
  }

  /** The claim an answer is about: the one it names, or the one it was asked about. */
  predicate About(p: CritiqueProposal, askedAbout: string, id: string) {
    if p.targetId.Some? && p.targetId.value != "" then id == p.targetId.value else id == askedAbout
  }

  /** The answer names a claim that contradicts the one it is about; both are there, different, and supported. */
  predicate Contradicts(st: State, p: CritiqueProposal, askedAbout: string, a: nat, b: nat) {
    && a < |st.claims| && b < |st.claims| && a != b
    && About(p, askedAbout, st.claims[a].id)
    && p.contradictsId == Some(st.claims[b].id) && st.claims[b].id != ""
    && st.claims[a].status == Supported && st.claims[b].status == Supported
  }

  lemma ConflictIsLive(st: State, p: CritiqueProposal, askedAbout: string)
    requires DistinctIds(st.claims)
    ensures forall a: nat, b: nat ::
      LiveConflict(st, p, askedAbout) == Some((a, b)) <==> Contradicts(st, p, askedAbout, a, b)
  {
    var target := if Truthy(p.targetId) then p.targetId.value else askedAbout;
    forall a: nat, b: nat
      ensures LiveConflict(st, p, askedAbout) == Some((a, b)) <==> Contradicts(st, p, askedAbout, a, b)
    {
      if Contradicts(st, p, askedAbout, a, b) {
        assert FindClaim(st.claims, target) == Some(a) && FindClaim(st.claims, p.contradictsId.value) == Some(b);
        assert st.claims[a].id != st.claims[b].id;
      }
    }
  }

  /** One critique more, its action still to be tried. */
  predicate Adds(seed: string, st: State, r: State, contradiction: bool, about: string, other: Option<string>,
                 tool: Option<string>) {
    r.critiques
    == st.critiques + [Critique(Make(seed, "crit", |st.critiques|), contradiction, about, other, tool, false)]
  }

  /**
   An answer without a live contradiction adds a critique exactly when it challenges a named claim by a named tool; all
   else in the state, but for one decision that names the claim, stays.
   */
  lemma ChallengeMeans(seed: string, st: State, p: CritiqueProposal, askedAbout: string)
    requires LiveConflict(st, p, askedAbout).None? && ApplyCritique(seed, st, p, askedAbout).Ok?
    ensures var r := ApplyCritique(seed, st, p, askedAbout).value;
            if p.shouldChallenge && p.targetId.Some? && p.targetId.value != ""
               && p.falsificationTool.Some? && p.falsificationTool.value != ""
            then && Adds(seed, st, r, false, p.targetId.value, None, p.falsificationTool)
                 && r.decisions == st.decisions
                      + [Decision(Make(seed, "dec-crit", |st.decisions|), "dec-crit", [p.targetId.value],
                                  st.iterationsUsed)]
                 && r.(critiques := st.critiques, decisions := st.decisions) == st
            else r == st
  {
    hide LiveConflict;
  }

  /** Both sides of a live contradiction are weakened, to at most a half, and a question is left open about them. */
  lemma ContradictionMeans(seed: string, st: State, p: CritiqueProposal, askedAbout: string, a: nat, b: nat)
    requires LiveConflict(st, p, askedAbout) == Some((a, b)) && ApplyCritique(seed, st, p, askedAbout).Ok?
    ensures var r, x, y := ApplyCritique(seed, st, p, askedAbout).value, st.claims[a], st.claims[b];
            && Adds(seed, st, r, true, x.id, Some(y.id), p.falsificationTool)
            && r.claims == st.claims[a := Weakly(x)][b := Weakly(y)]
            && r.questions == st.questions
                 + [OpenQuestion(Make(seed, "q-contra", |st.questions|), "q-contra", [x.id, y.id])]
            && r.decisions
               == st.decisions
                  + [Decision(Make(seed, "dec-contra", |st.decisions|), "dec-contra", [x.id, y.id], st.iterationsUsed),
                     Decision(Make(seed, "dec-contra", |st.decisions| + 1), "dec-contra", [y.id, x.id],
                              st.iterationsUsed)]
            && r.(claims := st.claims, critiques := st.critiques, questions := st.questions,
                  decisions := st.decisions) == st
  {
    hide LiveConflict, Make;
  }

  function Weakly(c: Claim): Claim {
    c.(status := Weakened, confidence := if c.confidence <= 0.5 then c.confidence else 0.5)
  }
}
