/**
 What a concluded run may say: either/or questions, bounded confidence, and what `supported` does and does not mean.
 */
module Conclusions {
  import opened Outcomes
  import opened Enums
  import opened Ids
  import opened Domain
  import opened Environment
  import opened Budgets
  import opened Concluding
  import opened Running
  import opened Explanation
  import opened RivalSafety
  import opened Folding
  import opened Checkpoints
  import opened Runs

  /** Two claims, each posed as the alternative of the other. */
  predicate EitherOr(claims: seq<Claim>) {
    |claims| == 2 && claims[0].exclusiveWith == [claims[1].id] && claims[1].exclusiveWith == [claims[0].id]
  }

  lemma EitherOrCarriesOn(claims: seq<Claim>, r: seq<Claim>)
    requires EitherOr(claims) && CarryOn(claims, r)
    ensures EitherOr(r)
  {
    forall k | 0 <= k < 2
      ensures r[k].id == claims[k].id && r[k].exclusiveWith == claims[k].exclusiveWith
    {
      assert Core(r[k]).id == Core(claims[k]).id && Core(r[k]).exclusiveWith == Core(claims[k]).exclusiveWith;
    }
  }

  /** The first two branches of the synthesizer. */
  lemma WhenSomethingHeld(seed: string, st: State, reason: Reason)
    ensures var c, held := ConclusionOf(seed, st, reason), WithStatus(st.claims, Supported);
            && (c.disposition == MixedFinding <==> held != [] && Opposed(st.claims) != [])
            && (c.disposition == SupportedFinding <==> held != [] && Opposed(st.claims) == [])
            && (if held != [] && Opposed(st.claims) != [] then c.confidence == MeanConfidence(held + Opposed(st.claims))
                else if held != [] then c.confidence == MeanConfidence(held)
                else 0.0 <= c.confidence <= 1.0)
  {
    hide WithStatus, Opposed, EvidenceIds, PointingIds, MeanConfidence, StatementsOf, IdsOf, QuestionIds;
  }

  /** An either/or state that settles has exactly one claim standing, and its conclusion is mixed. */
  lemma EitherOrSettlesMixed(seed: string, st: State)
    requires EitherOr(st.claims) && RivalsApart(st.claims) && Settles(st)
    requires forall k :: 0 <= k < |st.claims| ==> st.claims[k].status != Unresolved
    ensures (st.claims[0].status == Supported) != (st.claims[1].status == Supported)
    ensures ConclusionOf(seed, st.(claims := ResolveFirst(st.claims, 2)), SufficientEvidence).disposition
         == MixedFinding
  {
    hide ConclusionOf;
    var k :| 0 <= k < |st.claims| && Stands(st.claims[k]);
    assert st.claims[0].id in st.claims[1].exclusiveWith && st.claims[1].id in st.claims[0].exclusiveWith;
    var r := ResolveFirst(st.claims, 2);
    assert r[k].status == Supported && r[1 - k].status != Supported && r[1 - k].status != Proposed;
    WhenSomethingHeld(seed, st.(claims := r), SufficientEvidence);
  }

  /** While a run is under way no claim is unresolved. */
  lemma NoneUnresolvedYet(seed: string, st: State)
    requires Consistent(seed, st)
    ensures forall k :: 0 <= k < |st.claims| ==> st.claims[k].status != Unresolved
  {
    forall k | 0 <= k < |st.claims|
      ensures st.claims[k].status != Unresolved
    {
      assert AwaitingClaim(st.claims[k], st, {});
    }
  }

  /** An either/or run that converges concludes `mixed`, never `supported`, with exactly one claim supported. */
  lemma EitherOrRunConcludesMixed(env: Env, clock: State -> real, it: Interpretation, inv: Investigation, t: Tracker,
                                  cap: Option<nat>, used: nat)
    requires AtHead(inv, t) && EitherOr(inv.state.claims)
    ensures var r := RunLoop(env, clock, it, inv, t, cap, used);
            r.Ok? && r.value.inv.status == Converged ==>
              && r.value.inv.state.conclusion.Some?
              && r.value.inv.state.conclusion.value.disposition == MixedFinding
              && |r.value.inv.state.claims| == 2
              && (r.value.inv.state.claims[0].status == Supported) != (r.value.inv.state.claims[1].status == Supported)
  {
    hide RunLoop, Consistent, Settles, EitherOr, ConclusionOf;
    var last := RunLoopKeeps(env, clock, it, inv, t, cap, used);
    var r := RunLoop(env, clock, it, inv, t, cap, used);
    if r.Ok? && r.value.inv.status == Converged {
      var reason :| EndedAt(last, reason, r.value.inv);
      EitherOrCarriesOn(inv.state.claims, last.claims);
      ConvergedIsMixed(last, reason, r.value.inv);
    }
  }

  /** An either/or investigation that converges concludes mixed. */
  lemma ConvergedIsMixed(last: State, reason: Reason, inv: Investigation)
    requires Consistent(inv.id, last) && EitherOr(last.claims) && EndedAt(last, reason, inv) && inv.status == Converged
    ensures inv.state.conclusion.Some? && inv.state.conclusion.value.disposition == MixedFinding
    ensures |inv.state.claims| == 2
    ensures (inv.state.claims[0].status == Supported) != (inv.state.claims[1].status == Supported)
  {
    hide Consistent, Settles, EitherOr, ConclusionOf, RivalsApart;
    ConsistentIsApart(inv.id, last);
    NoneUnresolvedYet(inv.id, last);
    EitherOrSettlesMixed(inv.id, last);
    EitherOrIsTwo(last.claims);
  }

  lemma EitherOrIsTwo(claims: seq<Claim>)
    requires EitherOr(claims)
    ensures |claims| == 2
  {
  }

  lemma ConsistentIsApart(seed: string, st: State)
    requires Consistent(seed, st)
    ensures RivalsApart(st.claims)
  {
  }

  /** A goal posed as alternatives, answered by two proposals, starts an either/or run. */
  lemma AlternativesBeginEitherOr(env: Env, seed: string, p: Proposals)
    requires env.posesAlternatives && |p.hypotheses| == 2 && "" !in p.questions
    ensures EitherOr(Generate(env, seed, EMPTY_STATE, p).value.claims)
  {
    var drawn := ClaimsFrom(seed, p.hypotheses, env.manifest.metricNames, 2);
    assert EMPTY_STATE.claims + drawn == drawn;
  }

  /** The whole fresh run of an either/or goal. */
  lemma FreshEitherOrConcludesMixed(env: Env, clock: State -> real, cap: Option<nat>, it: Interpretation, p: Proposals)
    requires env.posesAlternatives && env.policy.interpret == Reply(it) && it.answerable
    requires env.policy.propose(it) == Reply(p) && |p.hypotheses| == 2
    ensures var r := Start(env, clock, cap);
            r.Ok? && r.value.inv.status == Converged ==>
              && r.value.inv.state.conclusion.Some?
              && r.value.inv.state.conclusion.value.disposition == MixedFinding
              && |r.value.inv.state.claims| == 2
              && (r.value.inv.state.claims[0].status == Supported) != (r.value.inv.state.claims[1].status == Supported)
  {
    hide RunLoop, Consistent, Generate, EitherOr;
    if "" !in p.questions {
      var inv := FreshInvestigation(env);
      var t1 := AfterCall(FRESH_TRACKER, env.policy.callCost(inv.state, InterpretCall));
      var t2 := AfterCall(t1, env.policy.callCost(inv.state, ProposeCall));
      GenerateKeeps(env, env.seed, p);
      AlternativesBeginEitherOr(env, env.seed, p);
      assert CountTools([]) == map[];
      var inv2 := inv.(state := Generate(env, env.seed, EMPTY_STATE, p).value, status := Running);
      EitherOrRunConcludesMixed(env, clock, it, inv2, t2, cap, 0);
    } else {
      GenerateSucceeds(env, env.seed, p);
    }
  }

  // Confidence

  lemma {:induction false} TotalIsBounded(claims: seq<Claim>)
    requires forall k :: 0 <= k < |claims| ==> 0.0 <= claims[k].confidence <= 1.0
    ensures 0.0 <= TotalConfidence(claims) <= |claims| as real
  {
    if claims != [] {
      TotalIsBounded(claims[..|claims| - 1]);
    }
  }

  lemma MeanIsBounded(claims: seq<Claim>)
    requires claims != [] && forall k :: 0 <= k < |claims| ==> 0.0 <= claims[k].confidence <= 1.0
    ensures 0.0 <= MeanConfidence(claims) <= 1.0
  {
    TotalIsBounded(claims);
    var total, n := TotalConfidence(claims), |claims| as real;
    assert total / n <= 1.0 && 0.0 <= total / n by {
      assert total == (total / n) * n;
    }
  }

  lemma ChosenAreBounded(claims: seq<Claim>, chosen: seq<Claim>)
    requires forall c :: c in chosen ==> c in claims
    requires forall k :: 0 <= k < |claims| ==> 0.0 <= claims[k].confidence <= 1.0
    ensures forall k :: 0 <= k < |chosen| ==> 0.0 <= chosen[k].confidence <= 1.0
  {
    forall k | 0 <= k < |chosen|
      ensures 0.0 <= chosen[k].confidence <= 1.0
    {
      assert chosen[k] in claims;
    }
  }

  /** Every confidence a concluded run reports lies in [0, 1], and no claim's confidence ever leaves [0.05, 0.95]. */
  lemma ConfidencesAreBounded(seed: string, st: State, reason: Reason)
    requires Consistent(seed, st)
    ensures forall k :: 0 <= k < |st.claims| ==> 0.05 <= st.claims[k].confidence <= 0.95
    ensures 0.0 <= Synthesize(seed, st, reason).confidence <= 1.0
  {
    hide ConclusionOf;
    forall k | 0 <= k < |st.claims|
      ensures 0.05 <= st.claims[k].confidence <= 0.95
    {
      assert AwaitingClaim(st.claims[k], st, {});
      ExplainedBounds(st.claims[k], st.evidence, st.critiques, st.executed);
    }
    var r := ResolveFirst(st.claims, |st.claims|);
    SynthesizedConfidence(seed, st.(claims := r), reason);
  }

  lemma SynthesizedConfidence(seed: string, st: State, reason: Reason)
    requires forall k :: 0 <= k < |st.claims| ==> 0.0 <= st.claims[k].confidence <= 1.0
    ensures 0.0 <= ConclusionOf(seed, st, reason).confidence <= 1.0
  {
    hide ConclusionOf, MeanConfidence;
    var held := WithStatus(st.claims, Supported);
    ChosenAreBounded(st.claims, held);
    ChosenAreBounded(st.claims, held + Opposed(st.claims));
    WhenSomethingHeld(seed, st, reason);
    if held != [] {
      MeanIsBounded(held);
      MeanIsBounded(held + Opposed(st.claims));
    }
  }

  // What each disposition means

  predicate AnyWith(claims: seq<Claim>, s: ClaimStatus) {
    exists k :: 0 <= k < |claims| && claims[k].status == s
  }

  lemma SomeIsListed(claims: seq<Claim>, s: ClaimStatus)
    ensures WithStatus(claims, s) != [] <==> AnyWith(claims, s)
  {
  }

  /** The six dispositions, told from the claims' statuses alone: exactly one of them fits. */
  lemma DispositionMeans(seed: string, st: State, reason: Reason)
    ensures var d, held, rejected, weakened, unresolved := ConclusionOf(seed, st, reason).disposition,
                AnyWith(st.claims, Supported),
                AnyWith(st.claims, Rejected), AnyWith(st.claims, Weakened), AnyWith(st.claims, Unresolved);
            && (d == MixedFinding <==> held && (rejected || weakened || unresolved))
            && (d == SupportedFinding <==> held && !rejected && !weakened && !unresolved)
            && (d == RefutedFinding <==> !held && rejected && !weakened)
            && (d == InconclusiveFinding <==> !held && weakened)
            && (d == UnanswerableFinding <==> !held && !rejected && !weakened && reason == UnanswerablePremise)
            && (d == InsufficientFinding <==> !held && !rejected && !weakened && reason != UnanswerablePremise)
  {
    hide WithStatus, MeanConfidence, Make, PointingIds, AnyWith;
    SomeIsListed(st.claims, Supported);
    SomeIsListed(st.claims, Rejected);
    SomeIsListed(st.claims, Weakened);
    SomeIsListed(st.claims, Unresolved);
    OpposedIsListed(st.claims);
  }

  lemma OpposedIsListed(claims: seq<Claim>)
    ensures Opposed(claims) != []
      <==> AnyWith(claims, Rejected) || AnyWith(claims, Weakened) || AnyWith(claims, Unresolved)
  {
    SomeIsListed(claims, Rejected);
    SomeIsListed(claims, Weakened);
    SomeIsListed(claims, Unresolved);
  }

  // What `supported` means

  predicate NoneFell(claims: seq<Claim>) {
    !AnyWith(claims, Rejected) && !AnyWith(claims, Weakened) && !AnyWith(claims, Unresolved)
  }

  predicate RestUntested(st: State) {
    forall k :: 0 <= k < |st.claims| ==> st.claims[k].status == Supported || !Tested(st.executed, st.claims[k].id)
  }

  /** Leaving active claims unresolved, seen from the claims. */
  lemma ResolvedFell(seed: string, st: State)
    requires Consistent(seed, st)
    ensures NoneFell(ResolveFirst(st.claims, |st.claims|)) <==> RestUntested(st)
    ensures AnyWith(ResolveFirst(st.claims, |st.claims|), Supported) <==> AnyWith(st.claims, Supported)
  {
    var r := ResolveFirst(st.claims, |st.claims|);
    forall k | 0 <= k < |st.claims|
      ensures r[k].status == Supported <==> st.claims[k].status == Supported
      ensures r[k].status != Rejected && r[k].status != Weakened && r[k].status != Unresolved
         <==> st.claims[k].status == Supported || !Tested(st.executed, st.claims[k].id)
    {
      assert AwaitingClaim(st.claims[k], st, {});
      ExplainedBounds(st.claims[k], st.evidence, st.critiques, st.executed);
    }
  }

  /**
   A run concludes `supported` exactly when some claim is supported and every other claim was never tested at all.
   */
  lemma SupportedMayHideUntested(seed: string, st: State, reason: Reason)
    requires Consistent(seed, st)
    ensures Synthesize(seed, st, reason).conclusion.value.disposition == SupportedFinding
      <==> AnyWith(st.claims, Supported) && RestUntested(st)
  {
    hide ConclusionOf, Consistent, RestUntested;
    var r := st.(claims := ResolveFirst(st.claims, |st.claims|));
    ResolvedFell(seed, st);
    DispositionMeans(seed, r, reason);
  }

  /** With sufficient evidence nothing is left untested: then `supported` is said of every claim. */
  lemma SufficientSupportsAll(last: State, inv: Investigation)
    requires Consistent(inv.id, last) && EndedAt(last, SufficientEvidence, inv)
    requires inv.state.conclusion.Some? && inv.state.conclusion.value.disposition == SupportedFinding
    ensures forall k :: 0 <= k < |inv.state.claims| ==> inv.state.claims[k].status == Supported
  {
    hide ConclusionOf, Consistent;
    SupportedMayHideUntested(inv.id, last, SufficientEvidence);
    forall k | 0 <= k < |last.claims|
      ensures last.claims[k].status == Supported
    {
      UntestedIsProposed(inv.id, last, k);
    }
  }

  lemma UntestedIsProposed(seed: string, st: State, k: nat)
    requires Consistent(seed, st) && k < |st.claims|
    ensures st.claims[k].status == Proposed <==> !Tested(st.executed, st.claims[k].id)
  {
    assert AwaitingClaim(st.claims[k], st, {});
  }

  predicate AllSupported(claims: seq<Claim>) {
    forall k :: 0 <= k < |claims| ==> claims[k].status == Supported
  }

  /** Ended for sufficient evidence with the conclusion `supported`. */
  predicate SufficientlySupported(st: State) {
    && st.termination.Some? && st.termination.value.reason == SufficientEvidence
    && st.conclusion.Some? && st.conclusion.value.disposition == SupportedFinding
  }

  /** A call that says so has found every claim supported. */
  predicate SaysAllSupported(r: Outcome<End>) {
    r.Ok? && !r.value.paused && SufficientlySupported(r.value.inv.state) ==> AllSupported(r.value.inv.state.claims)
  }

  lemma CallSaysAllSupported(env: Env, seed: string, r: Outcome<End>, last: State)
    requires CallWell(env, seed, r, last)
    ensures SaysAllSupported(r)
  {
    hide Consistent, Settles, Synthesize;
    if r.Ok? && !r.value.paused {
      var reason :| EndedAt(last, reason, r.value.inv);
      if SufficientlySupported(r.value.inv.state) {
        SufficientSupportsAll(last, r.value.inv);
      }
    }
  }

  /** Every run, fresh or resumed, that ends for sufficient evidence and concludes `supported` supports every claim. */
  lemma SufficientRunSupportsAll(env: Env, clock: State -> real, inv: Investigation, t: Tracker, cap: Option<nat>)
    ensures SaysAllSupported(Start(env, clock, cap))
    ensures AtHead(inv, t) && inv.state.claims != [] ==> SaysAllSupported(Resume(env, clock, inv, cap))
  {
    hide Start, Resume, Consistent, SaysAllSupported;
    var last := FreshRunWell(env, clock, cap);
    CallSaysAllSupported(env, env.seed, Start(env, clock, cap), last);
    if AtHead(inv, t) && inv.state.claims != [] {
      last := ResumedRunWell(env, clock, inv, t, cap);
      CallSaysAllSupported(env, inv.id, Resume(env, clock, inv, cap), last);
    }
  }

  // Citations

  /** The item an id cites, pointing the finding's way where the finding has one. */
  predicate Cites(d: Disposition, e: Evidence, id: string) {
    e.id == id && (d == SupportedFinding ==> e.direction == Supports)
    && (d == RefutedFinding ==> e.direction == Refutes)
  }

  /**
   Key evidence is never invented: each id is an item of the log, and a supported or refuted finding cites only its
   own side.
   */
  lemma KeyEvidenceIsLogged(seed: string, st: State, reason: Reason, id: string)
    requires id in ConclusionOf(seed, st, reason).keyEvidenceIds
    ensures exists k :: 0 <= k < |st.evidence| && Cites(ConclusionOf(seed, st, reason).disposition, st.evidence[k], id)
  {
    hide WithStatus, MeanConfidence, Make, PointingIds, Opposed;
    var c := ConclusionOf(seed, st, reason);
    if c.disposition == SupportedFinding {
      var k := PointsAt(st.evidence, Supports, id);
      assert Cites(c.disposition, st.evidence[k], id);
    } else if c.disposition == RefutedFinding {
      var k := PointsAt(st.evidence, Refutes, id);
      assert Cites(c.disposition, st.evidence[k], id);
    } else {
      assert id in EvidenceIds(st.evidence);
      var k :| 0 <= k < |st.evidence| && EvidenceIds(st.evidence)[k] == id;
      assert Cites(c.disposition, st.evidence[k], id);
    }
  }

  lemma {:induction false} PointsAt(log: seq<Evidence>, d: Direction, id: string) returns (k: nat)
    requires id in PointingIds(log, d)
    ensures k < |log| && log[k].id == id && log[k].direction == d
  {
    var n := |log| - 1;
    if log[n].id == id && log[n].direction == d {
      k := n;
    } else {
      k := PointsAt(log[..n], d, id);
    }
  }
}
