/**
 When a run stops and when it goes on, told from the counters, the limits and the claims themselves: each reason has its
 condition, and exactly one condition holds.
 */
module Stopping {
  import opened Outcomes
  import opened Enums
  import opened Domain
  import opened Environment
  import opened Rivals
  import opened Budgets
  import opened Concluding
  import opened Explanation

  // The limits, in order of precedence

  predicate Unsafe(env: Env, st: State, t: Tracker) {
    st.iterationsUsed >= env.safety.maxIterations || t.elapsed >= env.safety.maxElapsed
  }

  predicate Failing(env: Env, t: Tracker) {
    t.consecutiveFailures >= env.safety.maxConsecutiveFailures
  }

  predicate Spent(env: Env, t: Tracker) {
    || t.experimentsUsed >= env.budget.maxExperiments || t.modelCalls >= env.budget.maxModelCalls
    || t.elapsed >= env.budget.maxElapsed || t.cost >= env.budget.maxCost
  }

  predicate Unlimited(env: Env, st: State, t: Tracker) {
    !env.userStop && !Unsafe(env, st, t) && !Failing(env, t) && !Spent(env, t)
  }

  // Contradictions

  /** Two different claims are the sides of a contradiction, and exactly one of them is supported. */
  predicate Decided(claims: seq<Claim>, c: Critique, i: nat, j: nat)
    requires i < |claims| && j < |claims|
  {
    && claims[i].id == c.targetId && c.conflictsWith.Some? && claims[j].id == c.conflictsWith.value
    && (claims[i].status == Supported <==> claims[j].status != Supported)
  }

  predicate AnyDecides(claims: seq<Claim>, c: Critique) {
    exists i, j :: 0 <= i < |claims| && 0 <= j < |claims| && Decided(claims, c, i, j)
  }

  /** A contradiction is settled exactly when one of its sides stands and the other does not. */
  lemma SettledMeans(claims: seq<Claim>, c: Critique)
    requires DistinctIds(claims) && forall k :: 0 <= k < |claims| ==> claims[k].id != ""
    ensures Settled(claims, c) <==> AnyDecides(claims, c)
  {
    if AnyDecides(claims, c) {
      var i, j :| 0 <= i < |claims| && 0 <= j < |claims| && Decided(claims, c, i, j);
      assert FindClaim(claims, c.targetId) == Some(i) && FindClaim(claims, c.conflictsWith.value) == Some(j);
    }
    if Settled(claims, c) {
      var a := FindClaim(claims, c.targetId);
      var b := FindClaim(claims, if c.conflictsWith.Some? then c.conflictsWith.value else "");
      assert c.conflictsWith.Some?;
      assert Decided(claims, c, a.value, b.value);
    }
  }

  /** An unsettled contradiction, every contradiction before it being settled. */
  predicate OpensAt(claims: seq<Claim>, critiques: seq<Critique>, k: nat)
    requires k < |critiques|
  {
    && critiques[k].isContradiction && !Settled(claims, critiques[k])
    && forall j :: 0 <= j < k && critiques[j].isContradiction ==> Settled(claims, critiques[j])
  }

  predicate NoneOpens(claims: seq<Claim>, critiques: seq<Critique>) {
    forall j :: 0 <= j < |critiques| && critiques[j].isContradiction ==> Settled(claims, critiques[j])
  }

  /** The contradiction termination looks at is the first that the claims do not settle. */
  lemma {:induction false} FirstOpenMeans(claims: seq<Claim>, critiques: seq<Critique>) returns (k: nat)
    ensures FirstOpen(claims, critiques).None? <==> NoneOpens(claims, critiques)
    ensures FirstOpen(claims, critiques).Some? ==>
      k < |critiques| && FirstOpen(claims, critiques) == Some(critiques[k]) && OpensAt(claims, critiques, k)
  {
    hide Settled;
    k := 0;
    if critiques != [] && !(critiques[0].isContradiction && !Settled(claims, critiques[0])) {
      k := FirstOpenMeans(claims, critiques[1..]);
      k := k + 1;
      assert forall j :: 1 <= j < |critiques| ==> critiques[j] == critiques[1..][j - 1];
    }
  }

  /** At most one contradiction is the first to be open. */
  lemma OpensOnce(claims: seq<Claim>, critiques: seq<Critique>, j: nat, k: nat)
    requires j < |critiques| && k < |critiques| && OpensAt(claims, critiques, j) && OpensAt(claims, critiques, k)
    ensures j == k
  {
  }

  /** The contradiction's own experiment is still to come: it names a tool, and the tool has not been executed. */
  predicate Discriminable(c: Critique, executed: set<string>) {
    c.suggestedAction.Some? && c.suggestedAction.value != "" && c.suggestedAction.value !in executed
  }

  predicate Untested(claims: seq<Claim>) {
    exists k :: 0 <= k < |claims| && claims[k].status == Proposed
  }

  /** A claim supported with a confidence of at least 0.6. */
  predicate Firm(c: Claim) {
    c.status == Supported && c.confidence >= 0.6
  }

  /** Some critique of the claim suggested a tool that has been executed. */
  predicate Tried(critiques: seq<Critique>, id: string, executed: set<string>) {
    exists k :: 0 <= k < |critiques| && critiques[k].targetId == id
      && match critiques[k].suggestedAction
         case Some(tool) => tool in executed
         case None => "" in executed
  }

  /** A firm claim no critique of which has been tried, while a tool of the intent has not been executed. */
  predicate LeftToChallenge(st: State, executed: set<string>, tools: seq<string>) {
    && (exists p :: 0 <= p < |tools| && tools[p] !in executed)
    && exists k :: 0 <= k < |st.claims| && Firm(st.claims[k]) && !Tried(st.critiques, st.claims[k].id, executed)
  }

  predicate AnyFirm(claims: seq<Claim>) {
    exists k :: 0 <= k < |claims| && Firm(claims[k])
  }

  // The decision

  /** A limit that is reached stops the run, the caller's wish first, then safety, failures and the budget. */
  lemma LimitsMean(env: Env, st: State, t: Tracker, executed: set<string>, tools: seq<string>)
    ensures var r := Decide(env, st, t, executed, tools);
            && (r == Some(UserStop) <==> env.userStop)
            && (r == Some(SafetyConstraint) <==> !env.userStop && Unsafe(env, st, t))
            && (r == Some(RepeatedFailure) <==> !env.userStop && !Unsafe(env, st, t) && Failing(env, t))
            && (r == Some(BudgetExhausted)
                <==> !env.userStop && !Unsafe(env, st, t) && !Failing(env, t) && Spent(env, t))
  {
    hide FirstOpen, Stands, Challenged, AnyUnused;
  }

  /** Where no limit is reached an untested claim keeps the run going, whatever else there is. */
  lemma UntestedGoesOn(env: Env, st: State, t: Tracker, executed: set<string>, tools: seq<string>)
    requires Unlimited(env, st, t) && Untested(st.claims)
    ensures Decide(env, st, t, executed, tools) == None
  {
    assert AnyProposed(st.claims);
  }

  /**
   With everything tested, the first open contradiction decides: the run goes on exactly while the experiment it asks
   for has not been executed, and otherwise ends for want of evidence.
   */
  lemma ContradictionDecides(env: Env, st: State, t: Tracker, executed: set<string>, tools: seq<string>, k: nat)
    requires Unlimited(env, st, t) && !Untested(st.claims) && k < |st.critiques| && OpensAt(st.claims, st.critiques, k)
    ensures Decide(env, st, t, executed, tools)
         == if Discriminable(st.critiques[k], executed) then None else Some(InsufficientEvidence)
  {
    hide Settled, FirstOpen, Stands, Challenged, AnyUnused, OpensAt;
    assert !AnyProposed(st.claims);
    var j := FirstOpenMeans(st.claims, st.critiques);
    SomethingOpens(st.claims, st.critiques, k);
    OpensOnce(st.claims, st.critiques, j, k);
  }

  lemma SomethingOpens(claims: seq<Claim>, critiques: seq<Critique>, k: nat)
    requires k < |critiques| && OpensAt(claims, critiques, k)
    ensures !NoneOpens(claims, critiques)
  {
  }

  /**
   With everything tested and no contradiction open, the run ends for sufficient evidence exactly when a firm claim
   stands and nothing is left to challenge one with; it never ends for another reason.
   */
  lemma EvidenceDecides(env: Env, st: State, t: Tracker, executed: set<string>, tools: seq<string>)
    requires Unlimited(env, st, t) && !Untested(st.claims) && NoneOpens(st.claims, st.critiques)
    ensures Decide(env, st, t, executed, tools)
         == if AnyFirm(st.claims) && !LeftToChallenge(st, executed, tools) then Some(SufficientEvidence) else None
  {
    hide Settled, FirstOpen, NoneOpens, Challenged, Tried;
    assert !AnyProposed(st.claims);
    var j := FirstOpenMeans(st.claims, st.critiques);
    assert AnyFirm(st.claims) <==> AnyStands(st.claims) by { FirmStands(st.claims); }
    forall k | 0 <= k < |st.claims|
      ensures Firm(st.claims[k]) <==> Stands(st.claims[k])
      ensures Tried(st.critiques, st.claims[k].id, executed) <==> Challenged(st.critiques, st.claims[k].id, executed)
    {
      TriedIsChallenged(st.critiques, st.claims[k].id, executed);
    }
    StillLeft(st, executed, tools);
  }

  lemma FirmStands(claims: seq<Claim>)
    ensures AnyFirm(claims) <==> AnyStands(claims)
  {
    assert forall k :: 0 <= k < |claims| ==> (Firm(claims[k]) <==> Stands(claims[k]));
  }

  lemma TriedIsChallenged(critiques: seq<Critique>, id: string, executed: set<string>)
    ensures Tried(critiques, id, executed) <==> Challenged(critiques, id, executed)
  {
  }

  lemma StillLeft(st: State, executed: set<string>, tools: seq<string>)
    requires forall k :: 0 <= k < |st.claims| ==>
      (Tried(st.critiques, st.claims[k].id, executed) <==> Challenged(st.critiques, st.claims[k].id, executed))
    ensures LeftToChallenge(st, executed, tools)
       <==> AnyUnused(tools, executed)
            && exists k :: 0 <= k < |st.claims| && Stands(st.claims[k])
                 && !Challenged(st.critiques, st.claims[k].id, executed)
  {
    hide Tried, Challenged;
    assert forall k :: 0 <= k < |st.claims| ==> (Firm(st.claims[k]) <==> Stands(st.claims[k]));
  }

  // Nothing left to run

  /** A run with nothing left to run ends for the first of these reasons that applies. */
  lemma NothingLeftMeans(st: State, ranAny: bool)
    ensures var r := ReasonWithoutCandidates(st, ranAny);
            && (r == SufficientEvidence
                <==> NoneOpens(st.claims, st.critiques) && !Untested(st.claims) && AnyFirm(st.claims))
            && (r == NoValidExperiment
                <==> NoneOpens(st.claims, st.critiques) && !ranAny && (Untested(st.claims) || !AnyFirm(st.claims)))
            && (r == InsufficientEvidence
                <==> !NoneOpens(st.claims, st.critiques) || (ranAny && (Untested(st.claims) || !AnyFirm(st.claims))))
  {
    hide Settled, FirstOpen, NoneOpens;
    var j := FirstOpenMeans(st.claims, st.critiques);
    FirmStands(st.claims);
    assert AnyProposed(st.claims) <==> Untested(st.claims);
  }

  /** A run converges for sufficient evidence, fails for an error or a safety limit, and is otherwise exhausted. */
  lemma TerminalStatusMeans(reason: Reason)
    ensures TerminalStatus(reason) == Converged <==> reason == SufficientEvidence
    ensures TerminalStatus(reason) == Failed <==> reason in {InternalError, SafetyConstraint}
    ensures TerminalStatus(reason) == Exhausted <==> reason !in {SufficientEvidence, InternalError, SafetyConstraint}
  {
  }
}
