/** What the policy's proposals become: the claims a run is about, and who among them are rivals. */
module Proposing {
  import opened Outcomes
  import opened Enums
  import opened Ids
  import opened Domain
  import opened Environment
  import opened Running

  /** The metric a claim keeps: the one its proposal names, if the dataset has it. */
  predicate KeepsMetric(p: Proposal, known: seq<string>, refs: seq<string>) {
    if p.metric.Some? && p.metric.value != "" && p.metric.value in known then refs == [p.metric.value] else refs == []
  }

  /** A claim as it was proposed, before anything has been found. */
  predicate Proposes(seed: string, k: nat, p: Proposal, known: seq<string>, c: Claim) {
    && c.id == Make(seed, "hyp", k) && c.statement == p.statement && KeepsMetric(p, known, c.metricRefs)
    && c.status == Proposed && c.confidence == 0.5 && c.supportingIds == [] && c.contradictingIds == []
  }

  /** Each proposal becomes one claim, in order; each question one open question about all of them. */
  lemma ProposalsMean(env: Env, seed: string, p: Proposals)
    requires "" !in p.questions
    ensures var out := Generate(env, seed, EMPTY_STATE, p);
            && out.Ok? && |out.value.claims| == |p.hypotheses|
            && (forall k :: 0 <= k < |p.hypotheses| ==>
                  Proposes(seed, k, p.hypotheses[k], env.manifest.metricNames, out.value.claims[k]))
            && |out.value.questions| == |p.questions|
            && forall k :: 0 <= k < |p.questions| ==> AsksAboutAll(seed, out.value, k)
  {
    hide Make;
    var drawn := ClaimsFrom(seed, p.hypotheses, env.manifest.metricNames, |p.hypotheses|);
    assert EMPTY_STATE.claims + drawn == drawn;
  }

  predicate AsksAboutAll(seed: string, st: State, k: nat)
    requires k < |st.questions|
  {
    && st.questions[k].id == Make(seed, "q", k) && |st.questions[k].about| == |st.claims|
    && forall j :: 0 <= j < |st.claims| ==> st.questions[k].about[j] == st.claims[j].id
  }

  /** The decision about one claim, naming it, before any iteration. */
  predicate DecidesOn(seed: string, st: State, k: nat)
    requires k < |st.decisions| && k < |st.claims|
  {
    && st.decisions[k].id == Make(seed, "dec-hyp", k) && st.decisions[k].targets == [st.claims[k].id]
    && st.decisions[k].iteration == 0
  }

  /** One decision for each claim. */
  lemma ProposalsAreDecided(env: Env, seed: string, p: Proposals)
    requires "" !in p.questions
    ensures var st := Generate(env, seed, EMPTY_STATE, p).value;
            && |st.decisions| == |st.claims| == |p.hypotheses|
            && forall k :: 0 <= k < |st.claims| ==> DecidesOn(seed, st, k)
  {
    hide Make, KeepsMetric;
    ProposalsMean(env, seed, p);
    var st, decided := Generate(env, seed, EMPTY_STATE, p).value, ProposalDecisions(seed, |p.hypotheses|, 0);
    assert st.decisions == [] + decided == decided;
    forall k | 0 <= k < |st.claims|
      ensures DecidesOn(seed, st, k)
    {
      assert Proposes(seed, k, p.hypotheses[k], env.manifest.metricNames, st.claims[k]);
    }
  }

  /** Claims are rivals exactly when the goal poses alternatives and there are two of them: then each is the other's. */
  lemma RivalsMean(env: Env, seed: string, p: Proposals)
    requires "" !in p.questions
    ensures var claims := Generate(env, seed, EMPTY_STATE, p).value.claims;
            && |claims| == |p.hypotheses|
            && forall k :: 0 <= k < |claims| ==>
                 if env.posesAlternatives && |claims| == 2 then claims[k].exclusiveWith == [claims[1 - k].id]
                 else claims[k].exclusiveWith == []
  {
    hide Make;
    var drawn := ClaimsFrom(seed, p.hypotheses, env.manifest.metricNames, |p.hypotheses|);
    assert EMPTY_STATE.claims + drawn == drawn;
  }

  /** A fresh investigation carries ids of its own run alone, a manifest's where the dataset has one. */
  lemma FreshMeans(env: Env)
    ensures var inv := FreshInvestigation(env);
            && inv.id == env.seed && inv.goalId == Make(env.seed, "goal", 0) && inv.status == Created
            && inv.state == EMPTY_STATE && |inv.datasets| == |env.freshDatasets|
            && forall k :: 0 <= k < |inv.datasets| ==>
                 inv.datasets[k].id == Make(env.seed, "dset", k)
                 && (inv.datasets[k].manifestId.Some? <==> env.freshDatasets[k].manifestId.Some?)
                 && (inv.datasets[k].manifestId.Some? ==> inv.datasets[k].manifestId.value == Make(env.seed, "mfst", k))
  {
  }
}
