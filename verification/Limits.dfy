/** How wide a batch may be and what a policy call costs, exactly. */
module Limits {
  import opened Outcomes
  import opened Environment
  import opened Budgets

  /** A width the configuration, the experiments left and the call's cap allow; one is always allowed. */
  predicate Allowed(t: Tracker, b: LoopBudget, cap: Option<nat>, used: nat, width: int) {
    || width == 1
    || (&& 1 <= width <= b.maxParallel && t.experimentsUsed + width <= b.maxExperiments
        && (cap.Some? ==> used + width <= cap.value))
  }

  /** The batch limit is the widest that is allowed. */
  lemma BatchLimitMeans(t: Tracker, b: LoopBudget, cap: Option<nat>, used: nat)
    ensures Allowed(t, b, cap, used, BatchLimit(t, b, cap, used))
    ensures forall width :: Allowed(t, b, cap, used, width) ==> width <= BatchLimit(t, b, cap, used)
  {
  }

  /** A call is counted and its cost, where it has one, is added; nothing else is. */
  lemma CallMeans(t: Tracker, cost: real)
    ensures var r := AfterCall(t, cost);
            && r.modelCalls == t.modelCalls + 1 && r.cost == (if cost <= 0.0 then t.cost else t.cost + cost)
            && r.experimentsUsed == t.experimentsUsed && r.toolUses == t.toolUses && r.elapsed == t.elapsed
            && r.consecutiveFailures == t.consecutiveFailures
  {
  }

  /** An experiment is counted, under its tool too; failures in a row start over at a success. */
  lemma ExperimentMeans(t: Tracker, tool: string, failed: bool)
    ensures var r := AfterExperiment(t, tool, failed);
            && r.experimentsUsed == t.experimentsUsed + 1 && r.modelCalls == t.modelCalls && r.cost == t.cost
            && r.elapsed == t.elapsed && UsesOf(r.toolUses, tool) == UsesOf(t.toolUses, tool) + 1
            && (forall other :: other != tool ==> UsesOf(r.toolUses, other) == UsesOf(t.toolUses, other))
            && r.consecutiveFailures == if !failed then 0 else t.consecutiveFailures + 1
  {
  }
}
