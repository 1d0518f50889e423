/** BudgetTracker: the live usage counters of one call and the limits they are checked against. */
module Budgets {
  import opened Outcomes
  import opened Domain
  import opened Environment

  datatype Tracker = Tracker(
    experimentsUsed: nat,
    modelCalls: nat,
    cost: real,
    elapsed: real,
    consecutiveFailures: nat,
    toolUses: map<string, nat>)

  const FRESH_TRACKER := Tracker(0, 0, 0.0, 0.0, 0, map[])

  function UsesOf(uses: map<string, nat>, tool: string): nat {
    if tool in uses then uses[tool] else 0
  }

  /** record_model_call and record_model_cost around one policy call. */
  function AfterCall(t: Tracker, cost: real): Tracker {
    t.(modelCalls := t.modelCalls + 1, cost := if cost > 0.0 then t.cost + cost else t.cost)
  }

  /** record_experiment */
  function AfterExperiment(t: Tracker, tool: string, failed: bool): Tracker {
    t.(experimentsUsed := t.experimentsUsed + 1,
       toolUses := t.toolUses[tool := UsesOf(t.toolUses, tool) + 1],
       consecutiveFailures := if failed then t.consecutiveFailures + 1 else 0)
  }

  predicate ToolAtLimit(t: Tracker, b: LoopBudget, tool: string) {
    UsesOf(t.toolUses, tool) >= b.maxToolUses
  }

  predicate BudgetSpent(t: Tracker, b: LoopBudget) {
    || t.experimentsUsed >= b.maxExperiments
    || t.modelCalls >= b.maxModelCalls
    || t.elapsed >= b.maxElapsed
    || t.cost >= b.maxCost
  }

  predicate SafetyViolated(t: Tracker, s: SafetyLimits, iterations: nat) {
    iterations >= s.maxIterations || t.elapsed >= s.maxElapsed
  }

  predicate FailedRepeatedly(t: Tracker, s: SafetyLimits) {
    t.consecutiveFailures >= s.maxConsecutiveFailures
  }

  /** How often each tool occurs among the executed requests. */
  function CountTools(executed: seq<Request>): map<string, nat> {
    if executed == [] then map[]
    else
      var rest := CountTools(executed[..|executed| - 1]);
      var tool := executed[|executed| - 1].tool;
      rest[tool := UsesOf(rest, tool) + 1]
  }

  /** The counters resume rebuilds: one use per filed result, in the order the two lists give them. */
  function CountResults(results: seq<Result>): map<string, nat> {
    if results == [] then map[]
    else
      var rest := CountResults(results[..|results| - 1]);
      var tool := results[|results| - 1].tool;
      rest[tool := UsesOf(rest, tool) + 1]
  }

  function RebuiltTracker(st: State): Tracker {
    FRESH_TRACKER.(experimentsUsed := |st.completed| + |st.failed|, toolUses := CountResults(st.completed + st.failed))
  }

  /** InvestigationLoop._batch_limit */
  function BatchLimit(t: Tracker, b: LoopBudget, cap: Option<nat>, usedThisCall: nat): (limit: int)
    ensures 1 <= limit <= (if b.maxParallel < 1 then 1 else b.maxParallel)
    ensures t.experimentsUsed < b.maxExperiments ==> t.experimentsUsed + limit <= b.maxExperiments
    ensures cap.Some? && usedThisCall < cap.value ==> usedThisCall + limit <= cap.value
  {
    var width := if b.maxParallel < 1 then 1 else b.maxParallel;
    var left := b.maxExperiments - t.experimentsUsed;
    var limit := MinInt(width, MaxInt(1, left));
    if cap.None? then limit else MinInt(limit, MaxInt(1, cap.value - usedThisCall))
  }

  function MinInt(a: int, b: int): int {
    if a <= b then a else b
  }

  function MaxInt(a: int, b: int): int {
    if a >= b then a else b
  }
}
