/** BudgetTracker: one call's live counters, changed in place. */
module Tracking {
  import opened Domain
  import opened Environment
  import opened Budgets

  class BudgetTracker {
    var experimentsUsed: nat
    var modelCalls: nat
    var cost: real
    var elapsed: real
    var consecutiveFailures: nat
    var toolUses: map<string, nat>

    function View(): Tracker
      reads this
    {
      Tracker(experimentsUsed, modelCalls, cost, elapsed, consecutiveFailures, toolUses)
    }

    constructor ()
      ensures View() == FRESH_TRACKER
    {
      experimentsUsed, modelCalls, cost, elapsed, consecutiveFailures, toolUses := 0, 0, 0.0, 0.0, 0, map[];
    }

    method RecordModelCall()
      modifies this
      ensures View() == old(View()).(modelCalls := old(View()).modelCalls + 1)
    {
      modelCalls := modelCalls + 1;
    }

    method RecordModelCost(spent: real)
      modifies this
      ensures View() == old(View()).(cost := if spent > 0.0 then old(cost) + spent else old(cost))
    {
      if spent > 0.0 {
        cost := cost + spent;
      }
    }

    method RecordExperiment(tool: string, failed: bool)
      modifies this
      ensures View() == AfterExperiment(old(View()), tool, failed)
    {
      experimentsUsed := experimentsUsed + 1;
      toolUses := toolUses[tool := UsesOf(toolUses, tool) + 1];
      consecutiveFailures := if failed then consecutiveFailures + 1 else 0;
    }

    /** Counting a policy call, and attributing its cost once it has come back. */
    method Charge(spent: real)
      modifies this
      ensures View() == AfterCall(old(View()), spent)
    {
      RecordModelCall();
      RecordModelCost(spent);
    }

    predicate AtLimit(b: LoopBudget, tool: string)
      reads this
      ensures AtLimit(b, tool) == ToolAtLimit(View(), b, tool)
    {
      UsesOf(toolUses, tool) >= b.maxToolUses
    }

    method SetElapsed(seconds: real)
      modifies this
      ensures View() == old(View()).(elapsed := seconds)
    {
      elapsed := seconds;
    }

    /** The counters resume rebuilds, one filed result at a time. */
    constructor Rebuilt(completed: seq<Result>, failed: seq<Result>)
      ensures View()
           == FRESH_TRACKER.(experimentsUsed := |completed| + |failed|, toolUses := CountResults(completed + failed))
    {
      experimentsUsed, modelCalls, cost, elapsed, consecutiveFailures, toolUses :=
        |completed| + |failed|, 0, 0.0, 0.0, 0, map[];
      new;
      var filed := completed + failed;
      for k := 0 to |filed|
        invariant View()
               == FRESH_TRACKER.(experimentsUsed := |completed| + |failed|, toolUses := CountResults(filed[..k]))
      {
        assert filed[..k + 1][..k] == filed[..k];
        toolUses := toolUses[filed[k].tool := UsesOf(toolUses, filed[k].tool) + 1];
      }
      assert filed[..|filed|] == filed;
    }
  }
}
