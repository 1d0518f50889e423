/** How much a run may consume, whatever the policy does: experiments, uses of one tool, iterations and model calls. */
module Bounds {
  import opened Outcomes
  import opened Enums
  import opened Domain
  import opened Environment
  import opened Criticism
  import opened Planning
  import opened Budgets
  import opened Concluding
  import opened Running
  import opened Folding
  import opened PlanningProofs
  import opened Checkpoints
  import opened Runs

  /** No tool has been executed more often than its limit. */
  ghost predicate ToolsWithin(executed: seq<Request>, limit: nat) {
    forall tool :: TimesUsed(executed, tool) <= limit
  }

  /** What the state has consumed. */
  ghost predicate StateWithin(env: Env, st: State) {
    && |st.executed| <= env.budget.maxExperiments
    && st.iterationsUsed <= env.safety.maxIterations
    && st.iterationsUsed <= |st.executed|
    && ToolsWithin(st.executed, env.budget.maxToolUses)
  }

  /** One call's own allowance: the cap its caller set, counted from the experiments already there. */
  datatype Allowance = Allowance(cap: Option<nat>, base: nat)

  predicate CapKept(st: State, a: Allowance, used: nat) {
    |st.executed| == a.base + used && (a.cap.Some? ==> used <= a.cap.value)
  }

  /** The head of an iteration, with one policy call of slack: the critic speaks after the limit was last checked. */
  ghost predicate HeadWithin(env: Env, st: State, t: Tracker, a: Allowance, used: nat) {
    StateWithin(env, st) && t.modelCalls <= env.budget.maxModelCalls + 1 && CapKept(st, a, used)
  }

  /** The end of a call, with one more call for the narrative. */
  ghost predicate EndWithin(env: Env, end: End, a: Allowance) {
    && StateWithin(env, end.inv.state) && end.tracker.modelCalls <= env.budget.maxModelCalls + 2
    && (a.cap.Some? ==> |end.inv.state.executed| <= a.base + a.cap.value)
  }

  lemma {:induction false} TimesUsedConcat(a: seq<Request>, b: seq<Request>, tool: string)
    ensures TimesUsed(a + b, tool) == TimesUsed(a, tool) + TimesUsed(b, tool)
  {
    if b == [] {
      assert a + b == a;
    } else {
      TimesUsedConcat(a, b[..|b| - 1], tool);
      assert (a + b)[..|a + b| - 1] == a + b[..|b| - 1];
    }
  }

  lemma {:induction false} DistinctToolsOnce(batch: seq<Request>, tool: string)
    requires forall j, k :: 0 <= j < k < |batch| ==> batch[j].tool != batch[k].tool
    ensures TimesUsed(batch, tool) <= 1
    ensures TimesUsed(batch, tool) == 1 ==> exists k :: 0 <= k < |batch| && batch[k].tool == tool
  {
    if batch != [] {
      var n := |batch| - 1;
      DistinctToolsOnce(batch[..n], tool);
      if TimesUsed(batch[..n], tool) == 1 {
        var k :| 0 <= k < n && batch[..n][k].tool == tool;
        assert batch[k].tool == tool && batch[k].tool != batch[n].tool;
      } else if batch[n].tool == tool {
        assert batch[n].tool == tool;
      }
    }
  }

  /** A batch the limits allow: no wider than the room left, each tool once, none of them spent. */
  predicate BatchAllowed(env: Env, t: Tracker, batch: seq<Request>, cap: Option<nat>, used: nat) {
    && t.experimentsUsed + |batch| <= env.budget.maxExperiments
    && (forall j, k :: 0 <= j < k < |batch| ==> batch[j].tool != batch[k].tool)
    && (forall k :: 0 <= k < |batch| ==> !ToolAtLimit(t, env.budget, batch[k].tool))
    && (cap.Some? ==> used + |batch| <= cap.value)
  }

  lemma BatchStaysWithin(env: Env, st: State, t: Tracker, more: seq<Request>, batch: seq<Request>, cap: Option<nat>,
                         used: nat)
    requires Accounts(st, t) && BatchAllowed(env, t, batch, cap, used)
    requires ToolsWithin(st.executed, env.budget.maxToolUses)
    requires |more| == |batch| && forall k :: 0 <= k < |batch| ==> more[k].tool == batch[k].tool
    ensures ToolsWithin(st.executed + more, env.budget.maxToolUses)
    ensures |st.executed + more| <= env.budget.maxExperiments
  {
    forall tool: string
      ensures TimesUsed(st.executed + more, tool) <= env.budget.maxToolUses
    {
      TimesUsedConcat(st.executed, more, tool);
      DistinctToolsOnce(more, tool);
      CountToolsCounts(st.executed, tool);
      if TimesUsed(more, tool) == 1 {
        var k :| 0 <= k < |more| && more[k].tool == tool;
        assert !ToolAtLimit(t, env.budget, batch[k].tool);
      }
    }
  }

  lemma SelectionIsAllowed(env: Env, seed: string, st: State, it: Interpretation, t: Tracker, cap: Option<nat>,
                           used: nat, sel: Selection)
    requires Consistent(seed, st) && t.experimentsUsed < env.budget.maxExperiments && (cap.Some? ==> used < cap.value)
    requires SelectBatch(env, seed, st, Candidates(env, seed, st, it, t.toolUses), BatchLimit(t, env.budget, cap, used))
          == Ok(sel)
    ensures BatchAllowed(env, t, sel.batch, cap, used)
  {
    hide Candidates, BatchFor, AcceptFirst, Consistent, PlansAreKept;
    ConsistentIsDistinct(seed, st);
    var candidates := Candidates(env, seed, st, it, t.toolUses);
    CandidatesAreSound(env, seed, st, it, t.toolUses);
    if candidates != [] {
      var s := SettingOf(env, seed, st, it, t.toolUses);
      CandidatesHaveDistinctIds(s, Draft(candidates, {}));
      BatchIsDrawn(candidates, env.policy.choose(st, candidates).value, BatchLimit(t, env.budget, cap, used));
      forall k | 0 <= k < |sel.batch|
        ensures !ToolAtLimit(t, env.budget, sel.batch[k].tool)
      {
        var c :| 0 <= c < |candidates| && candidates[c] == sel.batch[k];
        assert UsesOf(s.uses, candidates[c].tool) < s.maxUses;
      }
    }
  }

  ghost predicate PassWithin(env: Env, p: Outcome<Pass>, a: Allowance) {
    match p
    case Raised(_) => true
    case Ok(Continue(st, t, used)) => HeadWithin(env, st, t, a, used)
    case Ok(Stop(end)) => EndWithin(env, end, a)
  }

  /** Concluding consumes one policy call and nothing else. */
  lemma FinalizeWithin(env: Env, inv: Investigation, t: Tracker, reason: Reason, a: Allowance)
    requires a.cap.Some? ==> |inv.state.executed| <= a.base + a.cap.value
    requires StateWithin(env, inv.state) && t.modelCalls <= env.budget.maxModelCalls + 1
    ensures var r := Finalize(env, inv, t, reason);
            r.Ok? ==> EndWithin(env, r.value, a)
  {
    hide ToolsWithin, ConclusionOf;
  }

  lemma FailSafeWithin(env: Env, inv: Investigation, t: Tracker, a: Allowance)
    requires a.cap.Some? ==> |inv.state.executed| <= a.base + a.cap.value
    requires StateWithin(env, inv.state) && t.modelCalls <= env.budget.maxModelCalls + 1
    ensures var r := FailSafe(env, inv, t);
            r.Ok? ==> EndWithin(env, r.value, a)
  {
    hide ToolsWithin, ConclusionOf;
  }

  lemma RunPassWithin(env: Env, it: Interpretation, inv: Investigation, t: Tracker, batch: seq<Request>,
                      executed: set<string>, a: Allowance, used: nat)
    requires batch != [] && DistinctRequestIds(batch)
    requires Consistent(inv.id, inv.state) && inv.state.pending == batch && inv.state.termination.None?
    requires inv.status == Running && Accounts(inv.state, t)
    requires StateWithin(env, inv.state) && BatchAllowed(env, t, batch, a.cap, used) && CapKept(inv.state, a, used)
    requires inv.state.iterationsUsed < env.safety.maxIterations && t.modelCalls <= env.budget.maxModelCalls
    ensures PassWithin(env, RunPass(env, it, inv, t, batch, executed, used), a)
  {
    hide Consistent, FoldFirst, Challenge, FailSafe, ToolsWithin, ToolAtLimit, CountTools;
    var records := RunAll(env.run, batch);
    FoldFirstKeeps(env, inv.id, Fold(inv.state, t, false), batch, records, |batch|);
    var out := FoldFirst(env, inv.id, Fold(inv.state, t, false), batch, records, |batch|);
    if out.Ok? {
      var f := out.value;
      BatchStaysWithin(env, inv.state, t, Stamped(batch, records, |batch|), batch, a.cap, used);
      if f.anySucceeded {
        ChallengeKeeps(env, inv.id, it, f.state, executed + ToolsOf(batch));
        FailSafeWithin(env, inv.(state := f.state), AfterCritique(env, f.state, f.tracker), a);
      }
    }
  }

  lemma PlanPassWithin(env: Env, it: Interpretation, inv: Investigation, t: Tracker, executed: set<string>,
                       a: Allowance, used: nat)
    requires AtHead(inv, t) && StateWithin(env, inv.state) && CapKept(inv.state, a, used)
    requires (a.cap.Some? ==> used < a.cap.value)
    requires !BudgetSpent(t, env.budget) && !SafetyViolated(t, env.safety, inv.state.iterationsUsed)
    ensures PassWithin(env, PlanPass(env, it, inv, t, BatchLimit(t, env.budget, a.cap, used), executed, used), a)
  {
    hide Consistent, Candidates, RunPass, FailSafe, Finalize, CountTools, SelectBatch, ReasonWithoutCandidates,
         ToolsWithin, EndWithin, BatchAllowed, BatchLimit;
    var st := inv.state;
    var limit := BatchLimit(t, env.budget, a.cap, used);
    var candidates := Candidates(env, inv.id, st, it, t.toolUses);
    var t1 := AfterChoosing(env, st, t, candidates);
    match SelectBatch(env, inv.id, st, candidates, limit)
    case Raised(e) =>
      FailSafeWithin(env, inv, t1, a);
    case Ok(sel) =>
      SelectionKeeps(env, inv.id, st, it, t, limit, sel);
      if sel.batch == [] {
        FinalizeWithin(env, inv, t1, ReasonWithoutCandidates(st, t1.experimentsUsed > 0), a);
      } else {
        SelectionIsAllowed(env, inv.id, st, it, t, a.cap, used, sel);
        AllowedAfterChoosing(env, st, t, candidates, sel.batch, a.cap, used);
        RunPassWithin(env, it, inv.(state := sel.state), t1, sel.batch, executed, a, used);
      }
  }

  lemma AllowedAfterChoosing(env: Env, st: State, t: Tracker, candidates: seq<Request>, batch: seq<Request>,
                             cap: Option<nat>, used: nat)
    requires BatchAllowed(env, t, batch, cap, used)
    ensures BatchAllowed(env, AfterChoosing(env, st, t, candidates), batch, cap, used)
  {
  }

  lemma PassOnceWithin(env: Env, clock: State -> real, it: Interpretation, inv: Investigation, t: Tracker, a: Allowance,
                       used: nat)
    requires AtHead(inv, t) && HeadWithin(env, inv.state, t, a, used)
    ensures PassWithin(env, PassOnce(env, clock, it, inv, t, a.cap, used), a)
  {
    hide Consistent, Decide, PlanPass, Finalize, StateWithin, EndWithin;
    var t0 := t.(elapsed := clock(inv.state));
    var executed := ExecutedTools(inv.state);
    var tools := IntentTools(it.intent, env.manifest);
    match Decide(env, inv.state, t0, executed, tools)
    case Some(reason) =>
      FinalizeWithin(env, inv, t0, reason, a);
    case None =>
      if !(a.cap.Some? && used >= a.cap.value) {
        PlanPassWithin(env, it, inv, t0, executed, a, used);
      } else {
        PausedWithin(env, inv, t0, a);
      }
  }

  lemma PausedWithin(env: Env, inv: Investigation, t: Tracker, a: Allowance)
    requires a.cap.Some? ==> |inv.state.executed| <= a.base + a.cap.value
    requires StateWithin(env, inv.state) && t.modelCalls <= env.budget.maxModelCalls + 1
    ensures EndWithin(env, End(inv, t, true), a)
  {
  }

  lemma {:induction false} LoopWithin(env: Env, clock: State -> real, it: Interpretation, inv: Investigation,
                                      t: Tracker, a: Allowance, used: nat)
    requires AtHead(inv, t) && HeadWithin(env, inv.state, t, a, used)
    ensures var r := RunLoop(env, clock, it, inv, t, a.cap, used);
            r.Ok? ==> EndWithin(env, r.value, a)
    decreases ExperimentsLeft(env, t)
  {
    hide Consistent, PassOnce, StateWithin, EndWithin;
    PassOnceWithin(env, clock, it, inv, t, a, used);
    var last := PassOnceKeeps(env, clock, it, inv, t, a.cap, used);
    var p := PassOnce(env, clock, it, inv, t, a.cap, used);
    if p.Ok? && p.value.Continue? {
      LoopWithin(env, clock, it, inv.(state := p.value.state), p.value.tracker, a, p.value.usedThisCall);
    }
  }

  /** A fresh run's whole consumption, for every policy. */
  lemma FreshRunWithin(env: Env, clock: State -> real, cap: Option<nat>)
    requires LimitsOk(env)
    ensures var r := Start(env, clock, cap);
            r.Ok? ==> EndWithin(env, r.value, Allowance(cap, 0))
  {
    hide RunLoop, Finalize, FailSafe, Consistent, Generate;
    var inv, a := FreshInvestigation(env), Allowance(cap, 0);
    var t1 := AfterCall(FRESH_TRACKER, env.policy.callCost(inv.state, InterpretCall));
    assert ToolsWithin([], env.budget.maxToolUses);
    FailSafeWithin(env, inv, t1, a);
    if env.policy.interpret.Reply? {
      var it := env.policy.interpret.value;
      var declined := RecordUnanswerable(inv);
      assert declined.Ok? && StateWithin(env, declined.value.state);
      FinalizeWithin(env, declined.value, t1, UnanswerablePremise, a);
      var t2 := AfterCall(t1, env.policy.callCost(inv.state, ProposeCall));
      FailSafeWithin(env, inv, t2, a);
      if env.policy.propose(it).Reply? {
        var p := env.policy.propose(it).value;
        GenerateKeeps(env, env.seed, p);
        GenerateStartsCounting(env, env.seed, p);
        var st := Generate(env, env.seed, EMPTY_STATE, p);
        if st.Ok? {
          assert CountTools([]) == map[];
          LoopWithin(env, clock, it, inv.(state := st.value, status := Running), t2, a, 0);
        }
      }
    }
  }

  lemma GenerateStartsCounting(env: Env, seed: string, p: Proposals)
    ensures var r := Generate(env, seed, EMPTY_STATE, p);
            r.Ok? ==> r.value.iterationsUsed == 0 && r.value.executed == []
  {
  }

  /** A resumed call stays within the same limits, counting what earlier calls spent, and within its own cap. */
  lemma ResumedRunWithin(env: Env, clock: State -> real, inv: Investigation, t: Tracker, cap: Option<nat>)
    requires LimitsOk(env) && AtHead(inv, t) && inv.state.claims != [] && StateWithin(env, inv.state)
    ensures var r := Resume(env, clock, inv, cap);
            r.Ok? ==> EndWithin(env, r.value, Allowance(cap, |inv.state.executed|))
  {
    hide RunLoop, FailSafe, Consistent, StateWithin;
    ConsistentIsFiled(inv);
    RebuiltAccounts(inv.id, inv.state);
    var a := Allowance(cap, |inv.state.executed|);
    var t1 := AfterCall(RebuiltTracker(inv.state), env.policy.callCost(inv.state, InterpretCall));
    FailSafeWithin(env, inv, t1, a);
    if env.policy.interpret.Reply? {
      LoopWithin(env, clock, env.policy.interpret.value, inv, t1, a, 0);
    }
  }
}
