/**
 Stopping a run and resuming it, any number of times, reaches the state the uninterrupted run reaches. The state does
 not hold the model calls, cost, time and pending failures of the tracker, so the promise needs budgets that do not
 bind, one experiment at a time, at least one claim, and a stop where the failures pending, if any, can no longer
 add up to their limit.
 */
module Resumption {
  import opened Outcomes
  import opened Enums
  import opened Domain
  import opened Environment
  import opened Criticism
  import opened Planning
  import opened Budgets
  import opened Concluding
  import opened Running
  import opened Folding
  import opened PlanningProofs
  import opened Checkpoints
  import opened Runs

  /** One experiment at a time, room for every policy call a full run can make, and no call dearer than `dearest`. */
  ghost predicate Roomy(env: Env, dearest: real) {
    && env.budget.maxParallel <= 1
    && 2 * env.budget.maxExperiments < env.budget.maxModelCalls
    && 0.0 <= dearest
    && (2 * env.budget.maxExperiments) as real * dearest < env.budget.maxCost
    && forall st: State, call: Call :: env.policy.callCost(st, call) <= dearest
  }

  /** A clock that never reads past either time limit. */
  ghost predicate Unhurried(env: Env, clock: State -> real) {
    forall st: State :: clock(st) < env.budget.maxElapsed && clock(st) < env.safety.maxElapsed
  }

  /** Even if every experiment left fails, the failures in a row stay below their limit. */
  predicate CannotPileUp(env: Env, used: nat, failures: nat) {
    && used <= env.budget.maxExperiments
    && failures + (env.budget.maxExperiments - used) < env.safety.maxConsecutiveFailures
  }

  /** Trackers that agree on what resuming rebuilds, and on the failures pending as far as those can still matter. */
  predicate Alike(env: Env, t: Tracker, u: Tracker) {
    && t.experimentsUsed == u.experimentsUsed && t.toolUses == u.toolUses
    && (t.consecutiveFailures == u.consecutiveFailures
        || (CannotPileUp(env, t.experimentsUsed, t.consecutiveFailures)
            && CannotPileUp(env, u.experimentsUsed, u.consecutiveFailures)))
  }

  /** At most two policy calls before the loop and two in each iteration. */
  predicate Light(env: Env, dearest: real, st: State, t: Tracker) {
    && t.modelCalls <= 2 + 2 * st.iterationsUsed
    && st.iterationsUsed <= t.experimentsUsed
    && Metered(dearest, t)
  }

  predicate Metered(dearest: real, t: Tracker) {
    t.cost <= t.modelCalls as real * dearest
  }

  /** Two calls that came to the same thing. */
  predicate SameEnd(a: Outcome<End>, b: Outcome<End>) {
    match (a, b)
    case (Ok(e), Ok(f)) => e.inv == f.inv && e.paused == f.paused
    case (Raised(e), Raised(f)) => e == f
    case _ => false
  }

  lemma CallStaysMetered(env: Env, dearest: real, t: Tracker, st: State, call: Call)
    requires Roomy(env, dearest) && Metered(dearest, t)
    ensures Metered(dearest, AfterCall(t, env.policy.callCost(st, call)))
  {
    assert (t.modelCalls + 1) as real * dearest == t.modelCalls as real * dearest + dearest;
  }

  lemma CostFits(calls: nat, most: nat, cost: real, dearest: real, limit: real)
    requires cost <= calls as real * dearest && calls <= most && 0.0 <= dearest && most as real * dearest < limit
    ensures cost < limit
  {
    assert calls as real * dearest <= most as real * dearest;
  }

  /** Where room is left for an experiment, neither calls nor cost nor time can be what stops a light tracker. */
  lemma OnlyExperimentsBind(env: Env, dearest: real, clock: State -> real, st: State, t: Tracker)
    requires Roomy(env, dearest) && Unhurried(env, clock) && Light(env, dearest, st, t)
    ensures var t0 := t.(elapsed := clock(st));
            && (BudgetSpent(t0, env.budget) <==> t.experimentsUsed >= env.budget.maxExperiments)
            && (SafetyViolated(t0, env.safety, st.iterationsUsed) <==> st.iterationsUsed >= env.safety.maxIterations)
  {
    if t.experimentsUsed < env.budget.maxExperiments {
      CostFits(t.modelCalls, 2 * env.budget.maxExperiments, t.cost, dearest, env.budget.maxCost);
    }
  }

  lemma SameDecision(env: Env, dearest: real, a: State -> real, b: State -> real, st: State, t: Tracker, u: Tracker,
                     executed: set<string>, tools: seq<string>)
    requires Roomy(env, dearest) && Unhurried(env, a) && Unhurried(env, b)
    requires Alike(env, t, u) && Light(env, dearest, st, t) && Light(env, dearest, st, u)
    ensures Decide(env, st, t.(elapsed := a(st)), executed, tools)
         == Decide(env, st, u.(elapsed := b(st)), executed, tools)
  {
    OnlyExperimentsBind(env, dearest, a, st, t);
    OnlyExperimentsBind(env, dearest, b, st, u);
  }

  // Folding

  predicate SameFold(env: Env, a: Outcome<Fold>, b: Outcome<Fold>) {
    match (a, b)
    case (Ok(f), Ok(g)) => f.state == g.state && f.anySucceeded == g.anySucceeded && Alike(env, f.tracker, g.tracker)
    case (Raised(e), Raised(f)) => e == f
    case _ => false
  }

  lemma ExperimentsAlike(env: Env, t: Tracker, u: Tracker, tool: string, failed: bool)
    requires Alike(env, t, u) && t.experimentsUsed < env.budget.maxExperiments
    ensures Alike(env, AfterExperiment(t, tool, failed), AfterExperiment(u, tool, failed))
  {
  }

  lemma {:induction false} FoldsAlike(env: Env, seed: string, st: State, t: Tracker, u: Tracker, batch: seq<Request>,
                                      records: seq<Record>, n: nat)
    requires |records| == |batch| && n <= |batch| && Alike(env, t, u)
    requires t.experimentsUsed + n <= env.budget.maxExperiments
    ensures SameFold(env, FoldFirst(env, seed, Fold(st, t, false), batch, records, n),
                     FoldFirst(env, seed, Fold(st, u, false), batch, records, n))
  {
    hide FoldExperiment, Alike, AfterExperiment;
    if n > 0 {
      FoldsAlike(env, seed, st, t, u, batch, records, n - 1);
      var f, g := FoldFirst(env, seed, Fold(st, t, false), batch, records, n - 1),
                  FoldFirst(env, seed, Fold(st, u, false), batch, records, n - 1);
      if f.Ok? {
        ExperimentsAlike(env, f.value.tracker, g.value.tracker, batch[n - 1].tool, records[n - 1].status == FailedRun);
      }
    }
  }

  // One pass

  /** Passes that came to the same thing, leaving trackers that still agree and still have room. */
  predicate SamePass(env: Env, dearest: real, a: Outcome<Pass>, b: Outcome<Pass>) {
    match (a, b)
    case (Ok(Continue(st, t, _)), Ok(Continue(st', u, _))) =>
      st == st' && Alike(env, t, u) && Light(env, dearest, st, t) && Light(env, dearest, st, u)
    case (Ok(Stop(e)), Ok(Stop(f))) => e.inv == f.inv && e.paused == f.paused
    case (Raised(e), Raised(f)) => e == f
    case _ => false
  }

  lemma EndsAlike(env: Env, inv: Investigation, t: Tracker, u: Tracker, reason: Reason)
    ensures SameEnd(Finalize(env, inv, t, reason), Finalize(env, inv, u, reason))
    ensures SameEnd(FailSafe(env, inv, t), FailSafe(env, inv, u))
  {
    hide Synthesize;
  }

  /** Two calls are made in an iteration at most. */
  lemma StaysLight(env: Env, dearest: real, st: State, r: State, t: Tracker, t1: Tracker, candidates: seq<Request>,
                   batch: nat)
    requires Roomy(env, dearest) && Light(env, dearest, st, t) && 1 <= batch
    requires r.iterationsUsed == st.iterationsUsed
    requires t1.experimentsUsed == t.experimentsUsed + batch
    requires t1.modelCalls == AfterChoosing(env, st, t, candidates).modelCalls
    requires t1.cost == AfterChoosing(env, st, t, candidates).cost
    ensures Light(env, dearest, r.(iterationsUsed := r.iterationsUsed + 1), t1)
    ensures Light(env, dearest, r.(iterationsUsed := r.iterationsUsed + 1), AfterCritique(env, r, t1))
  {
    hide Metered, ClaimToChallenge, Roomy;
    CallStaysMetered(env, dearest, t, st, ChooseCall);
    MeteredBySum(dearest, AfterChoosing(env, st, t, candidates), t1);
    CallStaysMetered(env, dearest, t1, r, CritiqueCall);
  }

  lemma MeteredBySum(dearest: real, t: Tracker, u: Tracker)
    requires Metered(dearest, t) && u.modelCalls == t.modelCalls && u.cost == t.cost
    ensures Metered(dearest, u)
  {
  }

  lemma RunPassesAlike(env: Env, dearest: real, it: Interpretation, st: State, inv: Investigation, t: Tracker,
                       u: Tracker, candidates: seq<Request>,
                       batch: seq<Request>, executed: set<string>, used: nat, used': nat)
    requires batch != [] && DistinctRequestIds(batch) && Consistent(inv.id, inv.state) && inv.state.pending == batch
    requires t.experimentsUsed + |batch| <= env.budget.maxExperiments
    requires inv.state.termination.None? && inv.status == Running
    requires Roomy(env, dearest) && Alike(env, t, u) && Light(env, dearest, st, t) && Light(env, dearest, st, u)
    requires inv.state.(decisions := st.decisions, pending := st.pending) == st
    requires Accounts(inv.state, t) && Accounts(inv.state, u)
    ensures SamePass(env, dearest, RunPass(env, it, inv, AfterChoosing(env, st, t, candidates), batch, executed, used),
                     RunPass(env, it, inv, AfterChoosing(env, st, u, candidates), batch, executed, used'))
  {
    hide Consistent, FoldFirst, ClosePass, Light, Roomy, CountTools, Background, ToolsOf, CarryOn, UsesOf, SamePass;
    var t1, u1 := AfterChoosing(env, st, t, candidates), AfterChoosing(env, st, u, candidates);
    var records := RunAll(env.run, batch);
    FoldsAlike(env, inv.id, inv.state, t1, u1, batch, records, |batch|);
    FoldKeepsIterations(env, inv.id, inv.state, t1, batch, records);
    var f, g := FoldFirst(env, inv.id, Fold(inv.state, t1, false), batch, records, |batch|),
                FoldFirst(env, inv.id, Fold(inv.state, u1, false), batch, records, |batch|);
    if f.Ok? {
      StaysLight(env, dearest, st, f.value.state, t, f.value.tracker, candidates, |batch|);
      StaysLight(env, dearest, st, f.value.state, u, g.value.tracker, candidates, |batch|);
      ClosesAlike(env, dearest, it, inv, f.value, g.value.tracker, executed + ToolsOf(batch), used + |batch|,
                  used' + |batch|);
    } else {
      RaisedAlike(env, dearest, f.error);
    }
  }

  lemma RaisedAlike(env: Env, dearest: real, e: Error)
    ensures SamePass(env, dearest, Raised(e), Raised(e))
  {
  }

  /** Closing the pass over trackers that agree and have room comes to the same thing. */
  lemma ClosesAlike(env: Env, dearest: real, it: Interpretation, inv: Investigation, f: Fold, u: Tracker,
                    executed: set<string>, used: nat, used': nat)
    requires Consistent(inv.id, f.state) && Alike(env, f.tracker, u)
    requires Light(env, dearest, f.state.(iterationsUsed := f.state.iterationsUsed + 1), f.tracker)
    requires Light(env, dearest, f.state.(iterationsUsed := f.state.iterationsUsed + 1), u)
    requires Light(env, dearest, f.state.(iterationsUsed := f.state.iterationsUsed + 1),
                   AfterCritique(env, f.state, f.tracker))
    requires Light(env, dearest, f.state.(iterationsUsed := f.state.iterationsUsed + 1), AfterCritique(env, f.state, u))
    ensures SamePass(env, dearest, ClosePass(env, it, inv, f, executed, used),
                     ClosePass(env, it, inv, f.(tracker := u), executed, used'))
  {
    hide Consistent, Challenge, FailSafe, Light, AfterCritique, Synthesize, CanAdvance;
    if f.anySucceeded {
      var r, t1, u1 := f.state, AfterCritique(env, f.state, f.tracker), AfterCritique(env, f.state, u);
      CritiquesAlike(env, r, f.tracker, u);
      match Challenge(env, inv.id, it, r, executed)
      case Ok(st) =>
        ChallengeKeepsIterations(env, inv.id, it, r, executed);
        LightIgnoresState(env, dearest, r, Ok(st), t1);
        LightIgnoresState(env, dearest, r, Ok(st), u1);
      case Raised(e) =>
        EndsAlike(env, inv.(state := r), t1, u1, InternalError);
    }
  }

  lemma LightIgnoresState(env: Env, dearest: real, st: State, r: Outcome<State>, t: Tracker)
    requires Light(env, dearest, st.(iterationsUsed := st.iterationsUsed + 1), t)
    requires r.Ok? ==> r.value.iterationsUsed == st.iterationsUsed
    ensures r.Ok? ==> Light(env, dearest, r.value.(iterationsUsed := r.value.iterationsUsed + 1), t)
  {
  }

  lemma CritiquesAlike(env: Env, st: State, t: Tracker, u: Tracker)
    requires Alike(env, t, u)
    ensures Alike(env, AfterCritique(env, st, t), AfterCritique(env, st, u))
  {
  }

  lemma FoldKeepsIterations(env: Env, seed: string, st: State, t: Tracker, batch: seq<Request>, records: seq<Record>)
    requires |records| == |batch| && DistinctRequestIds(batch) && Consistent(seed, st) && st.pending == batch
    requires Accounts(st, t)
    ensures var r := FoldFirst(env, seed, Fold(st, t, false), batch, records, |batch|);
            r.Ok? ==> r.value.state.iterationsUsed == st.iterationsUsed && Consistent(seed, r.value.state)
  {
    hide Consistent, FoldFirst;
    FoldFirstKeeps(env, seed, Fold(st, t, false), batch, records, |batch|);
  }

  lemma ChallengeKeepsIterations(env: Env, seed: string, it: Interpretation, st: State, executed: set<string>)
    requires Consistent(seed, st)
    ensures var r := Challenge(env, seed, it, st, executed);
            r.Ok? ==> r.value.iterationsUsed == st.iterationsUsed
  {
    hide Consistent, Challenge;
    ChallengeKeeps(env, seed, it, st, executed);
  }

  lemma OneAtATime(env: Env, seed: string, st: State, candidates: seq<Request>, sel: Selection)
    requires SelectBatch(env, seed, st, candidates, 1) == Ok(sel)
    ensures |sel.batch| <= 1
  {
    hide AcceptFirst;
  }

  lemma PlanPassesAlike(env: Env, dearest: real, it: Interpretation, inv: Investigation, t: Tracker, u: Tracker,
                        executed: set<string>, used: nat, used': nat)
    requires AtHead(inv, t) && AtHead(inv, u)
    requires t.experimentsUsed < env.budget.maxExperiments
    requires Roomy(env, dearest) && Alike(env, t, u) && Light(env, dearest, inv.state, t)
    requires Light(env, dearest, inv.state, u)
    ensures SamePass(env, dearest, PlanPass(env, it, inv, t, 1, executed, used),
                     PlanPass(env, it, inv, u, 1, executed, used'))
  {
    hide Consistent, Candidates, RunPass, FailSafe, Finalize, SelectBatch, ReasonWithoutCandidates, CountTools, Light,
         Roomy;
    var st := inv.state;
    var candidates := Candidates(env, inv.id, st, it, t.toolUses);
    var t1, u1 := AfterChoosing(env, st, t, candidates), AfterChoosing(env, st, u, candidates);
    match SelectBatch(env, inv.id, st, candidates, 1)
    case Raised(e) =>
      EndsAlike(env, inv, t1, u1, InternalError);
    case Ok(sel) =>
      OneAtATime(env, inv.id, st, candidates, sel);
      SelectionKeeps(env, inv.id, st, it, t, 1, sel);
      if sel.batch == [] {
        EndsAlike(env, inv, t1, u1, ReasonWithoutCandidates(st, t1.experimentsUsed > 0));
      } else {
        RunPassesAlike(env, dearest, it, st, inv.(state := sel.state), t, u, candidates, sel.batch, executed, used,
                       used');
      }
  }

  lemma PassesAlike(env: Env, dearest: real, a: State -> real, b: State -> real, it: Interpretation, inv: Investigation,
                    t: Tracker, u: Tracker, used: nat, used': nat)
    requires AtHead(inv, t) && AtHead(inv, u) && Roomy(env, dearest) && Unhurried(env, a) && Unhurried(env, b)
    requires Alike(env, t, u) && Light(env, dearest, inv.state, t) && Light(env, dearest, inv.state, u)
    ensures SamePass(env, dearest, PassOnce(env, a, it, inv, t, None, used), PassOnce(env, b, it, inv, u, None, used'))
  {
    hide Consistent, Decide, PlanPass, Finalize, CountTools;
    var t0, u0 := t.(elapsed := a(inv.state)), u.(elapsed := b(inv.state));
    var executed, tools := ExecutedTools(inv.state), IntentTools(it.intent, env.manifest);
    SameDecision(env, dearest, a, b, inv.state, t, u, executed, tools);
    match Decide(env, inv.state, t0, executed, tools)
    case Some(reason) =>
      EndsAlike(env, inv, t0, u0, reason);
    case None =>
      assert BatchLimit(t0, env.budget, None, used) == 1 && BatchLimit(u0, env.budget, None, used') == 1;
      PlanPassesAlike(env, dearest, it, inv, t0, u0, executed, used, used');
  }

  // The loop

  /** From the same state, trackers that agree on what is rebuilt run to the same end. */
  lemma {:induction false} LoopsAlike(env: Env, dearest: real, a: State -> real, b: State -> real, it: Interpretation,
                                      inv: Investigation, t: Tracker, u: Tracker, used: nat, used': nat)
    requires AtHead(inv, t) && AtHead(inv, u) && Roomy(env, dearest) && Unhurried(env, a) && Unhurried(env, b)
    requires Alike(env, t, u) && Light(env, dearest, inv.state, t) && Light(env, dearest, inv.state, u)
    ensures SameEnd(RunLoop(env, a, it, inv, t, None, used), RunLoop(env, b, it, inv, u, None, used'))
    decreases ExperimentsLeft(env, t)
  {
    hide Consistent, PassOnce, Light, Alike, Roomy, Unhurried, EndedAt, CountTools;
    PassesAlike(env, dearest, a, b, it, inv, t, u, used, used');
    var p, q := PassOnce(env, a, it, inv, t, None, used), PassOnce(env, b, it, inv, u, None, used');
    if p.Ok? && p.value.Continue? {
      var last := PassOnceKeeps(env, a, it, inv, t, None, used);
      last := PassOnceKeeps(env, b, it, inv, u, None, used');
      LoopsAlike(env, dearest, a, b, it, inv.(state := p.value.state), p.value.tracker, q.value.tracker,
                 p.value.usedThisCall, q.value.usedThisCall);
    }
  }

  /** A cap changes nothing about a pass that it does not stop. */
  lemma CapOnlyPauses(env: Env, clock: State -> real, it: Interpretation, inv: Investigation, t: Tracker, cap: nat,
                      used: nat)
    requires env.budget.maxParallel <= 1
    ensures PassOnce(env, clock, it, inv, t, Some(cap), used)
         == if Decide(env, inv.state, t.(elapsed := clock(inv.state)), ExecutedTools(inv.state),
                      IntentTools(it.intent, env.manifest)).None?
               && used >= cap
            then Ok(Stop(End(inv, t.(elapsed := clock(inv.state)), true)))
            else PassOnce(env, clock, it, inv, t, None, used)
  {
    hide Decide, PlanPass, Finalize;
    var t0 := t.(elapsed := clock(inv.state));
    assert BatchLimit(t0, env.budget, None, used) == 1 && BatchLimit(t0, env.budget, Some(cap), used) == 1;
  }

  /** A capped call either ends where the uncapped one ends, or pauses on its way there. */
  lemma {:induction false} CappedIsOnTheWay(env: Env, dearest: real, clock: State -> real, it: Interpretation,
                                            inv: Investigation, t: Tracker, cap: nat, used: nat)
    requires AtHead(inv, t) && Roomy(env, dearest) && Unhurried(env, clock) && Light(env, dearest, inv.state, t)
    ensures var capped, full := RunLoop(env, clock, it, inv, t, Some(cap), used),
                                RunLoop(env, clock, it, inv, t, None, used);
            if capped.Ok? && capped.value.paused
            then && AtHead(capped.value.inv, capped.value.tracker) && capped.value.inv.id == inv.id
                 && CarryOn(inv.state.claims, capped.value.inv.state.claims)
                 && Light(env, dearest, capped.value.inv.state, capped.value.tracker)
                 && SameEnd(full, RunLoop(env, clock, it, capped.value.inv, capped.value.tracker, None, 0))
            else capped == full
    decreases ExperimentsLeft(env, t)
  {
    hide Consistent, PassOnce, Light, Alike, Roomy, Unhurried, EndedAt, CountTools, Decide, CarryOn;
    CapNeedsNarrow(env, dearest);
    CapOnlyPauses(env, clock, it, inv, t, cap, used);
    var p, q := PassOnce(env, clock, it, inv, t, Some(cap), used), PassOnce(env, clock, it, inv, t, None, used);
    var last := PassOnceKeeps(env, clock, it, inv, t, Some(cap), used);
    if p == q {
      if p.Ok? && p.value.Continue? {
        AlikeItself(env, t);
        PassesAlike(env, dearest, clock, clock, it, inv, t, t, used, used);
        var st, t1, used1 := p.value.state, p.value.tracker, p.value.usedThisCall;
        CappedIsOnTheWay(env, dearest, clock, it, inv.(state := st), t1, cap, used1);
        var capped := RunLoop(env, clock, it, inv.(state := st), t1, Some(cap), used1);
        if capped.Ok? && capped.value.paused {
          CarryOnTransitive(inv.state.claims, st.claims, capped.value.inv.state.claims);
        }
      }
    } else {
      PausedIsAlike(env, dearest, clock, inv, t);
      LoopsAlike(env, dearest, clock, clock, it, inv, t, t.(elapsed := clock(inv.state)), used, 0);
    }
  }

  lemma CapNeedsNarrow(env: Env, dearest: real)
    requires Roomy(env, dearest)
    ensures env.budget.maxParallel <= 1
  {
  }

  lemma AlikeItself(env: Env, t: Tracker)
    ensures Alike(env, t, t)
  {
  }

  lemma PausedIsAlike(env: Env, dearest: real, clock: State -> real, inv: Investigation, t: Tracker)
    requires AtHead(inv, t) && Light(env, dearest, inv.state, t)
    ensures var t0 := t.(elapsed := clock(inv.state));
            AtHead(inv, t0) && Alike(env, t, t0) && Light(env, dearest, inv.state, t0)
            && CarryOn(inv.state.claims, inv.state.claims)
  {
    hide Consistent, CountTools;
  }

  // Failures pending

  /** The failures in a row that the executed requests end with: something a caller can read off the saved state. */
  function FailuresPending(executed: seq<Request>): nat {
    if executed == [] || executed[|executed| - 1].status != FailedRun then 0
    else FailuresPending(executed[..|executed| - 1]) + 1
  }

  /** The live counter never counts more than that, for it starts from nothing in every call. */
  predicate CountsFailures(st: State, t: Tracker) {
    t.consecutiveFailures <= FailuresPending(st.executed)
  }

  /** Resuming forgets the failures pending, and it makes no difference: there are none, or they cannot pile up. */
  predicate ForgetsNothing(env: Env, st: State) {
    FailuresPending(st.executed) == 0 || CannotPileUp(env, |st.executed|, FailuresPending(st.executed))
  }

  lemma OneMorePending(executed: seq<Request>, r: Request)
    ensures FailuresPending(executed + [r]) == if r.status == FailedRun then FailuresPending(executed) + 1 else 0
  {
    assert (executed + [r])[..|executed|] == executed;
  }

  /** The counter keeps up with the experiments as they are folded. */
  lemma {:induction false} FoldCountsFailures(env: Env, seed: string, f: Fold, batch: seq<Request>,
                                              records: seq<Record>, n: nat)
    requires |records| == |batch| && n <= |batch| && CountsFailures(f.state, f.tracker)
    ensures var r := FoldFirst(env, seed, f, batch, records, n);
            r.Ok? ==>
              r.value.tracker.consecutiveFailures <= FailuresPending(f.state.executed + Stamped(batch, records, n))
  {
    hide FoldExperiment, FailuresPending;
    var executed := f.state.executed;
    if n == 0 {
      assert executed + Stamped(batch, records, 0) == executed;
    } else {
      FoldCountsFailures(env, seed, f, batch, records, n - 1);
      var done := batch[n - 1].(status := records[n - 1].status);
      assert executed + Stamped(batch, records, n) == executed + Stamped(batch, records, n - 1) + [done];
      OneMorePending(executed + Stamped(batch, records, n - 1), done);
    }
  }

  predicate PassCountsFailures(p: Outcome<Pass>) {
    p.Ok? && p.value.Continue? ==> CountsFailures(p.value.state, p.value.tracker)
  }

  lemma RunPassCountsFailures(env: Env, it: Interpretation, inv: Investigation, t: Tracker, batch: seq<Request>,
                              executed: set<string>, used: nat)
    requires batch != [] && DistinctRequestIds(batch) && Consistent(inv.id, inv.state) && inv.state.pending == batch
    requires Accounts(inv.state, t)
    requires CountsFailures(inv.state, t)
    ensures PassCountsFailures(RunPass(env, it, inv, t, batch, executed, used))
  {
    hide Consistent, FoldFirst, Challenge, FailSafe, CountTools;
    var records, f0 := RunAll(env.run, batch), Fold(inv.state, t, false);
    FoldFirstKeeps(env, inv.id, f0, batch, records, |batch|);
    FoldCountsFailures(env, inv.id, f0, batch, records, |batch|);
    var f := FoldFirst(env, inv.id, f0, batch, records, |batch|);
    if f.Ok? {
      ChallengeKeeps(env, inv.id, it, f.value.state, executed + ToolsOf(batch));
    }
  }

  lemma PassOnceCountsFailures(env: Env, clock: State -> real, it: Interpretation, inv: Investigation, t: Tracker,
                               cap: Option<nat>, used: nat)
    requires AtHead(inv, t)
    requires CountsFailures(inv.state, t)
    ensures PassCountsFailures(PassOnce(env, clock, it, inv, t, cap, used))
  {
    hide Consistent, Candidates, RunPass, FailSafe, Finalize, Decide, CountTools, SelectBatch, ReasonWithoutCandidates,
         FailuresPending;
    var st, t0 := inv.state, t.(elapsed := clock(inv.state));
    var limit := BatchLimit(t0, env.budget, cap, used);
    var candidates := Candidates(env, inv.id, st, it, t.toolUses);
    var sel := SelectBatch(env, inv.id, st, candidates, limit);
    if sel.Ok? {
      SelectionKeeps(env, inv.id, st, it, t, limit, sel.value);
      if sel.value.batch != [] {
        RunPassCountsFailures(env, it, inv.(state := sel.value.state), AfterChoosing(env, st, t0, candidates),
                              sel.value.batch,
                              ExecutedTools(st), used);
      }
    }
  }

  /** Wherever a call pauses, the live counter counts no failure that the saved state does not show. */
  lemma {:induction false} PausesCountFailures(env: Env, clock: State -> real, it: Interpretation, inv: Investigation,
                                               t: Tracker, cap: Option<nat>, used: nat)
    requires AtHead(inv, t) && CountsFailures(inv.state, t)
    ensures var r := RunLoop(env, clock, it, inv, t, cap, used);
            r.Ok? && r.value.paused ==> CountsFailures(r.value.inv.state, r.value.tracker)
    decreases ExperimentsLeft(env, t)
  {
    hide Consistent, PlanPass, Decide, Finalize, EndedAt, CountsFailures, CountTools;
    PassOnceCountsFailures(env, clock, it, inv, t, cap, used);
    var last := PassOnceKeeps(env, clock, it, inv, t, cap, used);
    var p := PassOnce(env, clock, it, inv, t, cap, used);
    if p.Ok? && p.value.Continue? {
      PausesCountFailures(env, clock, it, inv.(state := p.value.state), p.value.tracker, cap, p.value.usedThisCall);
    } else if p.Ok? && p.value.end.paused {
      PausedCountsFailures(inv.state, t, clock);
    }
  }

  lemma PausedCountsFailures(st: State, t: Tracker, clock: State -> real)
    requires CountsFailures(st, t)
    ensures CountsFailures(st, t.(elapsed := clock(st)))
  {
  }

  // Resuming

  /** A relay of calls: each resumes where the last one paused, the final one without a cap. */
  ghost function Relay(env: Env, clocks: seq<State -> real>, inv: Investigation, caps: seq<nat>): Outcome<End>
    requires |clocks| == |caps| + 1
    decreases |caps|
  {
    if caps == [] then Resume(env, clocks[0], inv, None)
    else
      var e := Resume(env, clocks[0], inv, Some(caps[0]));
      if e.Ok? && e.value.paused then Relay(env, clocks[1..], e.value.inv, caps[1..]) else e
  }

  /** Wherever a call of the relay pauses, what resuming forgets makes no difference. */
  ghost predicate PausesForgetNothing(env: Env, clocks: seq<State -> real>, inv: Investigation, caps: seq<nat>)
    requires |clocks| == |caps| + 1
    decreases |caps|
  {
    caps != [] ==>
      var e := Resume(env, clocks[0], inv, Some(caps[0]));
      e.Ok? && e.value.paused ==>
        ForgetsNothing(env, e.value.inv.state) && PausesForgetNothing(env, clocks[1..], e.value.inv, caps[1..])
  }

  lemma SameEndTransitive(a: Outcome<End>, b: Outcome<End>, c: Outcome<End>)
    requires SameEnd(a, b) && SameEnd(b, c)
    ensures SameEnd(a, c)
  {
  }

  /** Resuming from a head is running on from there with counters rebuilt, and no failure counted. */
  lemma ResumeIsRunLoop(env: Env, dearest: real, clock: State -> real, it: Interpretation, inv: Investigation,
                        t: Tracker, cap: Option<nat>)
    requires AtHead(inv, t) && inv.state.claims != [] && Roomy(env, dearest)
    requires env.policy.interpret == Reply(it) && Light(env, dearest, inv.state, t)
    ensures var u := AfterCall(RebuiltTracker(inv.state), env.policy.callCost(inv.state, InterpretCall));
            && Resume(env, clock, inv, cap) == RunLoop(env, clock, it, inv, u, cap, 0)
            && AtHead(inv, u) && Light(env, dearest, inv.state, u) && u.consecutiveFailures == 0
  {
    hide RunLoop, Consistent;
    ConsistentIsFiled(inv);
    RebuiltAccounts(inv.id, inv.state);
    CallStaysMetered(env, dearest, RebuiltTracker(inv.state), inv.state, InterpretCall);
  }

  /** A counter that starts over is as good as the live one where what it forgets makes no difference. */
  lemma ForgettingIsAlike(env: Env, inv: Investigation, t: Tracker, u: Tracker)
    requires AtHead(inv, t) && AtHead(inv, u) && u.consecutiveFailures == 0
    requires CountsFailures(inv.state, t) && ForgetsNothing(env, inv.state)
    ensures Alike(env, t, u)
  {
    hide Consistent, CountTools, FailuresPending;
  }

  lemma CarryOnKeepsClaims(claims: seq<Claim>, r: seq<Claim>)
    requires CarryOn(claims, r) && claims != []
    ensures r != []
  {
  }

  /** A relay from a head comes to what running on from there comes to. */
  lemma {:induction false} RelayRefines(env: Env, dearest: real, clock: State -> real, clocks: seq<State -> real>,
                                        it: Interpretation, inv: Investigation, t: Tracker, caps: seq<nat>, used: nat)
    requires |clocks| == |caps| + 1 && Unhurried(env, clock) && forall k :: 0 <= k < |clocks| ==>
      Unhurried(env, clocks[k])
    requires AtHead(inv, t) && inv.state.claims != [] && Roomy(env, dearest)
    requires CountsFailures(inv.state, t) && ForgetsNothing(env, inv.state)
    requires env.policy.interpret == Reply(it) && Light(env, dearest, inv.state, t)
    requires PausesForgetNothing(env, clocks, inv, caps)
    ensures SameEnd(RunLoop(env, clock, it, inv, t, None, used), Relay(env, clocks, inv, caps))
    decreases |caps|
  {
    hide RunLoop, Consistent, Light, Alike, Roomy, Unhurried, Resume, CarryOn;
    var now := clocks[0];
    var u := AfterCall(RebuiltTracker(inv.state), env.policy.callCost(inv.state, InterpretCall));
    ResumeIsRunLoop(env, dearest, now, it, inv, t, None);
    ForgettingIsAlike(env, inv, t, u);
    LoopsAlike(env, dearest, clock, now, it, inv, t, u, used, 0);
    if caps != [] {
      ResumeIsRunLoop(env, dearest, now, it, inv, t, Some(caps[0]));
      CappedIsOnTheWay(env, dearest, now, it, inv, u, caps[0], 0);
      var capped := RunLoop(env, now, it, inv, u, Some(caps[0]), 0);
      if capped.Ok? && capped.value.paused {
        var inv1, t1 := capped.value.inv, capped.value.tracker;
        CarryOnKeepsClaims(inv.state.claims, inv1.state.claims);
        PausesCountFailures(env, now, it, inv, u, Some(caps[0]), 0);
        RelayRefines(env, dearest, now, clocks[1..], it, inv1, t1, caps[1..], 0);
        SameEndTransitive(RunLoop(env, clock, it, inv, t, None, used), RunLoop(env, now, it, inv, u, None, 0),
                          RunLoop(env, now, it, inv1, t1, None, 0));
        SameEndTransitive(RunLoop(env, clock, it, inv, t, None, used), RunLoop(env, now, it, inv1, t1, None, 0),
                          Relay(env, clocks, inv, caps));
      }
    }
  }

  /** A fresh run that gets as far as claims is a loop from a head. */
  lemma StartIsRunLoop(env: Env, dearest: real, clock: State -> real, it: Interpretation)
    returns (inv: Investigation, t: Tracker)
    requires Roomy(env, dearest) && env.policy.interpret == Reply(it) && it.answerable && env.policy.propose(it).Reply?
    requires Generate(env, env.seed, EMPTY_STATE, env.policy.propose(it).value).Ok?
    ensures forall cap :: Start(env, clock, cap) == RunLoop(env, clock, it, inv, t, cap, 0)
    ensures inv.id == env.seed && inv.state == Generate(env, env.seed, EMPTY_STATE, env.policy.propose(it).value).value
    ensures AtHead(inv, t) && Light(env, dearest, inv.state, t) && t.consecutiveFailures == 0
  {
    hide RunLoop, Consistent, Generate, Finalize, FailSafe, Roomy, Metered;
    var begun := FreshInvestigation(env);
    var t1 := AfterCall(FRESH_TRACKER, env.policy.callCost(begun.state, InterpretCall));
    t := AfterCall(t1, env.policy.callCost(begun.state, ProposeCall));
    var p := env.policy.propose(it).value;
    GenerateKeeps(env, env.seed, p);
    GenerateCountsNothing(env, env.seed, p);
    inv := begun.(state := Generate(env, env.seed, EMPTY_STATE, p).value, status := Running);
    assert CountTools([]) == map[];
    FreshIsMetered(dearest);
    CallStaysMetered(env, dearest, FRESH_TRACKER, begun.state, InterpretCall);
    CallStaysMetered(env, dearest, t1, begun.state, ProposeCall);
  }

  lemma FreshIsMetered(dearest: real)
    ensures Metered(dearest, FRESH_TRACKER)
  {
  }

  lemma GenerateCountsNothing(env: Env, seed: string, p: Proposals)
    ensures Generate(env, seed, EMPTY_STATE, p).Ok? ==> Generate(env, seed, EMPTY_STATE, p).value.iterationsUsed == 0
  {
  }

  /** Only a run that got as far as claims can pause. */
  lemma PausedHadClaims(env: Env, clock: State -> real, it: Interpretation, cap: nat)
    requires env.policy.interpret == Reply(it)
    requires Start(env, clock, Some(cap)).Ok? && Start(env, clock, Some(cap)).value.paused
    ensures it.answerable && env.policy.propose(it).Reply?
    ensures Generate(env, env.seed, EMPTY_STATE, env.policy.propose(it).value).Ok?
  {
    hide RunLoop, Generate, Finalize, FailSafe, RecordUnanswerable;
  }

  /**
   The promise of resumability: a fresh run stopped after any number of experiments, then resumed any number of
   times over clocks of its own, ends as the uninterrupted run ends.
   */
  lemma ResumedRunRefinesUninterrupted(env: Env, dearest: real, clock: State -> real, clocks: seq<State -> real>,
                                       it: Interpretation, cap: nat, caps: seq<nat>)
    requires |clocks| == |caps| + 1 && Unhurried(env, clock) && forall k :: 0 <= k < |clocks| ==>
      Unhurried(env, clocks[k])
    requires Roomy(env, dearest) && env.policy.interpret == Reply(it)
    requires var first := Start(env, clock, Some(cap));
             && first.Ok? && first.value.paused && first.value.inv.state.claims != []
             && ForgetsNothing(env, first.value.inv.state)
             && PausesForgetNothing(env, clocks, first.value.inv, caps)
    ensures SameEnd(Start(env, clock, None), Relay(env, clocks, Start(env, clock, Some(cap)).value.inv, caps))
  {
    hide RunLoop, Consistent, Generate, Light, Roomy, Unhurried, Start, Relay, PausesForgetNothing, CountTools, CarryOn;
    PausedHadClaims(env, clock, it, cap);
    var inv, t := StartIsRunLoop(env, dearest, clock, it);
    CappedIsOnTheWay(env, dearest, clock, it, inv, t, cap, 0);
    PausesCountFailures(env, clock, it, inv, t, Some(cap), 0);
    var first := RunLoop(env, clock, it, inv, t, Some(cap), 0).value;
    assert Start(env, clock, Some(cap)).value == first;
    RelayRefines(env, dearest, clock, clocks, it, first.inv, first.tracker, caps, 0);
    SameEndTransitive(RunLoop(env, clock, it, inv, t, None, 0),
                      RunLoop(env, clock, it, first.inv, first.tracker, None, 0),
                      Relay(env, clocks, first.inv, caps));
  }
}
