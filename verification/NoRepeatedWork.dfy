/**
 As long as plans are kept, no tool is run twice over the same metric: not by falsification candidates, not by grouped
 candidates, not inside a batch and not across iterations. Where they are not, the same work is proposed again.
 */
module NoRepeatedWork {
  import opened Outcomes
  import opened Enums
  import opened Domain
  import opened Environment
  import opened Criticism
  import opened Planning
  import opened Budgets
  import opened Concluding
  import opened Running
  import opened Explanation
  import opened Folding
  import opened PlanningProofs
  import opened Coverage
  import opened Checkpoints
  import opened Runs
  import opened Lifecycles

  function KeyIn(st: State, it: Interpretation, m: Manifest, k: nat): Key
    requires k < |st.executed|
  {
    ResolvedKey(st.claims, it, m, st.executed[k])
  }

  /** No two executed requests resolve to the same tool and metric. */
  predicate KeysDistinct(st: State, it: Interpretation, m: Manifest) {
    forall j, k :: 0 <= j < k < |st.executed| ==> KeyIn(st, it, m, j) != KeyIn(st, it, m, k)
  }

  /** The promise: as long as some claim is open, there is none, or the first one resolves to the default metric. */
  predicate NothingRepeated(st: State, it: Interpretation, m: Manifest) {
    PlansAreKept(st.claims, it, m) ==> KeysDistinct(st, it, m)
  }

  /** Where plans are kept later they were kept before: what was open later was open before. */
  lemma PlansWereKept(claims: seq<Claim>, r: seq<Claim>, it: Interpretation, m: Manifest)
    requires CarryOn(claims, r) && PlansAreKept(r, it, m)
    ensures PlansAreKept(claims, it, m)
  {
    if claims != [] && OpenClaims(r) != [] {
      var k := OpenClaims(r)[0];
      OnlyRejectedIsTerminal(r[k].status);
      OnlyRejectedIsTerminal(claims[k].status);
      assert k in OpenClaims(claims);
    } else if claims != [] {
      assert Core(r[0]).id == Core(claims[0]).id && Core(r[0]).metricRefs == Core(claims[0]).metricRefs;
    }
  }

  /** What a request resolves to does not change over a run. */
  lemma KeysAreStable(claims: seq<Claim>, r: seq<Claim>, it: Interpretation, m: Manifest, req: Request, req': Request)
    requires CarryOn(claims, r) && req'.tool == req.tool && req'.targets == req.targets
    ensures ResolvedKey(claims, it, m, req) == ResolvedKey(r, it, m, req')
  {
    if req.targets != [] {
      var id := req.targets[0];
      forall k | 0 <= k < |claims|
        ensures r[k].id == claims[k].id && r[k].metricRefs == claims[k].metricRefs
      {
        assert Core(r[k]).id == Core(claims[k]).id && Core(r[k]).metricRefs == Core(claims[k]).metricRefs;
      }
      var a, b := FindClaim(claims, id), FindClaim(r, id);
      assert a == b;
    }
  }

  /** New requests with distinct keys, none of them done before, repeat nothing. */
  lemma FreshKeysExtend(st: State, r: State, it: Interpretation, m: Manifest, more: seq<Request>)
    requires CarryOn(st.claims, r.claims) && r.executed == st.executed + more && KeysDistinct(st, it, m)
    requires forall k :: 0 <= k < |more| ==>
      ResolvedKey(st.claims, it, m, more[k]) !in ExecutedKeys(st.claims, it, m, st.executed)
    requires forall j, k :: 0 <= j < k < |more| ==>
      ResolvedKey(st.claims, it, m, more[j]) != ResolvedKey(st.claims, it, m, more[k])
    ensures KeysDistinct(r, it, m)
  {
    var n := |st.executed|;
    forall k | 0 <= k < |r.executed|
      ensures KeyIn(r, it, m, k) == ResolvedKey(st.claims, it, m, if k < n then st.executed[k] else more[k - n])
    {
      KeysAreStable(st.claims, r.claims, it, m, r.executed[k], r.executed[k]);
    }
    forall j, k | 0 <= j < k < |r.executed|
      ensures KeyIn(r, it, m, j) != KeyIn(r, it, m, k)
    {
      if k < n {
        assert KeyIn(st, it, m, j) != KeyIn(st, it, m, k);
      } else if j < n {
        assert KeyIn(st, it, m, j) in ExecutedKeys(st.claims, it, m, st.executed);
      }
    }
  }

  /** A selected batch: keys that are new and pairwise distinct, where plans are kept. */
  predicate BatchFresh(st: State, it: Interpretation, m: Manifest, batch: seq<Request>) {
    && (forall k :: 0 <= k < |batch| ==>
          ResolvedKey(st.claims, it, m, batch[k]) !in ExecutedKeys(st.claims, it, m, st.executed))
    && (forall j, k :: 0 <= j < k < |batch| ==>
          ResolvedKey(st.claims, it, m, batch[j]) != ResolvedKey(st.claims, it, m, batch[k]))
  }

  lemma DrawnIsFresh(st: State, it: Interpretation, m: Manifest, candidates: seq<Request>, batch: seq<Request>)
    requires BatchFresh(st, it, m, candidates) && DrawnFrom(batch, candidates)
    ensures BatchFresh(st, it, m, batch)
  {
    forall j, k | 0 <= j < k < |batch|
      ensures ResolvedKey(st.claims, it, m, batch[j]) != ResolvedKey(st.claims, it, m, batch[k])
    {
      var a :| 0 <= a < |candidates| && candidates[a] == batch[j];
      var b :| 0 <= b < |candidates| && candidates[b] == batch[k];
      assert a != b;
    }
  }

  lemma SelectionIsFresh(env: Env, seed: string, st: State, it: Interpretation, t: Tracker, limit: int, sel: Selection)
    requires Consistent(seed, st) && 1 <= limit && PlansAreKept(st.claims, it, env.manifest)
    requires SelectBatch(env, seed, st, Candidates(env, seed, st, it, t.toolUses), limit) == Ok(sel)
    ensures BatchFresh(st, it, env.manifest, sel.batch)
  {
    hide Candidates, BatchFor, AcceptFirst, Consistent, PlansAreKept;
    ConsistentIsDistinct(seed, st);
    var candidates := Candidates(env, seed, st, it, t.toolUses);
    CandidatesAreSound(env, seed, st, it, t.toolUses);
    if candidates != [] {
      CandidatesHaveDistinctIds(SettingOf(env, seed, st, it, t.toolUses), Draft(candidates, {}));
      BatchIsDrawn(candidates, env.policy.choose(st, candidates).value, limit);
      DrawnIsFresh(st, it, env.manifest, candidates, sel.batch);
    }
  }

  /** A folded batch of new work leaves nothing repeated. */
  lemma FoldedBatchRepeatsNothing(env: Env, seed: string, st: State, r: State, it: Interpretation, batch: seq<Request>,
                                  records: seq<Record>)
    requires |records| == |batch| && BatchFolded(seed, st, r, batch, records, |batch|)
    requires NothingRepeated(st, it, env.manifest)
    requires PlansAreKept(st.claims, it, env.manifest) ==> BatchFresh(st, it, env.manifest, batch)
    ensures NothingRepeated(r, it, env.manifest)
  {
    hide Consistent;
    if PlansAreKept(r.claims, it, env.manifest) {
      PlansWereKept(st.claims, r.claims, it, env.manifest);
      var more := Stamped(batch, records, |batch|);
      forall k | 0 <= k < |batch|
        ensures ResolvedKey(st.claims, it, env.manifest, more[k]) == ResolvedKey(st.claims, it, env.manifest, batch[k])
      {
      }
      FreshKeysExtend(st, r, it, env.manifest, more);
    }
  }

  lemma QuietlyRepeatsNothing(st: State, r: State, it: Interpretation, m: Manifest)
    requires CarryOn(st.claims, r.claims) && r.executed == st.executed && NothingRepeated(st, it, m)
    ensures NothingRepeated(r, it, m)
  {
    if PlansAreKept(r.claims, it, m) {
      PlansWereKept(st.claims, r.claims, it, m);
      assert r.executed == st.executed + [];
      FreshKeysExtend(st, r, it, m, []);
    }
  }

  /** Concluding runs nothing. */
  lemma EndRepeatsNothing(st: State, inv: Investigation, reason: Reason, it: Interpretation, m: Manifest)
    requires EndedAt(st, reason, inv) && NothingRepeated(st, it, m)
    ensures NothingRepeated(inv.state, it, m)
  {
    hide ConclusionOf, Settles;
    assert CarryOn(st.claims, inv.state.claims);
    QuietlyRepeatsNothing(st, inv.state, it, m);
  }

  /** What a pass leaves, whether it continues or stops. */
  predicate PassRepeatsNothing(p: Outcome<Pass>, it: Interpretation, m: Manifest) {
    match p
    case Raised(_) => true
    case Ok(Continue(st, _, _)) => NothingRepeated(st, it, m)
    case Ok(Stop(end)) => NothingRepeated(end.inv.state, it, m)
  }

  lemma RunPassRepeatsNothing(env: Env, it: Interpretation, inv: Investigation, t: Tracker, batch: seq<Request>,
                              executed: set<string>, used: nat)
    requires batch != [] && DistinctRequestIds(batch)
    requires Consistent(inv.id, inv.state) && inv.state.pending == batch && inv.state.termination.None?
    requires inv.status == Running && Accounts(inv.state, t)
    requires NothingRepeated(inv.state, it, env.manifest)
    requires PlansAreKept(inv.state.claims, it, env.manifest) ==> BatchFresh(inv.state, it, env.manifest, batch)
    ensures PassRepeatsNothing(RunPass(env, it, inv, t, batch, executed, used), it, env.manifest)
  {
    hide Consistent, FoldFirst, Challenge, FailSafe, EndedAt, NothingRepeated, BatchFresh, PlansAreKept;
    var records := RunAll(env.run, batch);
    FoldFirstKeeps(env, inv.id, Fold(inv.state, t, false), batch, records, |batch|);
    var out := FoldFirst(env, inv.id, Fold(inv.state, t, false), batch, records, |batch|);
    if out.Ok? {
      var f := out.value;
      FoldedBatchRepeatsNothing(env, inv.id, inv.state, f.state, it, batch, records);
      if !f.anySucceeded {
        QuietlyRepeatsNothing(f.state, f.state.(iterationsUsed := f.state.iterationsUsed + 1), it, env.manifest);
      } else {
        ChallengeKeeps(env, inv.id, it, f.state, executed + ToolsOf(batch));
        var answer := Challenge(env, inv.id, it, f.state, executed + ToolsOf(batch));
        if answer.Ok? {
          QuietlyRepeatsNothing(f.state, answer.value.(iterationsUsed := answer.value.iterationsUsed + 1), it,
                                env.manifest);
        } else if answer.error == PolicyError {
          var t1 := AfterCritique(env, f.state, f.tracker);
          FailSafeEnds(env, inv.(state := f.state), t1);
          EndRepeatsNothing(f.state, FailSafe(env, inv.(state := f.state), t1).value.inv, InternalError, it,
                            env.manifest);
        }
      }
    }
  }

  lemma PlanPassRepeatsNothing(env: Env, it: Interpretation, inv: Investigation, t: Tracker, limit: int,
                               executed: set<string>, used: nat)
    requires AtHead(inv, t) && 1 <= limit && NothingRepeated(inv.state, it, env.manifest)
    ensures PassRepeatsNothing(PlanPass(env, it, inv, t, limit, executed, used), it, env.manifest)
  {
    hide Consistent, Candidates, RunPass, FailSafe, Finalize, EndedAt, CountTools, SelectBatch, ReasonWithoutCandidates,
         NothingRepeated, BatchFresh, PlansAreKept;
    var st := inv.state;
    var candidates := Candidates(env, inv.id, st, it, t.toolUses);
    var t1 := AfterChoosing(env, st, t, candidates);
    match SelectBatch(env, inv.id, st, candidates, limit)
    case Raised(e) =>
      FailSafeEnds(env, inv, t1);
      EndRepeatsNothing(st, FailSafe(env, inv, t1).value.inv, InternalError, it, env.manifest);
    case Ok(sel) =>
      SelectionKeeps(env, inv.id, st, it, t, limit, sel);
      if sel.batch == [] {
        var reason := ReasonWithoutCandidates(st, t1.experimentsUsed > 0);
        DecideIsHonest(env, st, t1, executed, []);
        FinalizeEnds(env, inv, t1, reason);
        EndRepeatsNothing(st, Finalize(env, inv, t1, reason).value.inv, reason, it, env.manifest);
      } else {
        if PlansAreKept(st.claims, it, env.manifest) {
          SelectionIsFresh(env, inv.id, st, it, t, limit, sel);
        }
        AcceptedRepeatsNothing(env, st, sel, it);
        RunPassRepeatsNothing(env, it, inv.(state := sel.state), t1, sel.batch, executed, used);
      }
  }

  lemma AcceptedRepeatsNothing(env: Env, st: State, sel: Selection, it: Interpretation)
    requires sel.state.(decisions := st.decisions, pending := st.pending) == st && NothingRepeated(st, it, env.manifest)
    requires PlansAreKept(st.claims, it, env.manifest) ==> BatchFresh(st, it, env.manifest, sel.batch)
    ensures NothingRepeated(sel.state, it, env.manifest)
    ensures PlansAreKept(sel.state.claims, it, env.manifest) ==> BatchFresh(sel.state, it, env.manifest, sel.batch)
  {
    assert forall k :: 0 <= k < |st.executed| ==>
      KeyIn(sel.state, it, env.manifest, k) == KeyIn(st, it, env.manifest, k);
  }

  lemma PassOnceRepeatsNothing(env: Env, clock: State -> real, it: Interpretation, inv: Investigation, t: Tracker,
                               cap: Option<nat>, used: nat)
    requires AtHead(inv, t) && NothingRepeated(inv.state, it, env.manifest)
    ensures PassRepeatsNothing(PassOnce(env, clock, it, inv, t, cap, used), it, env.manifest)
  {
    hide Consistent, Decide, PlanPass, Finalize, EndedAt, NothingRepeated;
    var t0 := t.(elapsed := clock(inv.state));
    var executed := ExecutedTools(inv.state);
    var tools := IntentTools(it.intent, env.manifest);
    DecideIsHonest(env, inv.state, t0, executed, tools);
    match Decide(env, inv.state, t0, executed, tools)
    case Some(reason) =>
      FinalizeEnds(env, inv, t0, reason);
      EndRepeatsNothing(inv.state, Finalize(env, inv, t0, reason).value.inv, reason, it, env.manifest);
    case None =>
      if !(cap.Some? && used >= cap.value) {
        PlanPassRepeatsNothing(env, it, inv, t0, BatchLimit(t0, env.budget, cap, used), executed, used);
      }
  }

  lemma {:induction false} LoopRepeatsNothing(env: Env, clock: State -> real, it: Interpretation, inv: Investigation,
                                              t: Tracker, cap: Option<nat>, used: nat)
    requires AtHead(inv, t) && NothingRepeated(inv.state, it, env.manifest)
    ensures var r := RunLoop(env, clock, it, inv, t, cap, used);
            r.Ok? ==> NothingRepeated(r.value.inv.state, it, env.manifest)
    decreases ExperimentsLeft(env, t)
  {
    hide Consistent, PassOnce, NothingRepeated, EndedAt;
    PassOnceRepeatsNothing(env, clock, it, inv, t, cap, used);
    var last := PassOnceKeeps(env, clock, it, inv, t, cap, used);
    var p := PassOnce(env, clock, it, inv, t, cap, used);
    if p.Ok? && p.value.Continue? {
      LoopRepeatsNothing(env, clock, it, inv.(state := p.value.state), p.value.tracker, cap, p.value.usedThisCall);
    }
  }

  /** A fresh run repeats no work, at any point where it pauses or ends with its plans kept. */
  lemma FreshRunRepeatsNothing(env: Env, clock: State -> real, cap: Option<nat>, it: Interpretation)
    requires env.policy.interpret == Reply(it)
    ensures var r := Start(env, clock, cap);
            r.Ok? ==> NothingRepeated(r.value.inv.state, it, env.manifest)
  {
    hide RunLoop, Generate, Consistent, Synthesize;
    var inv := FreshInvestigation(env);
    if it.answerable && env.policy.propose(it).Reply? {
      var p := env.policy.propose(it).value;
      GenerateKeeps(env, env.seed, p);
      var st := Generate(env, env.seed, EMPTY_STATE, p);
      if st.Ok? {
        var t1 := AfterCall(FRESH_TRACKER, env.policy.callCost(inv.state, InterpretCall));
        var t2 := AfterCall(t1, env.policy.callCost(inv.state, ProposeCall));
        assert CountTools([]) == map[];
        LoopRepeatsNothing(env, clock, it, inv.(state := st.value, status := Running), t2, cap, 0);
      }
    } else {
      SynthesizeRunsNothing(inv.id);
    }
  }

  /** Nor does a run resumed under the same reading of the goal, whatever else has changed. */
  lemma ResumedRunRepeatsNothing(env: Env, clock: State -> real, inv: Investigation, t: Tracker, cap: Option<nat>,
                                 it: Interpretation)
    requires AtHead(inv, t) && inv.state.claims != [] && env.policy.interpret == Reply(it)
    requires NothingRepeated(inv.state, it, env.manifest)
    ensures var r := Resume(env, clock, inv, cap);
            r.Ok? ==> NothingRepeated(r.value.inv.state, it, env.manifest)
  {
    hide RunLoop, Consistent, NothingRepeated, FailSafe;
    ConsistentIsFiled(inv);
    RebuiltAccounts(inv.id, inv.state);
    var t1 := AfterCall(RebuiltTracker(inv.state), env.policy.callCost(inv.state, InterpretCall));
    LoopRepeatsNothing(env, clock, it, inv, t1, cap, 0);
  }

  lemma SynthesizeRunsNothing(seed: string)
    ensures forall st, reason :: Synthesize(seed, st, reason).executed == st.executed
  {
    hide ConclusionOf;
  }

  // Where the promise stops

  /**
   Where plans are not kept, running the fallback is remembered under another metric and leaves its own key
   uncovered.
   */
  lemma FallbackStaysUncovered(st: State, r: State, it: Interpretation, m: Manifest, done: Request)
    requires DistinctIds(st.claims) && !PlansAreKept(st.claims, it, m)
    requires CarryOn(st.claims, r.claims) && r.executed == st.executed + [done] && done.targets == [st.claims[0].id]
    requires (done.tool, DefaultMetric(it, m)) !in ExecutedKeys(st.claims, it, m, st.executed)
    ensures (done.tool, DefaultMetric(it, m)) !in ExecutedKeys(r.claims, it, m, r.executed)
  {
    assert FindClaim(st.claims, st.claims[0].id) == Some(0);
    forall k | 0 <= k < |r.executed|
      ensures KeyIn(r, it, m, k) != (done.tool, DefaultMetric(it, m))
    {
      KeysAreStable(st.claims, r.claims, it, m, r.executed[k], r.executed[k]);
      if k < |st.executed| {
        assert KeyIn(st, it, m, k) in ExecutedKeys(st.claims, it, m, st.executed);
      }
    }
  }

  /** A state with no open claim never has one again. */
  lemma RejectedStaysRejected(claims: seq<Claim>, r: seq<Claim>)
    requires OpenClaims(claims) == [] && CarryOn(claims, r)
    ensures OpenClaims(r) == []
  {
    forall k | 0 <= k < |r|
      ensures IsTerminal(r[k].status)
    {
      OnlyRejectedIsTerminal(claims[k].status);
      OnlyRejectedIsTerminal(r[k].status);
    }
  }

  /**
   Where plans are not kept, an experiment that has just run for the fallback, whatever came of it, is proposed
   again with the same parameters, until its tool is spent.
   */
  lemma FallbackIsProposedAgain(env: Env, seed: string, st: State, r: State, it: Interpretation, uses: map<string, nat>,
                                done: Request)
    requires DistinctIds(st.claims) && !PlansAreKept(st.claims, it, env.manifest)
    requires (done.tool, DefaultMetric(it, env.manifest)) !in ExecutedKeys(st.claims, it, env.manifest, st.executed)
    requires done.targets == [st.claims[0].id] && done.parameters == ParamsFor(done.tool, it, env.manifest, None)
    requires CarryOn(st.claims, r.claims) && r.executed == st.executed + [done]
    requires done.tool in IntentTools(it.intent, env.manifest) && Runnable(env, done)
    requires UsesOf(uses, done.tool) < env.budget.maxToolUses
    ensures SomeRuns(Candidates(env, seed, r, it, uses), done.tool, done.parameters)
  {
    hide ExecutedKeys, ParamsFor, IntentTools, Candidates;
    FallbackStaysUncovered(st, r, it, env.manifest, done);
    RejectedStaysRejected(st.claims, r.claims);
    var fallback := Group(DefaultMetric(it, env.manifest), []);
    assert Groups(r.claims, it, env.manifest) == [fallback];
    CandidatesAreComplete(env, seed, r, it, uses, fallback, done.tool);
  }
}
