/** Whole calls: a fresh run and a resumed one, over every policy, every set of tools and every clock. */
module Runs {
  import opened Outcomes
  import opened Enums
  import opened Ids
  import opened Domain
  import opened Environment
  import opened Mutators
  import opened Budgets
  import opened Concluding
  import opened Running
  import opened Explanation
  import opened Trace
  import opened Folding
  import opened Checkpoints

  // Starting

  lemma EmptyIsConsistent(seed: string)
    ensures Consistent(seed, EMPTY_STATE)
  {
    assert FiledHeads(seed, [], false) == [] && FiledHeads(seed, [], true) == [];
  }

  /** A claim nothing has been found about yet. */
  predicate Untouched(c: Claim) {
    c.status == Proposed && c.confidence == 0.5 && c.supportingIds == [] && c.contradictingIds == []
  }

  lemma UntouchedIsExplained(c: Claim, st: State)
    requires Untouched(c) && st.evidence == [] && st.executed == []
    ensures AwaitingClaim(c, st, {}) && LinkedTo(c, st.evidence)
  {
  }

  lemma GeneratedClaims(env: Env, seed: string, p: Proposals)
    requires "" !in p.questions
    ensures var r := Generate(env, seed, EMPTY_STATE, p).value;
            && |r.claims| == |p.hypotheses| && ClaimsMinted(seed, r.claims)
            && (forall k :: 0 <= k < |r.claims| ==> Untouched(r.claims[k]))
            && r.(claims := [], decisions := [], questions := []) == EMPTY_STATE
  {
    var drawn := ClaimsFrom(seed, p.hypotheses, env.manifest.metricNames, |p.hypotheses|);
    assert EMPTY_STATE.claims + drawn == drawn;
  }

  lemma GeneratedLogs(env: Env, seed: string, p: Proposals)
    requires "" !in p.questions
    ensures LogsMinted(seed, Generate(env, seed, EMPTY_STATE, p).value)
  {
    var r := Generate(env, seed, EMPTY_STATE, p).value;
    assert r.decisions == ProposalDecisions(seed, |p.hypotheses|, 0);
    assert r.questions == ProposalQuestions(seed, |p.questions|, IdsOf(r.claims));
  }

  /** The claims a policy proposes start out consistent, whatever it proposes. */
  lemma GenerateKeeps(env: Env, seed: string, p: Proposals)
    ensures var r := Generate(env, seed, EMPTY_STATE, p);
            && (r.Raised? <==> "" in p.questions)
            && (r.Raised? ==> r.error == InvalidModel)
            && (r.Ok? ==> Consistent(seed, r.value) && r.value.pending == [] && r.value.executed == []
                          && r.value.termination.None? && |r.value.claims| == |p.hypotheses|)
  {
    if "" !in p.questions {
      hide Generate;
      GeneratedClaims(env, seed, p);
      GeneratedLogs(env, seed, p);
      GenerateSucceeds(env, seed, p);
      var r := Generate(env, seed, EMPTY_STATE, p).value;
      assert FiledHeads(seed, [], false) == [] && FiledHeads(seed, [], true) == [];
      forall k | 0 <= k < |r.claims|
        ensures AwaitingClaim(r.claims[k], r, {}) && LinkedTo(r.claims[k], r.evidence)
      {
        UntouchedIsExplained(r.claims[k], r);
      }
    }
  }

  lemma GenerateSucceeds(env: Env, seed: string, p: Proposals)
    ensures Generate(env, seed, EMPTY_STATE, p).Ok? <==> "" !in p.questions
    ensures Generate(env, seed, EMPTY_STATE, p).Raised? ==> Generate(env, seed, EMPTY_STATE, p).error == InvalidModel
  {
  }

  /** How a call can come out. */
  ghost predicate CallWell(env: Env, seed: string, r: Outcome<End>, last: State) {
    match r
    case Raised(e) => e == InvalidModel && !WellPosed(env)
    case Ok(end) =>
      && end.inv.id == seed && Consistent(seed, last) && last.pending == []
      && if end.paused then end.inv.state == last && AtHead(end.inv, end.tracker)
         else exists reason :: EndedAt(last, reason, end.inv)
  }

  lemma UnanswerableIsConsistent(seed: string) returns (r: State)
    ensures r == AddQuestion(LogDecision(EMPTY_STATE, seed, "dec-unanswerable", []), seed, "q-unanswerable", [])
    ensures Consistent(seed, r) && r.pending == []
  {
    hide Make;
    EmptyIsConsistent(seed);
    r := AddQuestion(LogDecision(EMPTY_STATE, seed, "dec-unanswerable", []), seed, "q-unanswerable", []);
  }

  lemma UnanswerableKeeps(env: Env, inv: Investigation, t: Tracker) returns (last: State)
    requires inv.status == Created && inv.state == EMPTY_STATE
    ensures var inv1 := RecordUnanswerable(inv);
            inv1.Ok? && CallWell(env, inv.id, Finalize(env, inv1.value, t, UnanswerablePremise), last)
  {
    hide Consistent, Synthesize, EndedAt, Settles, Finalize;
    last := UnanswerableIsConsistent(inv.id);
    FinalizeEnds(env, RecordUnanswerable(inv).value, t, UnanswerablePremise);
  }

  /** A run that got under way, seen from its caller. */
  lemma LoopIsCall(env: Env, it: Interpretation, inv: Investigation, r: Outcome<End>, last: State)
    requires env.policy.interpret == Reply(it)
    requires LoopWell(env, it, inv, r, last)
    ensures CallWell(env, inv.id, r, last)
  {
  }

  /**
   A fresh run, whatever the policy answers, the tools return and the clock reads: it raises nothing but the
   rejection of an entity that could not be built, and it leaves a consistent state, paused at a head or ended for
   an honest reason.
   */
  lemma FreshRunWell(env: Env, clock: State -> real, cap: Option<nat>) returns (last: State)
    ensures CallWell(env, env.seed, Start(env, clock, cap), last)
  {
    hide RunLoop, Finalize, FailSafe, Consistent;
    var inv := FreshInvestigation(env);
    var t1 := AfterCall(FRESH_TRACKER, env.policy.callCost(inv.state, InterpretCall));
    EmptyIsConsistent(env.seed);
    last := EMPTY_STATE;
    match env.policy.interpret
    case Malformed =>
      FailSafeEnds(env, inv, t1);
    case Reply(it) =>
      if !it.answerable {
        last := UnanswerableKeeps(env, inv, t1);
      } else {
        var t2 := AfterCall(t1, env.policy.callCost(inv.state, ProposeCall));
        match env.policy.propose(it)
        case Malformed =>
          FailSafeEnds(env, inv, t2);
        case Reply(p) =>
          GenerateKeeps(env, env.seed, p);
          var st := Generate(env, env.seed, EMPTY_STATE, p);
          if st.Ok? {
            var inv2 := inv.(state := st.value, status := Running);
            assert CountTools([]) == map[];
            last := RunLoopKeeps(env, clock, it, inv2, t2, cap, 0);
            LoopIsCall(env, it, inv2, RunLoop(env, clock, it, inv2, t2, cap, 0), last);
          }
      }
  }

  /**
   A fresh run without a cap ends: with a termination, a conclusion and a terminal lifecycle status, which is
   `converged` exactly when the reason is sufficient evidence; and then nothing is untested, no contradiction is
   open and some claim stands.
   */
  lemma FreshRunEnds(env: Env, clock: State -> real) returns (last: State)
    requires WellPosed(env)
    ensures var r := Start(env, clock, None);
            && r.Ok? && !r.value.paused
            && r.value.inv.state.termination.Some? && r.value.inv.state.conclusion.Some?
            && LifecycleOver(r.value.inv.status)
            && (r.value.inv.status == Converged <==> r.value.inv.state.termination.value.reason == SufficientEvidence)
            && (r.value.inv.status == Converged ==> Settles(last))
            && Consistent(env.seed, last) && last.pending == []
            && r.value.inv.state
               == RecordTermination(Synthesize(env.seed, last, r.value.inv.state.termination.value.reason),
                                                      r.value.inv.state.termination.value.reason)
  {
    hide RunLoop, Consistent, Settles, ConclusionOf;
    last := FreshRunWell(env, clock, None);
    FreshUncapped(env, clock);
    var r := Start(env, clock, None).value;
    var reason :| EndedAt(last, reason, r.inv);
  }

  lemma FreshUncapped(env: Env, clock: State -> real)
    ensures Start(env, clock, None).Ok? ==> !Start(env, clock, None).value.paused
  {
    hide RunLoop, Generate, Finalize, FailSafe;
  }

  // Resuming

  function TimesUsed(executed: seq<Request>, tool: string): nat {
    if executed == [] then 0
    else TimesUsed(executed[..|executed| - 1], tool) + if executed[|executed| - 1].tool == tool then 1 else 0
  }

  function TimesFiled(heads: seq<Head>, tool: string): nat {
    if heads == [] then 0
    else TimesFiled(heads[..|heads| - 1], tool) + if heads[|heads| - 1].tool == tool then 1 else 0
  }

  lemma {:induction false} CountToolsCounts(executed: seq<Request>, tool: string)
    ensures UsesOf(CountTools(executed), tool) == TimesUsed(executed, tool)
    ensures tool in CountTools(executed) <==> TimesUsed(executed, tool) > 0
  {
    if executed != [] {
      CountToolsCounts(executed[..|executed| - 1], tool);
    }
  }

  lemma {:induction false} CountResultsCounts(results: seq<Result>, tool: string)
    ensures UsesOf(CountResults(results), tool) == TimesFiled(Heads(results), tool)
    ensures tool in CountResults(results) <==> TimesFiled(Heads(results), tool) > 0
  {
    if results != [] {
      CountResultsCounts(results[..|results| - 1], tool);
      assert Heads(results)[..|results| - 1] == Heads(results[..|results| - 1]);
    }
  }

  lemma {:induction false} TimesFiledConcat(a: seq<Head>, b: seq<Head>, tool: string)
    ensures TimesFiled(a + b, tool) == TimesFiled(a, tool) + TimesFiled(b, tool)
  {
    if b == [] {
      assert a + b == a;
    } else {
      TimesFiledConcat(a, b[..|b| - 1], tool);
      assert (a + b)[..|a + b| - 1] == a + b[..|b| - 1];
    }
  }

  lemma {:induction false} FiledTimes(seed: string, executed: seq<Request>, tool: string)
    ensures TimesFiled(FiledHeads(seed, executed, false), tool) + TimesFiled(FiledHeads(seed, executed, true), tool)
         == TimesUsed(executed, tool)
  {
    if executed != [] {
      var n := |executed| - 1;
      var r := executed[n];
      FiledTimes(seed, executed[..n], tool);
      var head := Head(Make(seed, "res", n), r.id, r.tool, r.status);
      TimesFiledOne(FiledHeads(seed, executed[..n], false), head, tool);
      TimesFiledOne(FiledHeads(seed, executed[..n], true), head, tool);
    }
  }

  lemma TimesFiledOne(heads: seq<Head>, h: Head, tool: string)
    ensures TimesFiled(heads + [h], tool) == TimesFiled(heads, tool) + if h.tool == tool then 1 else 0
    ensures TimesFiled(heads + [], tool) == TimesFiled(heads, tool)
  {
    assert (heads + [h])[..|heads|] == heads;
    assert heads + [] == heads;
  }

  /** The counters resume rebuilds from the filed results are the ones the live tracker held. */
  lemma RebuiltAccounts(seed: string, st: State)
    requires Filed(seed, st)
    ensures Accounts(st, RebuiltTracker(st))
  {
    hide FiledHeads, TimesUsed, TimesFiled;
    FiledCounts(seed, st.executed);
    assert |st.completed| == |Heads(st.completed)| && |st.failed| == |Heads(st.failed)|;
    var counted, live := CountResults(st.completed + st.failed), CountTools(st.executed);
    forall tool: string
      ensures (tool in counted <==> tool in live) && UsesOf(counted, tool) == UsesOf(live, tool)
    {
      CountToolsCounts(st.executed, tool);
      CountResultsCounts(st.completed + st.failed, tool);
      assert Heads(st.completed + st.failed) == Heads(st.completed) + Heads(st.failed);
      TimesFiledConcat(Heads(st.completed), Heads(st.failed), tool);
      FiledTimes(seed, st.executed, tool);
    }
    assert counted == live;
  }

  /**
   A paused investigation with claims can be resumed by any policy, tools and limits, and comes out as well as a
   fresh run.
   */
  lemma ResumedRunWell(env: Env, clock: State -> real, inv: Investigation, t: Tracker, cap: Option<nat>)
    returns (last: State)
    requires AtHead(inv, t) && inv.state.claims != []
    ensures CallWell(env, inv.id, Resume(env, clock, inv, cap), last)
  {
    hide RunLoop, FailSafe, Consistent;
    ConsistentIsFiled(inv);
    RebuiltAccounts(inv.id, inv.state);
    var t1 := AfterCall(RebuiltTracker(inv.state), env.policy.callCost(inv.state, InterpretCall));
    last := inv.state;
    match env.policy.interpret
    case Malformed =>
      FailSafeEnds(env, inv, t1);
    case Reply(it) =>
      last := RunLoopKeeps(env, clock, it, inv, t1, cap, 0);
      LoopIsCall(env, it, inv, RunLoop(env, clock, it, inv, t1, cap, 0), last);
  }

  lemma ConsistentIsFiled(inv: Investigation)
    requires Consistent(inv.id, inv.state)
    ensures Filed(inv.id, inv.state)
  {
  }

  /**
   A paused run that holds no claims cannot be resumed: the generator is asked again, and the lifecycle cannot step
   back to `planning`. The illegal step is taken exactly when the policy answers both questions and calls the goal
   answerable.
   */
  lemma ClaimlessResumeRaises(env: Env, clock: State -> real, inv: Investigation, t: Tracker, cap: Option<nat>)
    requires AtHead(inv, t) && inv.state.claims == []
    ensures Resume(env, clock, inv, cap) == Raised(IllegalLifecycleMove)
      <==> ProposesAcceptably(env)
  {
    hide RunLoop, Consistent, Synthesize;
    if env.policy.interpret.Malformed? {
      FailSafeEnds(env, inv, AfterCall(RebuiltTracker(inv.state), env.policy.callCost(inv.state, InterpretCall)));
    }
  }

  /** A call that a cap of zero would pause before its first experiment: no limit binds yet. */
  predicate RoomAtStart(env: Env, t: Tracker) {
    !env.userStop && !SafetyViolated(t, env.safety, 0) && !FailedRepeatedly(t, env.safety)
    && !BudgetSpent(t, env.budget)
  }

  /**
   The runs that pause so: whatever the cap, a fresh run that pauses has no claims exactly when its policy proposed
   none, and then no policy that proposes, now or later, can have it resumed.
   */
  lemma PausedWithoutClaims(env: Env, clock: State -> real, cap: Option<nat>, later: Env, again: State -> real,
                            cap': Option<nat>)
    requires Start(env, clock, cap).Ok? && Start(env, clock, cap).value.paused
    ensures env.policy.interpret.Reply? && env.policy.propose(env.policy.interpret.value).Reply?
    ensures var inv := Start(env, clock, cap).value.inv;
            && (inv.state.claims == [] <==> env.policy.propose(env.policy.interpret.value).value.hypotheses == [])
            && (inv.state.claims == [] && ProposesAcceptably(later) ==>
                  Resume(later, again, inv, cap') == Raised(IllegalLifecycleMove))
  {
    hide RunLoop, Generate, Finalize, FailSafe, RecordUnanswerable, Consistent, Resume, EndedAt;
    var it := env.policy.interpret.value;
    var p := env.policy.propose(it).value;
    GenerateKeeps(env, env.seed, p);
    var inv := FreshInvestigation(env).(state := Generate(env, env.seed, EMPTY_STATE, p).value, status := Running);
    var t1 := AfterCall(FRESH_TRACKER, env.policy.callCost(EMPTY_STATE, InterpretCall));
    var t2 := AfterCall(t1, env.policy.callCost(EMPTY_STATE, ProposeCall));
    assert CountTools([]) == map[];
    var last := RunLoopKeeps(env, clock, it, inv, t2, cap, 0);
    var end := Start(env, clock, cap).value;
    if end.inv.state.claims == [] {
      ClaimlessResumeRaises(later, again, end.inv, end.tracker, cap');
    }
  }

  /** The policy finds the goal answerable and proposes, with no empty question. */
  predicate ProposesAcceptably(env: Env) {
    && env.policy.interpret.Reply? && env.policy.interpret.value.answerable
    && env.policy.propose(env.policy.interpret.value).Reply?
    && "" !in env.policy.propose(env.policy.interpret.value).value.questions
  }

  /**
   Such runs occur: a fresh call for no experiments, under a policy that proposes no claims for an answerable goal,
   pauses without claims exactly where no limit binds after its two policy calls, and that pause cannot be resumed.
   */
  lemma ClaimlessPauseIsFinal(env: Env, clock: State -> real, it: Interpretation, questions: seq<string>,
                              again: State -> real, cap: Option<nat>)
    requires env.policy.interpret == Reply(it) && it.answerable
    requires env.policy.propose(it) == Reply(Proposals([], questions)) && "" !in questions
    ensures var r, inv := Start(env, clock, Some(0)), FreshInvestigation(env);
            var t1 := AfterCall(FRESH_TRACKER, env.policy.callCost(inv.state, InterpretCall));
            var t2 := AfterCall(t1, env.policy.callCost(inv.state, ProposeCall));
            var st := Generate(env, env.seed, EMPTY_STATE, Proposals([], questions)).value;
            && r.Ok? && (r.value.paused <==> RoomAtStart(env, t2.(elapsed := clock(st))))
            && (r.value.paused ==> AtHead(r.value.inv, r.value.tracker) && r.value.inv.state.claims == []
                                   && Resume(env, again, r.value.inv, cap) == Raised(IllegalLifecycleMove))
  {
    hide Consistent, Generate, Resume, RoomAtStart, Decide, Settles, EndedAt, PlanPass, Finalize, RecordUnanswerable;
    var p := Proposals([], questions);
    GenerateKeeps(env, env.seed, p);
    GenerateSucceeds(env, env.seed, p);
    GeneratedClaims(env, env.seed, p);
    var inv := FreshInvestigation(env).(state := Generate(env, env.seed, EMPTY_STATE, p).value, status := Running);
    var t1 := AfterCall(FRESH_TRACKER, env.policy.callCost(EMPTY_STATE, InterpretCall));
    var t2 := AfterCall(t1, env.policy.callCost(EMPTY_STATE, ProposeCall));
    assert CountTools([]) == map[];
    assert AtHead(inv, t2);
    DecideWithoutClaims(env, inv.state, t2.(elapsed := clock(inv.state)), ExecutedTools(inv.state),
                        IntentTools(it.intent, env.manifest));
    var t3, executed, tools := t2.(elapsed := clock(inv.state)), ExecutedTools(inv.state),
                               IntentTools(it.intent, env.manifest);
    match Decide(env, inv.state, t3, executed, tools)
    case None =>
      ClaimlessResumeRaises(env, again, inv, t3, cap);
    case Some(reason) =>
      DecideIsHonest(env, inv.state, t3, executed, tools);
      FinalizeEnds(env, inv, t3, reason);
  }

  /** A run without claims stops only for a limit. */
  lemma DecideWithoutClaims(env: Env, st: State, t: Tracker, executed: set<string>, tools: seq<string>)
    requires st.claims == [] && st.critiques == [] && st.iterationsUsed == 0
    ensures Decide(env, st, t, executed, tools) == None <==> RoomAtStart(env, t)
  {
  }
}
