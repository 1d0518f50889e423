/**
 How a run opens and what one turn of its loop comes to, case by case: who is asked, what is run, and for which reason a
 run ends where it ends.
 */
module Turns {
  import opened Outcomes
  import opened Enums
  import opened Ids
  import opened Domain
  import opened Environment
  import opened Criticism
  import opened Planning
  import opened Budgets
  import opened Concluding
  import opened Running
  import opened Folding
  import opened PlanningProofs
  import opened Checkpoints
  import opened Runs

  // Openings

  /** A fresh call that never gets to its loop: it has claims from nobody, and it ended for this reason. */
  predicate EndsUnstarted(r: Outcome<End>, seed: string, reason: Reason) {
    && r.Ok? && !r.value.paused && r.value.inv.id == seed && r.value.inv.state.claims == []
    && r.value.inv.status == TerminalStatus(reason)
    && r.value.inv.state.termination == Some(Termination(reason, 0)) && r.value.inv.state.executed == []
  }

  /**
   A fresh run asks for the goal's meaning, then for claims, and then loops over them; a malformed answer to either, or
   a goal found unanswerable, ends it before.
   */
  lemma FreshRunOpens(env: Env, clock: State -> real, cap: Option<nat>)
    ensures var r := Start(env, clock, cap);
            match env.policy.interpret
            case Malformed => EndsUnstarted(r, env.seed, InternalError) && r.value.tracker.modelCalls == 2
            case Reply(it) =>
              if !it.answerable then
                && EndsUnstarted(r, env.seed, UnanswerablePremise) && r.value.tracker.modelCalls == 2
                && |r.value.inv.state.questions| == 1 && r.value.inv.state.questions[0].about == []
                && r.value.inv.state.conclusion.Some?
                && r.value.inv.state.conclusion.value.disposition == UnanswerableFinding
              else
                match env.policy.propose(it)
                case Malformed => EndsUnstarted(r, env.seed, InternalError) && r.value.tracker.modelCalls == 3
                case Reply(p) =>
                  if "" in p.questions then r == Raised(InvalidModel)
                  else
                    var inv := FreshInvestigation(env);
                    var t1 := AfterCall(FRESH_TRACKER, env.policy.callCost(inv.state, InterpretCall));
                    var t2 := AfterCall(t1, env.policy.callCost(inv.state, ProposeCall));
                    var st := Generate(env, env.seed, EMPTY_STATE, p).value;
                    r == RunLoop(env, clock, it, inv.(state := st, status := Running), t2, cap, 0)
  {
    hide Start, RunLoop, Make, Generate;
    match env.policy.interpret
    case Malformed =>
      UnreadRunEnds(env, clock, cap);
    case Reply(it) =>
      if !it.answerable {
        DeclinedRunEnds(env, clock, cap);
      } else if env.policy.propose(it).Reply? {
        GenerateSucceeds(env, env.seed, env.policy.propose(it).value);
        AnsweredRunStarts(env, clock, cap, it, env.policy.propose(it).value);
      } else {
        UnproposedRunEnds(env, clock, cap, it);
      }
  }

  lemma UnreadRunEnds(env: Env, clock: State -> real, cap: Option<nat>)
    requires env.policy.interpret.Malformed?
    ensures var r := Start(env, clock, cap);
            EndsUnstarted(r, env.seed, InternalError) && r.value.tracker.modelCalls == 2
  {
    hide RunLoop, Make, Generate;
  }

  lemma DeclinedRunEnds(env: Env, clock: State -> real, cap: Option<nat>)
    requires env.policy.interpret.Reply? && !env.policy.interpret.value.answerable
    ensures var r := Start(env, clock, cap);
            && EndsUnstarted(r, env.seed, UnanswerablePremise) && r.value.tracker.modelCalls == 2
            && |r.value.inv.state.questions| == 1 && r.value.inv.state.questions[0].about == []
            && r.value.inv.state.conclusion.Some?
            && r.value.inv.state.conclusion.value.disposition == UnanswerableFinding
  {
    hide RunLoop, Make, Generate;
  }

  lemma UnproposedRunEnds(env: Env, clock: State -> real, cap: Option<nat>, it: Interpretation)
    requires env.policy.interpret == Reply(it) && it.answerable && env.policy.propose(it).Malformed?
    ensures var r := Start(env, clock, cap);
            EndsUnstarted(r, env.seed, InternalError) && r.value.tracker.modelCalls == 3
  {
    hide RunLoop, Make;
  }

  lemma AnsweredRunStarts(env: Env, clock: State -> real, cap: Option<nat>, it: Interpretation, p: Proposals)
    requires env.policy.interpret == Reply(it) && it.answerable && env.policy.propose(it) == Reply(p)
    ensures var st := Generate(env, env.seed, EMPTY_STATE, p);
            var inv := FreshInvestigation(env);
            var t1 := AfterCall(FRESH_TRACKER, env.policy.callCost(inv.state, InterpretCall));
            var t2 := AfterCall(t1, env.policy.callCost(inv.state, ProposeCall));
            Start(env, clock, cap)
            == if st.Raised? then Raised(st.error)
               else RunLoop(env, clock, it, inv.(state := st.value, status := Running), t2, cap, 0)
  {
    hide RunLoop, Make, Generate;
  }

  /** A run that has claims asks for the goal's meaning and loops over them, through planning if it was only created. */
  lemma ClaimedRunOpens(env: Env, clock: State -> real, inv: Investigation, t: Tracker, cap: Option<nat>)
    requires inv.state.claims != [] && env.policy.interpret.Reply?
    ensures Run(env, clock, inv, t, cap)
         == RunLoop(env, clock, env.policy.interpret.value,
                    if inv.status == Created then inv.(status := Running) else inv,
                    AfterCall(t, env.policy.callCost(inv.state, InterpretCall)), cap, 0)
  {
    hide RunLoop;
  }

  /** A resumed run with claims asks for the goal's meaning and loops on, with counters rebuilt from its results. */
  lemma ResumedRunOpens(env: Env, clock: State -> real, inv: Investigation, t: Tracker, cap: Option<nat>)
    requires AtHead(inv, t) && inv.state.claims != []
    ensures var r := Resume(env, clock, inv, cap);
            match env.policy.interpret
            case Malformed => r.Ok? && EndedAt(inv.state, InternalError, r.value.inv)
            case Reply(it) =>
              exists u: Tracker ::
                r == RunLoop(env, clock, it, inv, u, cap, 0) && Accounts(inv.state, u)
                && u.modelCalls == 1 && u.consecutiveFailures == 0
  {
    hide RunLoop, Consistent, FailSafe, EndedAt;
    ConsistentIsFiled(inv);
    RebuiltAccounts(inv.id, inv.state);
    var u := AfterCall(RebuiltTracker(inv.state), env.policy.callCost(inv.state, InterpretCall));
    if env.policy.interpret.Malformed? {
      FailSafeEnds(env, inv, u);
    } else {
      var it := env.policy.interpret.value;
      assert Resume(env, clock, inv, cap) == RunLoop(env, clock, it, inv, u, cap, 0);
    }
  }

  // Turns

  /** Some experiment of the batch did not fail. */
  predicate AnySucceeds(env: Env, batch: seq<Request>) {
    exists k :: 0 <= k < |batch| && env.run(batch[k]).status != FailedRun
  }

  predicate AnyOf(records: seq<Record>, n: nat)
    requires n <= |records|
  {
    exists k :: 0 <= k < n && records[k].status != FailedRun
  }

  lemma {:induction false} FoldNotesSuccess(env: Env, seed: string, f: Fold, batch: seq<Request>, records: seq<Record>,
                                            n: nat)
    requires |records| == |batch| && n <= |batch|
    ensures var r := FoldFirst(env, seed, f, batch, records, n);
            r.Ok? ==> (r.value.anySucceeded <==> f.anySucceeded || AnyOf(records, n))
  {
    hide FoldExperiment, AfterExperiment;
    if n > 0 {
      FoldNotesSuccess(env, seed, f, batch, records, n - 1);
      assert AnyOf(records, n) <==> AnyOf(records, n - 1) || records[n - 1].status != FailedRun;
    }
  }

  /** The experiments a folded batch leaves behind, each with its own outcome. */
  predicate RanAfter(env: Env, st: State, batch: seq<Request>, r: State) {
    && |r.executed| == |st.executed| + |batch|
    && forall k :: 0 <= k < |batch| ==>
         r.executed[|st.executed| + k] == batch[k].(status := env.run(batch[k]).status)
  }

  lemma BatchFolds(env: Env, inv: Investigation, t: Tracker, batch: seq<Request>)
    requires batch != [] && DistinctRequestIds(batch)
    requires Consistent(inv.id, inv.state) && inv.state.pending == batch && Accounts(inv.state, t)
    ensures var f := FoldFirst(env, inv.id, Fold(inv.state, t, false), batch, RunAll(env.run, batch), |batch|);
            f.Ok? ==>
              && Consistent(inv.id, f.value.state) && RanAfter(env, inv.state, batch, f.value.state)
              && f.value.state.iterationsUsed == inv.state.iterationsUsed
              && f.value.tracker.modelCalls == t.modelCalls && (f.value.anySucceeded <==> AnySucceeds(env, batch))
  {
    hide Consistent, FoldFirst, CountTools, Fileable, RunAll, BatchFolded, RanAfter, AnyOf, AnySucceeds;
    var records, f0 := RunAll(env.run, batch), Fold(inv.state, t, false);
    FoldFirstKeeps(env, inv.id, f0, batch, records, |batch|);
    FoldNotesSuccess(env, inv.id, f0, batch, records, |batch|);
    RecordsSucceed(env, batch);
    var f := FoldFirst(env, inv.id, f0, batch, records, |batch|);
    if f.Ok? {
      FoldedRan(env, inv.id, inv.state, f.value.state, batch);
    }
  }

  lemma RecordsSucceed(env: Env, batch: seq<Request>)
    ensures AnyOf(RunAll(env.run, batch), |batch|) <==> AnySucceeds(env, batch)
  {
  }

  lemma FoldedRan(env: Env, seed: string, st: State, r: State, batch: seq<Request>)
    requires BatchFolded(seed, st, r, batch, RunAll(env.run, batch), |batch|)
    ensures Consistent(seed, r) && RanAfter(env, st, batch, r) && r.iterationsUsed == st.iterationsUsed
  {
    hide Consistent, CarryOn;
    var records := RunAll(env.run, batch);
    forall k | 0 <= k < |batch|
      ensures r.executed[|st.executed| + k] == batch[k].(status := env.run(batch[k]).status)
    {
      assert Stamped(batch, records, |batch|)[k] == batch[k].(status := records[k].status);
    }
  }

  /** Closing a turn adds an iteration, and the critic's call if something succeeded and somebody can be asked about. */
  lemma TurnCloses(env: Env, it: Interpretation, inv: Investigation, f: Fold, executed: set<string>, used: nat)
    requires Consistent(inv.id, f.state)
    ensures var r := ClosePass(env, it, inv, f, executed, used);
            r.Ok? && r.value.Continue? ==>
              && r.value.usedThisCall == used && r.value.state.iterationsUsed == f.state.iterationsUsed + 1
              && r.value.state.executed == f.state.executed
              && r.value.tracker.modelCalls
                 == f.tracker.modelCalls + (if f.anySucceeded && ClaimToChallenge(f.state).Some? then 1 else 0)
              && (!f.anySucceeded ==> r.value.state == f.state.(iterationsUsed := f.state.iterationsUsed + 1))
  {
    hide Consistent, Challenge, FailSafe, ClaimToChallenge, CarryOn;
    ChallengeKeeps(env, inv.id, it, f.state, executed);
  }

  /**
   A turn that runs a batch and goes on: one iteration more, as many experiments more as the batch has, and the critic's
   call charged exactly when something succeeded and there is somebody to ask about.
   */
  lemma BatchMeans(env: Env, it: Interpretation, inv: Investigation, t: Tracker, batch: seq<Request>,
                   executed: set<string>, used: nat) returns (folded: State)
    requires batch != [] && DistinctRequestIds(batch)
    requires Consistent(inv.id, inv.state) && inv.state.pending == batch && Accounts(inv.state, t)
    ensures var r := RunPass(env, it, inv, t, batch, executed, used);
            r.Ok? && r.value.Continue? ==>
              && r.value.usedThisCall == used + |batch|
              && r.value.state.iterationsUsed == inv.state.iterationsUsed + 1
              && RanAfter(env, inv.state, batch, r.value.state)
              && r.value.tracker.modelCalls
                 == t.modelCalls + (if AnySucceeds(env, batch) && ClaimToChallenge(folded).Some? then 1 else 0)
              && (!AnySucceeds(env, batch) ==> r.value.state == folded.(iterationsUsed := folded.iterationsUsed + 1))
  {
    hide Consistent, FoldFirst, ClosePass, CountTools, ClaimToChallenge, AnySucceeds;
    var f := FoldFirst(env, inv.id, Fold(inv.state, t, false), batch, RunAll(env.run, batch), |batch|);
    folded := if f.Ok? then f.value.state else inv.state;
    BatchFolds(env, inv, t, batch);
    if f.Ok? {
      TurnCloses(env, it, inv, f.value, executed + ToolsOf(batch), used + |batch|);
    }
  }

  /**
   A turn, case by case: it stops for the reason the decision gives; pauses at the cap, with nothing changed; ends for
   want of anything to run, or of a choice; fails over a malformed choice; and otherwise runs the batch chosen.
   */
  lemma TurnMeans(env: Env, clock: State -> real, it: Interpretation, inv: Investigation, t: Tracker, cap: Option<nat>,
                  used: nat)
    requires AtHead(inv, t)
    ensures var r, st, t0 := PassOnce(env, clock, it, inv, t, cap, used), inv.state, t.(elapsed := clock(inv.state));
            var tools := IntentTools(it.intent, env.manifest);
            var candidates := Candidates(env, inv.id, st, it, t.toolUses);
            match Decide(env, st, t0, ExecutedTools(st), tools)
            case Some(reason) => Stops(r, st, reason) && r.value.end.tracker.modelCalls == t.modelCalls + 1
            case None =>
              if cap.Some? && used >= cap.value then r == Ok(Stop(End(inv, t0, true)))
              else if candidates == [] then
                Stops(r, st, ReasonWithoutCandidates(st, t.experimentsUsed > 0))
                && r.value.end.tracker.modelCalls == t.modelCalls + 1
              else
                match env.policy.choose(st, candidates)
                case Malformed => Stops(r, st, InternalError) && r.value.end.tracker.modelCalls == t.modelCalls + 2
                case Reply(index) =>
                  var batch := BatchFor(candidates, index, BatchLimit(t0, env.budget, cap, used));
                  if batch == [] then
                    Stops(r, st, ReasonWithoutCandidates(st, t.experimentsUsed > 0))
                    && r.value.end.tracker.modelCalls == t.modelCalls + 2
                  else
                    var picked := AcceptFirst(inv.id, st, batch, |batch|);
                    r == RunPass(env, it, inv.(state := picked), AfterCall(t0, env.policy.callCost(st, ChooseCall)),
                                 batch, ExecutedTools(st), used)
  {
    hide Consistent, Candidates, Decide, RunPass, EndedAt, CountTools, ReasonWithoutCandidates, BatchFor, AcceptFirst,
         Settles, Synthesize;
    var st, t0 := inv.state, t.(elapsed := clock(inv.state));
    var executed, tools := ExecutedTools(st), IntentTools(it.intent, env.manifest);
    var candidates := Candidates(env, inv.id, st, it, t.toolUses);
    var t1 := AfterChoosing(env, st, t0, candidates);
    DecideIsHonest(env, st, t0, executed, tools);
    NothingAccepted(inv.id, st);
    match Decide(env, st, t0, executed, tools)
    case Some(reason) =>
      FinalizeEnds(env, inv, t0, reason);
    case None =>
      FinalizeEnds(env, inv, t1, ReasonWithoutCandidates(st, t.experimentsUsed > 0));
      FailSafeEnds(env, inv, t1);
  }

  /** The turn ends the run for a reason, from the state it began in. */
  predicate Stops(r: Outcome<Pass>, st: State, reason: Reason) {
    r.Ok? && r.value.Stop? && !r.value.end.paused && EndedAt(st, reason, r.value.end.inv)
  }

  /** The tools already run are those of every filed result. */
  lemma ExecutedMeans(st: State)
    ensures forall tool :: tool in ExecutedTools(st) <==>
      (exists k :: 0 <= k < |st.completed| && st.completed[k].tool == tool)
      || exists k :: 0 <= k < |st.failed| && st.failed[k].tool == tool
  {
  }
}
