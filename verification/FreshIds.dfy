/**
 Random ids leave no trace: two runs of one seed whose tools and domain objects were minted with different fresh ids,
 and agree on everything else, end in the same investigation, so the replay verdict is `identical`.
 */
module FreshIds {
  import opened Outcomes
  import opened Enums
  import opened Ids
  import opened Domain
  import opened Environment
  import opened Mutators
  import opened Scoring
  import opened Filing
  import opened Rivals
  import opened Criticism
  import opened Planning
  import opened Budgets
  import opened Concluding
  import opened Running
  import opened Diffing
  import opened Artifacts

  function BlankEvidence(items: seq<RawEvidence>): (r: seq<RawEvidence>)
    ensures |r| == |items|
  {
    seq(|items|, k requires 0 <= k < |items| => items[k].(freshId := ""))
  }

  function BlankObservations(items: seq<RawObservation>): (r: seq<RawObservation>)
    ensures |r| == |items|
  {
    seq(|items|, k requires 0 <= k < |items| => items[k].(freshId := ""))
  }

  /** A record with every id the tool minted at random blanked out. */
  function Blank(rec: Record): Record {
    rec.(observations := BlankObservations(rec.observations), evidence := BlankEvidence(rec.evidence),
         freshReproducibilityId := "")
  }

  /** Two environments whose records differ only in the random ids they supply. */
  ghost predicate SameButFresh(a: Env, b: Env) {
    && b == a.(freshGoalId := b.freshGoalId, freshDatasets := b.freshDatasets, run := b.run)
    && |a.freshDatasets| == |b.freshDatasets|
    && (forall k :: 0 <= k < |a.freshDatasets| ==>
          (a.freshDatasets[k].manifestId.Some? <==> b.freshDatasets[k].manifestId.Some?))
    && (forall r: Request :: Blank(a.run(r)) == Blank(b.run(r)))
  }

  lemma ResultForgets(seed: string, ordinal: nat, req: Request, x: Record, y: Record)
    requires Blank(x) == Blank(y)
    ensures ResultOf(seed, ordinal, req, x) == ResultOf(seed, ordinal, req, y)
  {
    assert |x.observations| == |BlankObservations(x.observations)| == |y.observations|;
    forall k | 0 <= k < |x.observations|
      ensures x.observations[k].content == y.observations[k].content
    {
      assert BlankObservations(x.observations)[k].content == BlankObservations(y.observations)[k].content;
    }
    var id := Make(seed, "res", ordinal);
    assert StampObservations(seed, ordinal, id, x.observations) == StampObservations(seed, ordinal, id, y.observations);
    assert Blank(x).errorDetail == x.errorDetail && Blank(y).errorDetail == y.errorDetail;
    assert Blank(x).summary == x.summary && Blank(y).summary == y.summary;
    assert Blank(x).status == x.status && Blank(y).status == y.status;
    assert Blank(x).artifactIds == x.artifactIds && Blank(y).artifactIds == y.artifactIds;
  }

  /** Pairs that agree up to the tool's own evidence ids. */
  predicate PairsAlike(p: seq<(RawEvidence, Option<string>)>, q: seq<(RawEvidence, Option<string>)>) {
    && |p| == |q|
    && forall k :: 0 <= k < |p| ==> p[k].0.(freshId := "") == q[k].0.(freshId := "") && p[k].1 == q[k].1
  }

  lemma {:induction false} PairingsAlike(x: seq<RawEvidence>, y: seq<RawEvidence>, targets: seq<string>)
    requires BlankEvidence(x) == BlankEvidence(y)
    ensures PairsAlike(Pairings(x, targets), Pairings(y, targets))
  {
    assert |x| == |BlankEvidence(x)| == |BlankEvidence(y)| == |y|;
    if x != [] {
      var n := |x| - 1;
      assert BlankEvidence(x)[n] == x[n].(freshId := "") && BlankEvidence(y)[n] == y[n].(freshId := "");
      assert BlankEvidence(x[..n]) == BlankEvidence(x)[..n] == BlankEvidence(y)[..n] == BlankEvidence(y[..n]);
      PairingsAlike(x[..n], y[..n], targets);
    }
  }

  lemma EvidenceForgets(seed: string, index: nat, expects: string -> Option<int>, claims: seq<Claim>,
                        p: (RawEvidence, Option<string>),
                        q: (RawEvidence, Option<string>), signal: int, resultId: string)
    requires p.0.(freshId := "") == q.0.(freshId := "") && p.1 == q.1
    ensures EvidenceFrom(seed, index, expects, claims, p, signal, resultId)
         == EvidenceFrom(seed, index, expects, claims, q, signal, resultId)
  {
    var a, b := p.0.(freshId := ""), q.0.(freshId := "");
    assert a.direction == p.0.direction && a.strength == p.0.strength && a.diagnostics == p.0.diagnostics;
    assert b.direction == q.0.direction && b.strength == q.0.strength && b.diagnostics == q.0.diagnostics;
  }

  lemma {:induction false} FilingForgets(seed: string, expects: string -> Option<int>, st: State,
                                         p: seq<(RawEvidence, Option<string>)>,
                                         q: seq<(RawEvidence, Option<string>)>, n: nat, signal: int, resultId: string)
    requires PairsAlike(p, q) && n <= |p|
    ensures FileFirst(seed, expects, st, p, n, signal, resultId) == FileFirst(seed, expects, st, q, n, signal, resultId)
  {
    if n > 0 {
      hide EvidenceFrom, AddEvidence;
      FilingForgets(seed, expects, st, p, q, n - 1, signal, resultId);
      var st1 := FileFirst(seed, expects, st, p, n - 1, signal, resultId);
      EvidenceForgets(seed, |st1.evidence|, expects, st1.claims, p[n - 1], q[n - 1], signal, resultId);
    }
  }

  lemma UpdateForgets(seed: string, expects: string -> Option<int>, st: State, req: Request, x: Record, y: Record)
    requires Blank(x) == Blank(y) && st.completed != []
    ensures UpdateEvidence(seed, expects, st, req, x) == UpdateEvidence(seed, expects, st, req, y)
  {
    hide FileFirst, Pairings, FirstSign, StatisticsSign;
    assert Blank(x).evidence == BlankEvidence(x.evidence) && Blank(y).evidence == BlankEvidence(y.evidence);
    assert Blank(x).metrics == x.metrics && Blank(y).metrics == y.metrics;
    assert Blank(x).statistics == x.statistics && Blank(y).statistics == y.statistics;
    var named, resultId := KnownTargets(st.claims, req.targets), st.completed[|st.completed| - 1].id;
    var p, q := Pairings(x.evidence, named), Pairings(y.evidence, named);
    PairingsAlike(x.evidence, y.evidence, named);
    FilingForgets(seed, expects, st, p, q, |p|, SignalSign(x), resultId);
  }

  lemma FoldForgets(a: Env, b: Env, seed: string, st: State, req: Request, x: Record, y: Record)
    requires SameButFresh(a, b) && Blank(x) == Blank(y)
    ensures FoldExperiment(a, seed, st, req, x) == FoldExperiment(b, seed, st, req, y)
    ensures x.status == y.status
  {
    hide UpdateEvidence, ScoreFirst, Enforce, ResultOf, FileResult;
    assert Blank(x).status == x.status && Blank(y).status == y.status;
    ResultForgets(seed, |st.completed| + |st.failed|, req, x, y);
    RecordedIsCompleted(seed, st, req, x);
    var st1 := RecordResult(seed, st, req, x);
    if st1.Ok? && x.status != FailedRun {
      UpdateForgets(seed, a.expects, st1.value, req, x, y);
    }
  }

  lemma RecordedIsCompleted(seed: string, st: State, req: Request, rec: Record)
    ensures RecordResult(seed, st, req, rec).Ok? && rec.status != FailedRun ==>
      RecordResult(seed, st, req, rec).value.completed != []
  {
    hide Answered, Unanswered, StampStatus, StampObservations;
  }

  lemma RecordsAlike(a: Env, b: Env, r: Request)
    requires SameButFresh(a, b)
    ensures Blank(a.run(r)) == Blank(b.run(r))
  {
    hide Blank;
  }

  lemma {:induction false} FoldsForget(a: Env, b: Env, seed: string, f: Fold, batch: seq<Request>, x: seq<Record>,
                                       y: seq<Record>, n: nat)
    requires SameButFresh(a, b) && n <= |batch| && |x| == |y| == |batch|
    requires forall k :: 0 <= k < |batch| ==> Blank(x[k]) == Blank(y[k])
    ensures FoldFirst(a, seed, f, batch, x, n) == FoldFirst(b, seed, f, batch, y, n)
  {
    hide FoldExperiment, AfterExperiment, Blank, SameButFresh;
    if n > 0 {
      FoldsForget(a, b, seed, f, batch, x, y, n - 1);
      var mid := FoldFirst(a, seed, f, batch, x, n - 1);
      if mid.Ok? {
        FoldForgets(a, b, seed, mid.value.state, batch[n - 1], x[n - 1], y[n - 1]);
      }
    }
  }

  lemma BatchForgets(a: Env, b: Env, seed: string, f: Fold, batch: seq<Request>)
    requires SameButFresh(a, b)
    ensures FoldFirst(a, seed, f, batch, RunAll(a.run, batch), |batch|)
         == FoldFirst(b, seed, f, batch, RunAll(b.run, batch), |batch|)
  {
    hide FoldFirst, Blank, SameButFresh;
    var x, y := RunAll(a.run, batch), RunAll(b.run, batch);
    forall k | 0 <= k < |batch|
      ensures Blank(x[k]) == Blank(y[k])
    {
      RecordsAlike(a, b, batch[k]);
    }
    FoldsForget(a, b, seed, f, batch, x, y, |batch|);
  }

  lemma EndsForget(a: Env, b: Env, inv: Investigation, t: Tracker, reason: Reason)
    requires SameButFresh(a, b)
    ensures Finalize(a, inv, t, reason) == Finalize(b, inv, t, reason) && FailSafe(a, inv, t) == FailSafe(b, inv, t)
  {
    hide Synthesize;
  }

  lemma ChallengeForgets(a: Env, b: Env, seed: string, it: Interpretation, st: State, executed: set<string>, t: Tracker)
    requires SameButFresh(a, b)
    ensures Challenge(a, seed, it, st, executed) == Challenge(b, seed, it, st, executed)
    ensures AfterCritique(a, st, t) == AfterCritique(b, st, t)
  {
    hide ClaimToChallenge, ApplyCritique, Unused;
  }

  lemma ClosePassForgets(a: Env, b: Env, it: Interpretation, inv: Investigation, f: Fold, executed: set<string>,
                         used: nat)
    requires SameButFresh(a, b)
    ensures ClosePass(a, it, inv, f, executed, used) == ClosePass(b, it, inv, f, executed, used)
  {
    hide Challenge, FailSafe, AfterCritique, SameButFresh, Finalize;
    ChallengeForgets(a, b, inv.id, it, f.state, executed, f.tracker);
    EndsForget(a, b, inv.(state := f.state), AfterCritique(a, f.state, f.tracker), InternalError);
  }

  lemma RunPassForgets(a: Env, b: Env, it: Interpretation, inv: Investigation, t: Tracker, batch: seq<Request>,
                       executed: set<string>, used: nat)
    requires SameButFresh(a, b) && batch != []
    ensures RunPass(a, it, inv, t, batch, executed, used) == RunPass(b, it, inv, t, batch, executed, used)
  {
    hide FoldFirst, ClosePass, SameButFresh, RunAll, ToolsOf;
    BatchForgets(a, b, inv.id, Fold(inv.state, t, false), batch);
    var f := FoldFirst(a, inv.id, Fold(inv.state, t, false), batch, RunAll(a.run, batch), |batch|);
    if f.Ok? {
      ClosePassForgets(a, b, it, inv, f.value, executed + ToolsOf(batch), used + |batch|);
    }
  }

  lemma PlanForgets(a: Env, b: Env, inv: Investigation, it: Interpretation, t: Tracker, limit: int)
    requires SameButFresh(a, b)
    ensures Candidates(a, inv.id, inv.state, it, t.toolUses) == Candidates(b, inv.id, inv.state, it, t.toolUses)
    ensures forall candidates ::
      SelectBatch(a, inv.id, inv.state, candidates, limit) == SelectBatch(b, inv.id, inv.state, candidates, limit)
    ensures forall candidates ::
      AfterChoosing(a, inv.state, t, candidates) == AfterChoosing(b, inv.state, t, candidates)
  {
    hide ConsiderGroups, ConsiderCritiques, ExecutedKeys, Groups, BatchFor, AcceptFirst;
  }

  lemma PlanPassForgets(a: Env, b: Env, it: Interpretation, inv: Investigation, t: Tracker, limit: int,
                        executed: set<string>, used: nat)
    requires SameButFresh(a, b)
    ensures PlanPass(a, it, inv, t, limit, executed, used) == PlanPass(b, it, inv, t, limit, executed, used)
  {
    hide Candidates, SelectBatch, AfterChoosing, RunPass, Finalize, FailSafe, ReasonWithoutCandidates, SameButFresh;
    PlanForgets(a, b, inv, it, t, limit);
    var candidates := Candidates(a, inv.id, inv.state, it, t.toolUses);
    var t1 := AfterChoosing(a, inv.state, t, candidates);
    match SelectBatch(a, inv.id, inv.state, candidates, limit)
    case Raised(e) =>
      EndsForget(a, b, inv, t1, InternalError);
    case Ok(sel) =>
      if sel.batch == [] {
        EndsForget(a, b, inv.(state := sel.state), t1, ReasonWithoutCandidates(sel.state, t1.experimentsUsed > 0));
      } else {
        RunPassForgets(a, b, it, inv.(state := sel.state), t1, sel.batch, executed, used);
      }
  }

  lemma DecideForgets(a: Env, b: Env, st: State, t: Tracker, executed: set<string>, tools: seq<string>)
    requires SameButFresh(a, b)
    ensures Decide(a, st, t, executed, tools) == Decide(b, st, t, executed, tools)
  {
  }

  lemma PassForgets(a: Env, b: Env, clock: State -> real, it: Interpretation, inv: Investigation, t: Tracker,
                    cap: Option<nat>, used: nat)
    requires SameButFresh(a, b)
    ensures PassOnce(a, clock, it, inv, t, cap, used) == PassOnce(b, clock, it, inv, t, cap, used)
  {
    hide Decide, PlanPass, Finalize, BatchLimit;
    var t0 := t.(elapsed := clock(inv.state));
    var executed, tools := ExecutedTools(inv.state), IntentTools(it.intent, a.manifest);
    DecideForgets(a, b, inv.state, t0, executed, tools);
    match Decide(a, inv.state, t0, executed, tools)
    case Some(reason) =>
      EndsForget(a, b, inv, t0, reason);
    case None =>
      PlanPassForgets(a, b, it, inv, t0, BatchLimit(t0, a.budget, cap, used), executed, used);
  }

  lemma {:induction false} LoopForgets(a: Env, b: Env, clock: State -> real, it: Interpretation, inv: Investigation,
                                       t: Tracker, cap: Option<nat>, used: nat)
    requires SameButFresh(a, b)
    ensures RunLoop(a, clock, it, inv, t, cap, used) == RunLoop(b, clock, it, inv, t, cap, used)
    decreases ExperimentsLeft(a, t)
  {
    hide PassOnce, SameButFresh;
    if inv.state.termination.None? {
      PassForgets(a, b, clock, it, inv, t, cap, used);
      var p := PassOnce(a, clock, it, inv, t, cap, used);
      if p.Ok? && p.value.Continue? {
        LoopForgets(a, b, clock, it, inv.(state := p.value.state), p.value.tracker, cap, p.value.usedThisCall);
      }
    }
  }

  lemma GenerateForgets(a: Env, b: Env, seed: string, st: State, p: Proposals)
    requires SameButFresh(a, b)
    ensures Generate(a, seed, st, p) == Generate(b, seed, st, p)
  {
    hide ClaimsFrom, MarkRivals, ProposalDecisions, ProposalQuestions;
  }

  lemma RunForgets(a: Env, b: Env, clock: State -> real, inv: Investigation, t: Tracker, cap: Option<nat>)
    requires SameButFresh(a, b)
    ensures Run(a, clock, inv, t, cap) == Run(b, clock, inv, t, cap)
  {
    hide RunLoop, Finalize, FailSafe, Generate, RecordUnanswerable, SameButFresh;
    SamePolicy(a, b);
    forall inv: Investigation, t: Tracker
      ensures FailSafe(a, inv, t) == FailSafe(b, inv, t)
      ensures Finalize(a, inv, t, UnanswerablePremise) == Finalize(b, inv, t, UnanswerablePremise)
    {
      EndsForget(a, b, inv, t, UnanswerablePremise);
    }
    if a.policy.interpret.Reply? {
      var it := a.policy.interpret.value;
      forall inv: Investigation, t: Tracker
        ensures RunLoop(a, clock, it, inv, t, cap, 0) == RunLoop(b, clock, it, inv, t, cap, 0)
      {
        LoopForgets(a, b, clock, it, inv, t, cap, 0);
      }
      if a.policy.propose(it).Reply? {
        GenerateForgets(a, b, inv.id, inv.state, a.policy.propose(it).value);
      }
    }
  }

  lemma SamePolicy(a: Env, b: Env)
    requires SameButFresh(a, b)
    ensures a.policy == b.policy && a.seed == b.seed
  {
  }

  /** The goal, datasets and manifests of a fresh investigation forget the ids they were minted with. */
  lemma FreshForgets(a: Env, b: Env)
    requires SameButFresh(a, b)
    ensures FreshInvestigation(a) == FreshInvestigation(b)
  {
    assert StampDatasets(a.seed, a.freshDatasets) == StampDatasets(b.seed, b.freshDatasets);
  }

  // Artifacts

  /** The ids of emitted artifacts: derived from names and bytes alone. */
  function EmittedIds(naming: Naming, es: seq<Emission>): seq<string> {
    seq(|es|, k requires 0 <= k < |es| => IdOf(naming, es[k]))
  }

  /** What a tool's records list are artifacts, all or some of those it emits; a failed record may list none. */
  ghost predicate Lists(run: Request -> Record, naming: Naming, listed: Request -> seq<Emission>) {
    forall r: Request :: run(r).artifactIds == EmittedIds(naming, listed(r))
  }

  function BlankAll(rec: Record): Record {
    Blank(rec).(artifactIds := [])
  }

  /**
   Two environments whose tools compute the same and list the same artifacts, and which supply random ids of their
   own.
   */
  ghost predicate SameWork(a: Env, b: Env, naming: Naming, x: Request -> seq<Emission>, y: Request -> seq<Emission>) {
    && b == a.(freshGoalId := b.freshGoalId, freshDatasets := b.freshDatasets, run := b.run)
    && |a.freshDatasets| == |b.freshDatasets|
    && (forall k :: 0 <= k < |a.freshDatasets| ==>
          (a.freshDatasets[k].manifestId.Some? <==> b.freshDatasets[k].manifestId.Some?))
    && (forall r: Request :: BlankAll(a.run(r)) == BlankAll(b.run(r)))
    && (forall r: Request :: x(r) == y(r))
    && Lists(a.run, naming, x) && Lists(b.run, naming, y)
  }

  /** The same artifacts get the same ids, so nothing but random ids is left to differ. */
  lemma SameWorkDiffersInFreshIds(a: Env, b: Env, naming: Naming, x: Request -> seq<Emission>,
                                  y: Request -> seq<Emission>)
    requires SameWork(a, b, naming, x, y)
    ensures SameButFresh(a, b)
  {
    forall r: Request
      ensures Blank(a.run(r)) == Blank(b.run(r))
    {
      var p, q := Blank(a.run(r)), Blank(b.run(r));
      assert BlankAll(a.run(r)) == BlankAll(b.run(r)) && x(r) == y(r);
      assert p.artifactIds == q.artifactIds;
      assert p == BlankAll(a.run(r)).(artifactIds := p.artifactIds)
             && q == BlankAll(b.run(r)).(artifactIds := q.artifactIds);
    }
  }

  /** Two runs that differ only in random ids come to the same end, and the replay verdict says `identical`. */
  lemma FreshIdsLeaveNoTrace(a: Env, b: Env, naming: Naming, x: Request -> seq<Emission>, y: Request -> seq<Emission>,
                             clock: State -> real, cap: Option<nat>)
    requires SameWork(a, b, naming, x, y)
    ensures Start(a, clock, cap) == Start(b, clock, cap)
    ensures Start(a, clock, cap).Ok? ==>
      VerdictOf(Start(a, clock, cap).value.inv, Start(b, clock, cap).value.inv) == Identical
  {
    hide Run, VerdictOf, SameButFresh, SameWork, FreshInvestigation;
    SameWorkDiffersInFreshIds(a, b, naming, x, y);
    FreshForgets(a, b);
    RunForgets(a, b, clock, FreshInvestigation(a), FRESH_TRACKER, cap);
    if Start(a, clock, cap).Ok? {
      var inv := Start(a, clock, cap).value.inv;
      IdenticalIsAnEquivalence(inv, inv, inv);
    }
  }
}
