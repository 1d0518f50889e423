/** The components that fold one finished experiment into the state, in place: executor, evidence, claims and rivals. */
module Updating {
  import opened Outcomes
  import opened Enums
  import opened Ids
  import opened Domain
  import opened Environment
  import opened Mutators
  import opened Scoring
  import opened Filing
  import opened Rivals
  import opened Entities
  import Running

  // HypothesisUpdater

  /** max(e.strength for e in items, default=0.0) */
  method StrongestOf(items: seq<Evidence>) returns (s: real)
    ensures s == Strongest(items)
  {
    s := 0.0;
    for k := 0 to |items|
      invariant s == Strongest(items[..k])
    {
      assert items[..k + 1][..k] == items[..k];
      s := Max(s, items[k].strength);
    }
    assert items[..|items|] == items;
  }

  /** The part of _score that moves the claim itself. */
  method Revise(h: Hypothesis, supports: seq<Evidence>, refutes: seq<Evidence>, log: seq<Evidence>)
    returns (o: Outcome<()>)
    requires supports == Bearing(log, h.id, Supports) && refutes == Bearing(log, h.id, Refutes)
    modifies h
    ensures Refines(o, Rescore(old(h.View()), log), h.View())
  {
    hide Bearing, Strongest, AllowedClaimMoves;
    if h.status == Proposed {
      var moved := h.SetStatus(Active);
      if moved.Raised? {
        return moved;
      }
    }
    var s := StrongestOf(supports);
    var r := StrongestOf(refutes);
    o := Ok(());
    if supports != [] && refutes != [] {
      o := h.SetStatus(Weakened);
      if o.Ok? {
        o := h.SetConfidence(Max(0.25, 0.5 + 0.2 * (s - r)));
      }
    } else if supports != [] {
      if s >= SUPPORT_THRESHOLD {
        o := h.SetStatus(Supported);
        if o.Ok? {
          o := h.SetConfidence(Min(0.95, 0.55 + s / 2.0));
        }
      } else {
        o := h.SetConfidence(0.45 + s / 4.0);
      }
    } else if refutes != [] {
      if r >= SUPPORT_THRESHOLD {
        o := h.SetStatus(Rejected);
        if o.Ok? {
          o := h.SetConfidence(Max(0.05, 0.4 - r / 2.0));
        }
      } else {
        o := h.SetStatus(Weakened);
        if o.Ok? {
          o := h.SetConfidence(Max(0.2, 0.45 - r / 4.0));
        }
      }
    }
  }

  /** HypothesisUpdater._score */
  method Score(seed: string, st: InvestigationState, target: string) returns (o: Outcome<()>)
    requires st.Valid()
    modifies st`decisions, st`openQuestions, st.hypotheses
    ensures Refines(o, ScoreClaim(seed, old(st.View()), target), st.View())
  {
    hide Rescore, Bearing, Strongest, FindClaim;
    var found := st.FindHypothesis(target);
    if found.None? {
      return Ok(());
    }
    var h := st.hypotheses[found.value];
    if IsTerminal(h.status) {
      return Ok(());
    }
    var supports := st.EvidenceFor(h.id, Supports);
    var refutes := st.EvidenceFor(h.id, Refutes);
    o := Revise(h, supports, refutes, st.evidence);
    if o.Raised? {
      return;
    }
    assert Views(st.hypotheses) == old(Views(st.hypotheses))[found.value := h.View()];
    st.RecordDecision(seed, "dec-rev", [h.id]);
    var s := StrongestOf(supports);
    if h.status == Active && 0.0 < s < SUPPORT_THRESHOLD {
      st.AddOpenQuestion(seed, "q-follow", [h.id]);
    }
  }

  /** HypothesisUpdater.update: every claim the experiment was raised to test. */
  method UpdateHypotheses(seed: string, st: InvestigationState, targets: seq<string>) returns (o: Outcome<()>)
    requires st.Valid()
    modifies st`decisions, st`openQuestions, st.hypotheses
    ensures Refines(o, ScoreFirst(seed, old(st.View()), targets, |targets|), st.View())
  {
    hide ScoreClaim;
    ghost var before := st.View();
    var n := 0;
    while n < |targets|
      invariant 0 <= n <= |targets|
      invariant ScoreFirst(seed, before, targets, n) == Ok(st.View())
    {
      o := Score(seed, st, targets[n]);
      if o.Raised? {
        RaisedEarly(seed, before, targets, n + 1);
        return;
      }
      n := n + 1;
    }
    return Ok(());
  }

  /** An exception at one target is the outcome of the whole update. */
  lemma {:induction false} RaisedEarly(seed: string, st: State, targets: seq<string>, n: nat)
    requires n <= |targets| && ScoreFirst(seed, st, targets, n).Raised?
    ensures ScoreFirst(seed, st, targets, |targets|) == ScoreFirst(seed, st, targets, n)
    decreases |targets| - n
  {
    hide ScoreClaim;
    if n < |targets| {
      RaisedEarly(seed, st, targets, n + 1);
    }
  }

  // ExperimentExecutor.record

  /** Fold one finished experiment into the state: the result under its deterministic id, its request retired. */
  method RecordExperiment(seed: string, st: InvestigationState, req: Request, rec: Record) returns (o: Outcome<()>)
    requires st.Valid()
    modifies st`pendingExperiments, st`executedRequests, st`completedExperiments, st`failedExperiments,
             st`experimentsUsed, st`observations
    ensures Refines(o, RecordResult(seed, old(st.View()), req, rec), st.View())
  {
    hide FileResult;
    if rec.errorDetail.Some? || |rec.summary| > MAX_SUMMARY {
      return Raised(InvalidModel);
    }
    var ordinal := |st.completedExperiments| + |st.failedExperiments|;
    var id := Make(seed, "res", ordinal);
    var stamped := Stamp(seed, ordinal, id, rec.observations);
    var pending := StampRequest(st.pendingExperiments, req.id, rec.status);
    st.pendingExperiments := pending;
    st.RecordExperimentResult(Result(id, req.id, req.tool, rec.status, stamped, [], rec.artifactIds,
                                     Make(seed, "repro", ordinal)));
    return Ok(());
  }

  method Stamp(seed: string, ordinal: nat, resultId: string, raw: seq<RawObservation>) returns (r: seq<Observation>)
    ensures r == StampObservations(seed, ordinal, resultId, raw)
  {
    r := [];
    for k := 0 to |raw|
      invariant r == StampObservations(seed, ordinal, resultId, raw)[..k]
    {
      r := r + [Observation(Make(seed, "obs-" + Decimal(ordinal), k), resultId, raw[k].content)];
    }
  }

  method StampRequest(pending: seq<Request>, requestId: string, status: ExperimentStatus) returns (r: seq<Request>)
    ensures r == StampStatus(pending, requestId, status)
  {
    r := pending;
    for k := 0 to |pending|
      invariant |r| == |pending|
      invariant forall j :: 0 <= j < |r| ==>
        r[j] == if j < k then StampStatus(pending, requestId, status)[j] else pending[j]
    {
      if r[k].id == requestId {
        r := r[k := r[k].(status := status)];
      }
    }
  }

  // EvidenceUpdater

  /** The request's targets that name a claim of this state. */
  method NamedTargets(st: InvestigationState, targets: seq<string>) returns (named: seq<string>)
    ensures named == KnownTargets(st.View().claims, targets)
  {
    hide FindClaim;
    named := [];
    for k := 0 to |targets|
      invariant named == KnownTargets(st.View().claims, targets[..k])
    {
      assert targets[..k + 1][..k] == targets[..k];
      var found := st.FindHypothesis(targets[k]);
      if found.Some? {
        named := named + [targets[k]];
      }
    }
    assert targets[..|targets|] == targets;
  }

  method PairUp(items: seq<RawEvidence>, named: seq<string>) returns (pairs: seq<(RawEvidence, Option<string>)>)
    ensures pairs == Pairings(items, named)
  {
    pairs := [];
    for k := 0 to |items|
      invariant pairs == Pairings(items[..k], named)
    {
      assert items[..k + 1][..k] == items[..k];
      if named == [] {
        pairs := pairs + [(items[k], None)];
      } else {
        ghost var before := pairs;
        for t := 0 to |named|
          invariant pairs == before + seq(t, j requires 0 <= j < t => (items[k], Some(named[j])))
        {
          pairs := pairs + [(items[k], Some(named[t]))];
        }
      }
    }
    assert items[..|items|] == items;
  }

  /** One item filed against one claim, or against none. */
  method FileOne(seed: string, st: InvestigationState, expects: string -> Option<int>,
                 pair: (RawEvidence, Option<string>),
                 recordSignal: int, resultId: string)
    returns (id: string)
    requires st.Valid()
    modifies st`evidence, st.hypotheses
    ensures st.View()
         == AddEvidence(old(st.View()), EvidenceFrom(seed, |old(st.evidence)|, expects, old(st.View()).claims, pair,
                                                                   recordSignal, resultId))
    ensures st.evidence
         == old(st.evidence) + [EvidenceFrom(seed, |old(st.evidence)|, expects, old(st.View()).claims, pair,
                                                            recordSignal, resultId)]
    ensures id == st.evidence[|old(st.evidence)|].id
  {
    hide FindClaim, DirectionFor, AddEvidence;
    var expected: Option<int> := None;
    if Truthy(pair.1) {
      var found := st.FindHypothesis(pair.1.value);
      if found.Some? {
        expected := expects(st.hypotheses[found.value].statement);
      }
    }
    var direction := DirectionFor(expected, pair.0, recordSignal);
    var e := Evidence(Make(seed, "evd", |st.evidence|), resultId, if Truthy(pair.1) then [pair.1.value] else [],
                      direction, pair.0.strength);
    assert e == EvidenceFrom(seed, |st.evidence|, expects, st.View().claims, pair, recordSignal, resultId);
    st.AddEvidence(e);
    id := e.id;
    AddedEvidence(old(st.View()), e);
  }

  lemma AddedEvidence(st: State, e: Evidence)
    ensures AddEvidence(st, e).evidence == st.evidence + [e]
  {
  }

  lemma NoIds(log: seq<Evidence>)
    ensures EvidenceIds(log[|log|..]) == []
  {
  }

  /** One item more, one id more. */
  lemma OneMoreId(log: seq<Evidence>, more: seq<Evidence>, from: nat)
    requires from <= |log| && |more| == |log| + 1 && log <= more
    ensures EvidenceIds(more[from..]) == EvidenceIds(log[from..]) + [more[|log|].id]
  {
    assert more[from..] == log[from..] + [more[|log|]];
    EvidenceIdsAppend(log[from..], more[|log|]);
  }

  /** The filing loop over every item and target. */
  method FileAll(seed: string, st: InvestigationState, expects: string -> Option<int>,
                 pairs: seq<(RawEvidence, Option<string>)>, recordSignal: int, resultId: string)
    returns (produced: seq<string>)
    requires st.Valid()
    modifies st`evidence, st.hypotheses
    ensures st.View() == FileFirst(seed, expects, old(st.View()), pairs, |pairs|, recordSignal, resultId)
    ensures old(st.evidence) <= st.evidence && produced == EvidenceIds(st.evidence[|old(st.evidence)|..])
  {
    hide AddEvidence, EvidenceFrom, Views, EvidenceIds;
    NoIds(st.evidence);
    produced := [];
    for n := 0 to |pairs|
      invariant st.View() == FileFirst(seed, expects, old(st.View()), pairs, n, recordSignal, resultId)
      invariant old(st.evidence) <= st.evidence && produced == EvidenceIds(st.evidence[|old(st.evidence)|..])
    {
      ghost var before := st.evidence;
      var id := FileOne(seed, st, expects, pairs[n], recordSignal, resultId);
      produced := produced + [id];
      OneMoreId(before, st.evidence, |old(st.evidence)|);
    }
  }

  /** `result.produced_evidence_ids = [...]` on the result filed last. */
  method TellResult(st: InvestigationState, produced: seq<string>)
    requires st.completedExperiments != []
    modifies st`completedExperiments
    ensures st.View() == old(st.View()).(completed := SetProduced(old(st.View()).completed, produced))
  {
    var last := |st.completedExperiments| - 1;
    st.completedExperiments := st.completedExperiments[last := st.completedExperiments[last].(producedIds := produced)];
  }

  /**
   EvidenceUpdater.update, for the result just filed: the evidence filed, the result told what it produced, the
   decision logged.
   */
  method UpdateEvidenceFor(seed: string, st: InvestigationState, expects: string -> Option<int>, req: Request,
                           rec: Record)
    requires st.Valid() && st.completedExperiments != []
    modifies st`evidence, st`completedExperiments, st`decisions, st.hypotheses
    ensures st.View() == UpdateEvidence(seed, expects, old(st.View()), req, rec)
  {
    hide FileFirst, SignalSign, Pairings, KnownTargets, SetProduced, LogDecision, EvidenceIds, Views;
    ghost var before := st.View();
    var named := NamedTargets(st, req.targets);
    var pairs := PairUp(rec.evidence, named);
    var resultId := st.completedExperiments[|st.completedExperiments| - 1].id;
    FileFirstKeeps(seed, expects, before, pairs, |pairs|, SignalSign(rec), resultId);
    var produced := FileAll(seed, st, expects, pairs, SignalSign(rec), resultId);
    TellResult(st, produced);
    if produced != [] && named != [] {
      st.RecordDecision(seed, "dec-evd", named);
    }
  }

  // Rivals

  /** One side of a conflict is weakened and capped, and the decision says so. */
  method Weaken(seed: string, st: InvestigationState, k: nat, other: nat) returns (o: Outcome<()>)
    requires st.Valid() && k < |st.hypotheses| && other < |st.hypotheses|
    modifies st`decisions, st.hypotheses
    ensures Refines(o, WeakenSide(seed, old(st.View()), k, other), st.View())
  {
    hide AllowedClaimMoves;
    var side := st.hypotheses[k];
    o := side.SetStatus(Weakened);
    if o.Raised? {
      return;
    }
    o := side.SetConfidence(Min(side.confidence, CONTRADICTION_CONFIDENCE_CAP));
    if o.Raised? {
      return;
    }
    assert Views(st.hypotheses) == old(Views(st.hypotheses))[k := side.View()];
    st.RecordDecision(seed, "dec-contra", [side.id, st.hypotheses[other].id]);
  }

  /** The conflict over two claims is filed, both are weakened, and the question it leaves is recorded. */
  method RecordConflictOver(seed: string, st: InvestigationState, k: nat, other: nat, suggested: Option<string>)
    returns (o: Outcome<()>)
    requires st.Valid() && k < |st.hypotheses| && other < |st.hypotheses|
    modifies st`critiques, st`decisions, st`openQuestions, st.hypotheses
    ensures Refines(o, RecordConflict(seed, old(st.View()), k, other, suggested), st.View())
  {
    hide WeakenSide, Views;
    var a, b := st.hypotheses[k].id, st.hypotheses[other].id;
    assert a == st.View().claims[k].id && b == st.View().claims[other].id;
    st.AddCritique(Critique(Make(seed, "crit", |st.critiques|), true, a, Some(b), suggested, false));
    o := Weaken(seed, st, k, other);
    if o.Raised? {
      return;
    }
    o := Weaken(seed, st, other, k);
    if o.Raised? {
      return;
    }
    st.AddOpenQuestion(seed, "q-contra", [a, b]);
  }

  /** enforce_mutual_exclusivity */
  method EnforceMutualExclusivity(seed: string, st: InvestigationState) returns (o: Outcome<()>)
    requires st.Valid()
    modifies st`critiques, st`decisions, st`openQuestions, st.hypotheses
    ensures Refines(o, Enforce(seed, old(st.View())), st.View())
  {
    hide SweepRivals, Views;
    ghost var before := st.View();
    var seen: set<set<string>> := {};
    var n := 0;
    while n < |st.hypotheses|
      invariant 0 <= n <= |st.hypotheses|
      invariant SweepClaims(seed, before, n) == Ok(Sweep(st.View(), seen))
    {
      var claim := st.hypotheses[n];
      assert claim.View() == st.View().claims[n];
      if claim.status == Supported {
        o, seen := EnforceRivals(seed, st, n, claim.exclusiveWith, seen);
        if o.Raised? {
          SweepRaisedEarly(seed, before, n + 1);
          return;
        }
      }
      n := n + 1;
    }
    return Ok(());
  }

  /** The inner loop: the rivals of one supported claim. */
  method EnforceRivals(seed: string, st: InvestigationState, k: nat, rivals: seq<string>, seen: set<set<string>>)
    returns (o: Outcome<()>, now: set<set<string>>)
    requires st.Valid() && k < |st.hypotheses|
    modifies st`critiques, st`decisions, st`openQuestions, st.hypotheses
    ensures Refines(o, SweepRivals(seed, Sweep(old(st.View()), seen), k, rivals, |rivals|), Sweep(st.View(), now))
  {
    hide RecordConflict, Views, FindClaim, SweepRival;
    ghost var before := st.View();
    now := seen;
    var n := 0;
    while n < |rivals|
      invariant 0 <= n <= |rivals|
      invariant SweepRivals(seed, Sweep(before, seen), k, rivals, n) == Ok(Sweep(st.View(), now))
    {
      o, now := EnforceRival(seed, st, k, rivals[n], now);
      if o.Raised? {
        RivalsRaisedEarly(seed, Sweep(before, seen), k, rivals, n + 1);
        return;
      }
      n := n + 1;
    }
    return Ok(()), now;
  }

  method EnforceRival(seed: string, st: InvestigationState, k: nat, rivalId: string, seen: set<set<string>>)
    returns (o: Outcome<()>, now: set<set<string>>)
    requires st.Valid() && k < |st.hypotheses|
    modifies st`critiques, st`decisions, st`openQuestions, st.hypotheses
    ensures Refines(o, SweepRival(seed, Sweep(old(st.View()), seen), k, rivalId), Sweep(st.View(), now))
  {
    hide RecordConflict, FindClaim;
    o, now := Ok(()), seen;
    var found := st.FindHypothesis(rivalId);
    if found.None? || st.hypotheses[found.value].status != Supported {
      return;
    }
    var pair := {st.hypotheses[k].id, st.hypotheses[found.value].id};
    if pair in seen {
      return;
    }
    now := seen + {pair};
    o := RecordConflictOver(seed, st, k, found.value, None);
  }

  lemma {:induction false} RivalsRaisedEarly(seed: string, w: Sweep, k: nat, rivals: seq<string>, n: nat)
    requires k < |w.state.claims| && n <= |rivals| && SweepRivals(seed, w, k, rivals, n).Raised?
    ensures SweepRivals(seed, w, k, rivals, |rivals|) == SweepRivals(seed, w, k, rivals, n)
    decreases |rivals| - n
  {
    hide SweepRival;
    if n < |rivals| {
      RivalsRaisedEarly(seed, w, k, rivals, n + 1);
    }
  }

  lemma {:induction false} SweepRaisedEarly(seed: string, st: State, n: nat)
    requires n <= |st.claims| && SweepClaims(seed, st, n).Raised?
    ensures SweepClaims(seed, st, |st.claims|) == SweepClaims(seed, st, n)
    decreases |st.claims| - n
  {
    hide SweepRivals;
    if n < |st.claims| {
      SweepRaisedEarly(seed, st, n + 1);
    }
  }

  /** _contradiction_is_settled, over the live claims. */
  method IsSettled(st: InvestigationState, c: Critique) returns (b: bool)
    ensures b == Settled(st.View().claims, c)
  {
    hide FindClaim;
    var target := st.FindHypothesis(c.targetId);
    var other := st.FindHypothesis(if c.conflictsWith.Some? then c.conflictsWith.value else "");
    if target.None? || other.None? {
      return false;
    }
    return (st.hypotheses[target.value].status == Supported) != (st.hypotheses[other.value].status == Supported);
  }

  /** reconcile_contradictions */
  method ReconcileContradictions(st: InvestigationState)
    modifies st`critiques
    ensures st.View() == Reconcile(old(st.View()))
  {
    hide Settled, Views;
    for n := 0 to |st.critiques|
      invariant st.critiques == ReconcileFirst(old(st.View()).claims, old(st.critiques), n)
    {
      var c := st.critiques[n];
      if c.isContradiction && !c.resolved {
        var settled := IsSettled(st, c);
        st.critiques := st.critiques[n := c.(resolved := settled)];
      }
    }
  }

  // One experiment

  /** The body of the folding loop, after the tracker has been told. */
  method FoldOne(env: Env, seed: string, st: InvestigationState, req: Request, rec: Record) returns (o: Outcome<()>)
    requires st.Valid()
    modifies st, st.hypotheses
    ensures st.Valid() && st.hypotheses == old(st.hypotheses)
    ensures Refines(o, Running.FoldExperiment(env, seed, old(st.View()), req, rec), st.View())
  {
    hide RecordResult, UpdateEvidence, ScoreFirst, Enforce, Reconcile, Views;
    RecordedIsFiled(seed, st.View(), req, rec);
    o := RecordExperiment(seed, st, req, rec);
    if o.Raised? || rec.status == FailedRun {
      return;
    }
    UpdateEvidenceFor(seed, st, env.expects, req, rec);
    o := UpdateHypotheses(seed, st, req.targets);
    if o.Raised? {
      return;
    }
    o := EnforceMutualExclusivity(seed, st);
    if o.Raised? {
      return;
    }
    ReconcileContradictions(st);
  }

  lemma RecordedIsFiled(seed: string, st: State, req: Request, rec: Record)
    ensures RecordResult(seed, st, req, rec).Ok? && rec.status != FailedRun ==>
      RecordResult(seed, st, req, rec).value.completed != []
  {
  }
}
