/**
 Folding one experiment keeps the whole state consistent: explained claims, closed trace, conserved accounts, rivals
 apart. The only exception it can raise is the one a record that cannot be filed provokes.
 */
module Folding {
  import opened Outcomes
  import opened Enums
  import opened Ids
  import opened Domain
  import opened Environment
  import opened Mutators
  import opened Scoring
  import opened Filing
  import opened Rivals
  import opened Running
  import opened Explanation
  import opened RivalSafety
  import opened Trace

  /** What every checkpoint of a run satisfies. */
  predicate Consistent(seed: string, st: State) {
    && ClaimsMinted(seed, st.claims)
    && EvidenceMinted(seed, st.evidence)
    && LogsMinted(seed, st)
    && Filed(seed, st)
    && Attributed(st)
    && AllLinked(st)
    && Awaiting(st, {})
    && RivalsApart(st.claims)
  }

  /** The record's fields fit the result entity that is built from them. */
  predicate Fileable(rec: Record) {
    rec.errorDetail.None? && |rec.summary| <= 1024
  }

  /** What a claim is, as opposed to what has been found about it. */
  function Core(c: Claim): Claim {
    Claim(c.id, c.statement, c.metricRefs, c.exclusiveWith, Proposed, 0.5, [], [])
  }

  /** The same claims later in a run: what they are is unchanged, and a rejection is final. */
  predicate CarryOn(claims: seq<Claim>, r: seq<Claim>) {
    && |r| == |claims|
    && forall k :: 0 <= k < |claims| ==>
         Core(r[k]) == Core(claims[k]) && (claims[k].status == Rejected ==> r[k].status == Rejected)
  }

  /** What folding leaves alone. */
  predicate Background(st: State, r: State) {
    && CarryOn(st.claims, r.claims)
    && r.iterationsUsed == st.iterationsUsed && r.termination == st.termination
    && r.conclusion == st.conclusion && r.confidence == st.confidence
  }

  lemma VerdictsKeepCores(st: State, r: State)
    requires OnlyVerdicts(st, r)
    ensures Background(st, r)
    ensures AllLinked(st) ==> AllLinked(r)
    ensures forall seed :: ClaimsMinted(seed, st.claims) ==> ClaimsMinted(seed, r.claims)
  {
    OnlyVerdictsKeepIds(st, r);
    forall k | 0 <= k < |st.claims|
      ensures Core(r.claims[k]) == Core(st.claims[k])
      ensures (st.claims[k].status == Rejected ==> r.claims[k].status == Rejected)
      ensures LinkedTo(st.claims[k], st.evidence) ==> LinkedTo(r.claims[k], r.evidence)
    {
      IdentityFields(r.claims[k], st.claims[k]);
    }
  }

  lemma ConflictsKeepCores(st: State, r: State)
    requires OnlyConflicts(st, r)
    ensures Background(st, r)
    ensures AllLinked(st) ==> AllLinked(r)
    ensures forall seed :: ClaimsMinted(seed, st.claims) ==> ClaimsMinted(seed, r.claims)
  {
    OnlyConflictsKeepIds(st, r);
    forall k | 0 <= k < |st.claims|
      ensures Core(r.claims[k]) == Core(st.claims[k])
      ensures (st.claims[k].status == Rejected ==> r.claims[k].status == Rejected)
      ensures LinkedTo(st.claims[k], st.evidence) ==> LinkedTo(r.claims[k], r.evidence)
    {
      IdentityFields(r.claims[k], st.claims[k]);
    }
  }

  lemma IdentityFields(c: Claim, d: Claim)
    requires Identity(c) == Identity(d)
    ensures c.id == d.id && c.statement == d.statement && c.metricRefs == d.metricRefs
    ensures c.exclusiveWith == d.exclusiveWith
    ensures c.supportingIds == d.supportingIds && c.contradictingIds == d.contradictingIds
  {
    assert Identity(c).id == c.id && Identity(c).statement == c.statement && Identity(c).metricRefs == c.metricRefs;
    assert Identity(c).exclusiveWith == c.exclusiveWith && Identity(c).supportingIds == c.supportingIds;
    assert Identity(c).contradictingIds == c.contradictingIds;
  }

  lemma CarryOnTransitive(a: seq<Claim>, b: seq<Claim>, c: seq<Claim>)
    requires CarryOn(a, b) && CarryOn(b, c)
    ensures CarryOn(a, c)
  {
  }

  // Step one: the result is filed

  /** The state with one result more, its request moved from the head of the pending list to the executed ones. */
  function WithResult(st: State, done: Request, res: Result): State
    requires st.pending != []
  {
    var st1 := st.(pending := st.pending[1..], executed := st.executed + [done],
                   experimentsUsed := st.experimentsUsed + 1,
                   observations := st.observations + res.observations);
    if res.status == FailedRun then st1.(failed := st.failed + [res]) else st1.(completed := st.completed + [res])
  }

  lemma RecordingRetiresHead(seed: string, st: State, req: Request, rec: Record) returns (res: Result)
    requires Fileable(rec) && st.pending != [] && st.pending[0] == req
    requires forall k :: 1 <= k < |st.pending| ==> st.pending[k].id != req.id
    ensures RecordResult(seed, st, req, rec) == Ok(WithResult(st, req.(status := rec.status), res))
    ensures HeadOf(res) == Head(Make(seed, "res", |st.completed| + |st.failed|), req.id, req.tool, rec.status)
    ensures res.producedIds == []
  {
    hide StampObservations, Make;
    res := ResultOf(seed, |st.completed| + |st.failed|, req, rec).value;
    var stamped := StampStatus(st.pending, req.id, rec.status);
    AnsweredHead(stamped, req.id);
    assert stamped[1..] == st.pending[1..];
  }

  lemma WithResultFiles(seed: string, st: State, done: Request, res: Result)
    requires Filed(seed, st) && st.pending != []
    requires HeadOf(res) == Head(Make(seed, "res", |st.completed| + |st.failed|), done.id, done.tool, done.status)
    ensures Filed(seed, WithResult(st, done, res))
  {
    hide Make, FiledHeads, Heads;
    FiledCounts(seed, st.executed);
    FiledHeadsAppend(seed, st.executed, done, true);
    FiledHeadsAppend(seed, st.executed, done, false);
    HeadsAppend(st.completed, res);
    HeadsAppend(st.failed, res);
  }

  lemma WithResultAttributes(st: State, done: Request, res: Result)
    requires Attributed(st) && st.pending != [] && res.producedIds == []
    ensures Attributed(WithResult(st, done, res))
  {
    hide SourcePairs;
    assert (st.completed + [res])[..|st.completed|] == st.completed;
    assert ProducedPairs(st.completed + [res]) == ProducedPairs(st.completed);
  }

  /** The request at the head of the pending list is retired into the executed list, with its status. */
  lemma RecordResultFiles(seed: string, st: State, req: Request, rec: Record)
    requires Filed(seed, st) && Attributed(st) && Fileable(rec)
    requires st.pending != [] && st.pending[0] == req
    requires forall k :: 1 <= k < |st.pending| ==> st.pending[k].id != req.id
    ensures RecordResult(seed, st, req, rec).Ok?
    ensures var r := RecordResult(seed, st, req, rec).value;
            && Filed(seed, r) && Attributed(r)
            && r.pending == st.pending[1..]
            && r.executed == st.executed + [req.(status := rec.status)]
            && r.(pending := st.pending, executed := st.executed, completed := st.completed, failed := st.failed,
                  observations := st.observations, experimentsUsed := st.experimentsUsed) == st
            && (rec.status != FailedRun ==> r.completed != [] && r.completed[|r.completed| - 1].producedIds == [])
  {
    hide RecordResult, Filed, Attributed, Make;
    var res := RecordingRetiresHead(seed, st, req, rec);
    WithResultFiles(seed, st, req.(status := rec.status), res);
    WithResultAttributes(st, req.(status := rec.status), res);
  }

  /** Exactly the records that fit can be filed. */
  lemma RecordResultRaises(seed: string, st: State, req: Request, rec: Record)
    ensures RecordResult(seed, st, req, rec).Ok? <==> Fileable(rec)
    ensures RecordResult(seed, st, req, rec).Raised? ==> RecordResult(seed, st, req, rec).error == InvalidModel
  {
  }

  lemma TestedAppend(executed: seq<Request>, r: Request, id: string)
    ensures Tested(executed + [r], id) <==> Tested(executed, id) || (r.status != FailedRun && id in r.targets)
  {
    assert forall k :: 0 <= k < |executed| ==> (executed + [r])[k] == executed[k];
    assert (executed + [r])[|executed|] == r;
  }

  /** After a failure nothing has been tested and no claim's explanation moves. */
  lemma FailureExplains(st: State, r: State, req: Request)
    requires Awaiting(st, {}) && req.status == FailedRun
    requires r.claims == st.claims && r.evidence == st.evidence && r.critiques == st.critiques
    requires r.executed == st.executed + [req]
    ensures Awaiting(r, {})
  {
    forall k | 0 <= k < |r.claims|
      ensures AwaitingClaim(r.claims[k], r, {})
    {
      assert AwaitingClaim(st.claims[k], st, {});
      TestedAppend(st.executed, req, st.claims[k].id);
    }
  }

  // Step two: the evidence is filed

  /** A claim the experiment was not raised for stays explained, one it was raised for becomes scorable. */
  lemma ClaimAfterFiling(c: Claim, st: State, r: State, req: Request, more: seq<Evidence>)
    requires AwaitingClaim(c, st, {}) && req.status != FailedRun
    requires r.evidence == st.evidence + more && r.critiques == st.critiques && r.executed == st.executed + [req]
    requires forall k :: 0 <= k < |more| ==> forall id :: id in more[k].hypothesisIds ==> id in req.targets
    ensures AwaitingClaim(c, r, Named(req.targets, |req.targets|))
  {
    TestedAppend(st.executed, req, c.id);
    if c.id in req.targets {
      ExplainedStaysScorable(c, st.evidence, more, st.critiques, st.executed);
    } else {
      ExplainedUnmoved(c, st.evidence, more, st.critiques, st.executed, r.executed);
    }
  }

  /** A claim's links play no part in its explanation. */
  lemma LinksDoNotExplain(c: Claim, d: Claim, st: State, awaited: set<string>)
    requires AwaitingClaim(c, st, awaited) && SameButLinks(d, c)
    ensures AwaitingClaim(d, st, awaited)
  {
  }

  lemma AwaitingAfterFiling(st: State, r: State, req: Request, more: seq<Evidence>)
    requires Awaiting(st, {}) && req.status != FailedRun
    requires r.evidence == st.evidence + more && r.critiques == st.critiques && r.executed == st.executed + [req]
    requires forall k :: 0 <= k < |more| ==> forall id :: id in more[k].hypothesisIds ==> id in req.targets
    requires |r.claims| == |st.claims| && forall k :: 0 <= k < |st.claims| ==> SameButLinks(r.claims[k], st.claims[k])
    ensures Awaiting(r, Named(req.targets, |req.targets|))
  {
    forall k | 0 <= k < |r.claims|
      ensures AwaitingClaim(r.claims[k], r, Named(req.targets, |req.targets|))
    {
      assert AwaitingClaim(st.claims[k], st, {});
      ClaimAfterFiling(st.claims[k], st, r, req, more);
      LinksDoNotExplain(st.claims[k], r.claims[k], r, Named(req.targets, |req.targets|));
    }
  }

  /** UpdateEvidence is the filing loop, the list on the last result, and perhaps a decision. */
  lemma UpdateShape(seed: string, env: Env, st: State, req: Request, rec: Record)
    returns (st1: State, more: seq<Evidence>)
    requires st.completed != []
    ensures var pairs := Pairings(rec.evidence, KnownTargets(st.claims, req.targets));
            st1 == FileFirst(seed, env.expects, st, pairs, |pairs|, SignalSign(rec),
                            st.completed[|st.completed| - 1].id)
    ensures st1.completed == st.completed && st1.evidence == st.evidence + more
    ensures var r := UpdateEvidence(seed, env.expects, st, req, rec);
            r.(decisions := st1.decisions) == st1.(completed := SetProduced(st.completed, EvidenceIds(more)))
  {
    hide FileFirst, Pairings, KnownTargets, SignalSign, SetProduced;
    var pairs := Pairings(rec.evidence, KnownTargets(st.claims, req.targets));
    var resultId := st.completed[|st.completed| - 1].id;
    st1 := FileFirst(seed, env.expects, st, pairs, |pairs|, SignalSign(rec), resultId);
    FileFirstKeeps(seed, env.expects, st, pairs, |pairs|, SignalSign(rec), resultId);
    more := st1.evidence[|st.evidence|..];
  }

  /** The filing loop as update runs it: what it leaves, and the items it has added. */
  lemma UpdateFiles(seed: string, env: Env, st: State, req: Request, rec: Record) returns (more: seq<Evidence>)
    requires ClaimsMinted(seed, st.claims) && EvidenceMinted(seed, st.evidence) && AllLinked(st) && st.completed != []
    ensures var r := UpdateEvidence(seed, env.expects, st, req, rec);
            && r.evidence == st.evidence + more && EvidenceMinted(seed, r.evidence) && AllLinked(r)
            && r.completed == SetProduced(st.completed, EvidenceIds(more))
            && |r.claims| == |st.claims|
            && (forall k :: 0 <= k < |st.claims| ==> Unlinked(r.claims[k]) == Unlinked(st.claims[k]))
            && r.(claims := st.claims, evidence := st.evidence, completed := st.completed,
                  decisions := st.decisions) == st
    ensures forall k :: 0 <= k < |more| ==> FiledFrom(more[k], st.completed[|st.completed| - 1].id, req.targets)
  {
    MintedClaimsDistinct(seed, st.claims);
    var st1;
    st1, more := UpdateShape(seed, env, st, req, rec);
    var pairs := Pairings(rec.evidence, KnownTargets(st.claims, req.targets));
    var signal, resultId := SignalSign(rec), st.completed[|st.completed| - 1].id;
    FileFirstKeeps(seed, env.expects, st, pairs, |pairs|, signal, resultId);
    FileFirstTraces(seed, env.expects, st, pairs, |pairs|, signal, resultId);
    FileFirstNames(seed, env.expects, st, pairs, |pairs|, signal, resultId, req.targets);
    var r := UpdateEvidence(seed, env.expects, st, req, rec);
    assert r.claims == st1.claims && r.evidence == st1.evidence;
    forall k | 0 <= k < |r.claims|
      ensures LinkedTo(r.claims[k], r.evidence)
    {
      assert LinkedTo(st1.claims[k], st1.evidence);
    }
    forall k | 0 <= k < |more|
      ensures FiledFrom(more[k], resultId, req.targets)
    {
      assert more[k] == st1.evidence[|st.evidence| + k];
    }
  }

  lemma UpdateMints(seed: string, env: Env, st: State, req: Request, rec: Record)
    requires LogsMinted(seed, st) && st.completed != []
    ensures LogsMinted(seed, UpdateEvidence(seed, env.expects, st, req, rec))
  {
    hide FileFirst, Pairings, KnownTargets, SignalSign;
    var named := KnownTargets(st.claims, req.targets);
    var pairs := Pairings(rec.evidence, named);
    var resultId := st.completed[|st.completed| - 1].id;
    var st1 := FileFirst(seed, env.expects, st, pairs, |pairs|, SignalSign(rec), resultId);
    FileFirstKeeps(seed, env.expects, st, pairs, |pairs|, SignalSign(rec), resultId);
    LogDecisionMints(seed, st1.(completed := SetProduced(st1.completed, EvidenceIds(st1.evidence[|st.evidence|..]))),
                     "dec-evd", named);
  }

  /** EvidenceUpdater.update closes the trace over the new items and leaves the experiment's targets to be scored. */
  lemma UpdateEvidenceTraces(seed: string, env: Env, st0: State, st: State, req: Request, rec: Record)
    requires ClaimsMinted(seed, st.claims) && EvidenceMinted(seed, st.evidence) && LogsMinted(seed, st)
    requires Filed(seed, st) && Attributed(st) && AllLinked(st)
    requires st.completed != [] && st.completed[|st.completed| - 1].producedIds == []
    requires Awaiting(st0, {}) && st0.claims == st.claims && st0.evidence == st.evidence
    requires st0.critiques == st.critiques
    requires rec.status != FailedRun && st.executed == st0.executed + [req.(status := rec.status)]
    ensures var r := UpdateEvidence(seed, env.expects, st, req, rec);
            && ClaimsMinted(seed, r.claims) && EvidenceMinted(seed, r.evidence) && LogsMinted(seed, r)
            && Filed(seed, r) && Attributed(r) && AllLinked(r)
            && Awaiting(r, Named(req.targets, |req.targets|))
            && Background(st, r) && r.pending == st.pending && r.executed == st.executed && r.critiques == st.critiques
            && r.experimentsUsed == st.experimentsUsed
  {
    hide UpdateEvidence, LogsMinted, Explained, LinkedTo;
    var more := UpdateFiles(seed, env, st, req, rec);
    UpdateMints(seed, env, st, req, rec);
    SetProducedAttributes(st, more);
    var r := UpdateEvidence(seed, env.expects, st, req, rec);
    UnlinkedKeepsIds(st.claims, r.claims);
    assert Heads(r.completed) == Heads(st.completed);
    AwaitingAfterFiling(st0, r, req.(status := rec.status), more);
    forall k | 0 <= k < |r.claims|
      ensures Core(r.claims[k]) == Core(st.claims[k])
      ensures (st.claims[k].status == Rejected ==> r.claims[k].status == Rejected)
    {
      assert Unlinked(r.claims[k]).statement == r.claims[k].statement
             && Unlinked(st.claims[k]).statement == st.claims[k].statement;
    }
  }

  // Step three: reconciliation only marks critiques

  lemma ReconcileKeeps(seed: string, st: State)
    requires Awaiting(st, {}) && LogsMinted(seed, st)
    ensures Awaiting(Reconcile(st), {}) && LogsMinted(seed, Reconcile(st))
  {
    var r := Reconcile(st);
    forall k | 0 <= k < |r.claims|
      ensures AwaitingClaim(r.claims[k], r, {})
    {
      assert AwaitingClaim(st.claims[k], st, {});
      var id := st.claims[k].id;
      if Contradicted(st.critiques, id) {
        var n :| 0 <= n < |st.critiques| && st.critiques[n].isContradiction
                 && (st.critiques[n].targetId == id || st.critiques[n].conflictsWith == Some(id));
        assert r.critiques[n] == Reconciled(st.claims, st.critiques[n]);
      }
    }
  }

  // The fold

  /** The successful half: filed, scored, rivals checked, reconciled. */
  lemma SuccessFolds(seed: string, env: Env, st0: State, st1: State, req: Request, rec: Record)
    requires Consistent(seed, st0)
    requires ClaimsMinted(seed, st1.claims) && EvidenceMinted(seed, st1.evidence) && LogsMinted(seed, st1)
    requires Filed(seed, st1) && Attributed(st1) && AllLinked(st1)
    requires st1.completed != [] && st1.completed[|st1.completed| - 1].producedIds == []
    requires st0.claims == st1.claims && st0.evidence == st1.evidence && st0.critiques == st1.critiques
    requires rec.status != FailedRun && st1.executed == st0.executed + [req.(status := rec.status)]
    ensures var st2 := UpdateEvidence(seed, env.expects, st1, req, rec);
            var st3 := ScoreFirst(seed, st2, req.targets, |req.targets|);
            && st3.Ok?
            && var st4 := Enforce(seed, st3.value);
               && st4.Ok?
               && Consistent(seed, Reconcile(st4.value)) && Background(st1, Reconcile(st4.value))
               && st4.value.pending == st1.pending && st4.value.executed == st1.executed
  {
    UpdateEvidenceTraces(seed, env, st0, st1, req, rec);
    var st2 := UpdateEvidence(seed, env.expects, st1, req, rec);
    var all := Named(req.targets, |req.targets|);
    MintedClaimsDistinct(seed, st2.claims);
    assert st2.executed[|st0.executed|] == req.(status := rec.status);
    ScoreFirstExplains(seed, st2, req.targets, |req.targets|, all);
    assert all - all == {};
    ScoreFirstMints(seed, st2, req.targets, |req.targets|);
    var st3 := ScoreFirst(seed, st2, req.targets, |req.targets|).value;
    VerdictsKeepCores(st2, st3);
    MintedClaimsDistinct(seed, st3.claims);
    EnforceSafe(seed, st3);
    EnforceMints(seed, st3);
    var st4 := Enforce(seed, st3).value;
    ConflictsKeepCores(st3, st4);
    ReconcileKeeps(seed, st4);
    CarryOnTransitive(st1.claims, st2.claims, st3.claims);
    CarryOnTransitive(st1.claims, st3.claims, st4.claims);
  }

  /** What one folded experiment does to the state, whatever the tool returned. */
  predicate Folded(seed: string, st: State, r: State, req: Request, status: ExperimentStatus) {
    && Consistent(seed, r)
    && Background(st, r)
    && st.pending != [] && r.pending == st.pending[1..]
    && r.executed == st.executed + [req.(status := status)]
  }

  predicate HeadOfPending(st: State, req: Request) {
    && st.pending != [] && st.pending[0] == req
    && forall k :: 1 <= k < |st.pending| ==> st.pending[k].id != req.id
  }

  /** The failed half: filed, and nothing else. */
  lemma FailureFolds(env: Env, seed: string, st: State, req: Request, rec: Record)
    requires Consistent(seed, st) && HeadOfPending(st, req) && Fileable(rec) && rec.status == FailedRun
    ensures var r := FoldExperiment(env, seed, st, req, rec);
            r.Ok? && Folded(seed, st, r.value, req, rec.status)
  {
    hide RecordResult, Filed, Attributed, Awaiting;
    RecordResultFiles(seed, st, req, rec);
    var st1 := RecordResult(seed, st, req, rec).value;
    FailureExplains(st, st1, req.(status := rec.status));
  }

  /** Folding succeeds exactly on records that can be filed; it then keeps the state consistent. */
  lemma FoldExperimentKeeps(env: Env, seed: string, st: State, req: Request, rec: Record)
    requires Consistent(seed, st) && HeadOfPending(st, req)
    ensures var r := FoldExperiment(env, seed, st, req, rec);
            && (r.Ok? <==> Fileable(rec))
            && (r.Raised? ==> r.error == InvalidModel)
            && (r.Ok? ==> Folded(seed, st, r.value, req, rec.status))
  {
    hide RecordResult, Fileable, UpdateEvidence, ScoreFirst, Enforce, ReconcileFirst;
    hide Filed, Attributed, RivalsApart, Awaiting, EvidenceMinted, ClaimsMinted;
    RecordResultRaises(seed, st, req, rec);
    if Fileable(rec) {
      RecordResultFiles(seed, st, req, rec);
      if rec.status == FailedRun {
        FailureFolds(env, seed, st, req, rec);
      } else {
        var st1 := RecordResult(seed, st, req, rec).value;
        SuccessFolds(seed, env, st, st1, req, rec);
      }
    }
  }
}
