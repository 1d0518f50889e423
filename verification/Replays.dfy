/**
 What the replay verdicts say, field by field: the same answer, the same work, the same ids and the same statuses.
 */
module Replays {
  import opened Outcomes
  import opened Domain
  import opened Explanation
  import opened Diffing

  /** The same reason, and the same answer: sentence, disposition, confidence, and as much key evidence. */
  predicate SameAnswer(a: Investigation, b: Investigation) {
    && (match (a.state.conclusion, b.state.conclusion)
        case (None, None) => true
        case (Some(c), Some(d)) =>
          c.quotes == d.quotes && c.disposition == d.disposition && c.confidence == d.confidence
          && |c.keyEvidenceIds| == |d.keyEvidenceIds|
        case _ => false)
    && match (a.state.termination, b.state.termination)
       case (None, None) => true
       case (Some(s), Some(t)) => s.reason == t.reason
       case _ => false
  }

  /** The results in the order they are compared in: the completed ones, then the failed ones. */
  function ResultAt(st: State, k: nat): Result
    requires k < |st.completed| + |st.failed|
  {
    if k < |st.completed| then st.completed[k] else st.failed[k - |st.completed|]
  }

  function ResultCount(st: State): nat {
    |st.completed| + |st.failed|
  }

  /** The same tools were run in the same order, and the runs stand at the same point of the lifecycle. */
  predicate SameWork(a: Investigation, b: Investigation) {
    && a.status == b.status && ResultCount(a.state) == ResultCount(b.state)
    && forall k :: 0 <= k < ResultCount(a.state) ==> ResultAt(a.state, k).tool == ResultAt(b.state, k).tool
  }

  /** The manifest ids of the datasets that have one. */
  function Manifests(datasets: seq<Dataset>): seq<string> {
    if datasets == [] then []
    else
      var last := datasets[|datasets| - 1];
      Manifests(datasets[..|datasets| - 1]) + match last.manifestId case Some(id) => [id] case None => []
  }

  /** The artifact ids of the first n results. */
  function Artifacts(st: State, n: nat): seq<string>
    requires n <= ResultCount(st)
  {
    if n == 0 then [] else Artifacts(st, n - 1) + ResultAt(st, n - 1).artifactIds
  }

  /** The same ids under the goal, the datasets and their manifests. */
  predicate SameInputs(a: Investigation, b: Investigation) {
    && a.goalId == b.goalId && |a.datasets| == |b.datasets| && Manifests(a.datasets) == Manifests(b.datasets)
    && forall k :: 0 <= k < |a.datasets| ==> a.datasets[k].id == b.datasets[k].id
  }

  /** The same ids under the claims, the evidence and the observations. */
  predicate SameFindings(a: State, b: State) {
    && |a.claims| == |b.claims| && (forall k :: 0 <= k < |a.claims| ==> a.claims[k].id == b.claims[k].id)
    && |a.evidence| == |b.evidence| && (forall k :: 0 <= k < |a.evidence| ==> a.evidence[k].id == b.evidence[k].id)
    && |a.observations| == |b.observations|
    && forall k :: 0 <= k < |a.observations| ==> a.observations[k].id == b.observations[k].id
  }

  /** The same ids under the results: their own, those that reproduce them, and their artifacts'. */
  predicate SameResults(a: State, b: State) {
    && ResultCount(a) == ResultCount(b) && Artifacts(a, ResultCount(a)) == Artifacts(b, ResultCount(b))
    && (forall k :: 0 <= k < ResultCount(a) ==> ResultAt(a, k).id == ResultAt(b, k).id)
    && forall k :: 0 <= k < ResultCount(a) ==> ResultAt(a, k).reproducibilityId == ResultAt(b, k).reproducibilityId
  }

  predicate SameStatuses(a: State, b: State) {
    |a.claims| == |b.claims| && forall k :: 0 <= k < |a.claims| ==> a.claims[k].status == b.claims[k].status
  }

  // The parts

  lemma AnswerMeans(a: Investigation, b: Investigation)
    ensures SameAnswer(a, b) <==> SnapshotOf(a) == SnapshotOf(b) && ReasonOf(a) == ReasonOf(b)
  {
  }

  lemma ResultsAre(inv: Investigation)
    ensures |Results(inv)| == ResultCount(inv.state)
    ensures forall k :: 0 <= k < |Results(inv)| ==> Results(inv)[k] == ResultAt(inv.state, k)
  {
  }

  lemma WorkMeans(a: Investigation, b: Investigation)
    ensures SameWork(a, b) <==> Tools(a) == Tools(b) && a.status == b.status
  {
    ResultsAre(a);
    ResultsAre(b);
    if Tools(a) == Tools(b) {
      assert |Tools(a)| == |Results(a)| && |Tools(b)| == |Results(b)|;
      forall k | 0 <= k < ResultCount(a.state)
        ensures ResultAt(a.state, k).tool == ResultAt(b.state, k).tool
      {
        assert Tools(a)[k] == Tools(b)[k];
      }
    }
  }

  lemma {:induction false} ManifestsAre(datasets: seq<Dataset>)
    ensures ManifestsOf(datasets) == Manifests(datasets)
  {
    if datasets != [] {
      var n := |datasets| - 1;
      ManifestsAre(datasets[..n]);
      ManifestsConcat(datasets[..n], datasets[n]);
      assert datasets == datasets[..n] + [datasets[n]];
    }
  }

  lemma {:induction false} ManifestsConcat(datasets: seq<Dataset>, d: Dataset)
    ensures ManifestsOf(datasets + [d])
         == ManifestsOf(datasets) + if d.manifestId.Some? then [d.manifestId.value] else []
  {
    if datasets == [] {
      assert [d][1..] == [] && datasets + [d] == [d];
    } else {
      ManifestsConcat(datasets[1..], d);
      assert (datasets + [d])[1..] == datasets[1..] + [d];
    }
  }

  lemma {:induction false} ArtifactsAre(inv: Investigation, n: nat)
    requires n <= ResultCount(inv.state)
    ensures ArtifactsOf(Results(inv)[..n]) == Artifacts(inv.state, n)
  {
    ResultsAre(inv);
    if n > 0 {
      ArtifactsAre(inv, n - 1);
      ArtifactsConcat(Results(inv)[..n - 1], Results(inv)[n - 1]);
      assert Results(inv)[..n] == Results(inv)[..n - 1] + [Results(inv)[n - 1]];
    }
  }

  lemma {:induction false} ArtifactsConcat(results: seq<Result>, r: Result)
    ensures ArtifactsOf(results + [r]) == ArtifactsOf(results) + r.artifactIds
  {
    if results == [] {
      assert [r][1..] == [] && results + [r] == [r];
    } else {
      ArtifactsConcat(results[1..], r);
      assert (results + [r])[1..] == results[1..] + [r];
    }
  }

  lemma InputsMean(a: Investigation, b: Investigation)
    ensures SameInputs(a, b)
       <==> && IdsOfKind(a, GoalIds) == IdsOfKind(b, GoalIds) && IdsOfKind(a, DatasetIds) == IdsOfKind(b, DatasetIds)
            && IdsOfKind(a, ManifestIds) == IdsOfKind(b, ManifestIds)
  {
    ManifestsAre(a.datasets);
    ManifestsAre(b.datasets);
    var x, y := IdsOfKind(a, DatasetIds), IdsOfKind(b, DatasetIds);
    assert |x| == |a.datasets| && forall k :: 0 <= k < |x| ==> x[k] == a.datasets[k].id;
    assert |y| == |b.datasets| && forall k :: 0 <= k < |y| ==> y[k] == b.datasets[k].id;
    assert IdsOfKind(a, GoalIds)[0] == a.goalId && IdsOfKind(b, GoalIds)[0] == b.goalId;
  }

  lemma FindingsMean(a: Investigation, b: Investigation)
    ensures SameFindings(a.state, b.state)
       <==> && IdsOfKind(a, HypothesisIds) == IdsOfKind(b, HypothesisIds)
            && IdsOfKind(a, EvidenceKind) == IdsOfKind(b, EvidenceKind)
            && IdsOfKind(a, ObservationIds) == IdsOfKind(b, ObservationIds)
  {
    var x, y := IdsOfKind(a, HypothesisIds), IdsOfKind(b, HypothesisIds);
    assert |x| == |a.state.claims| && forall k :: 0 <= k < |x| ==> x[k] == a.state.claims[k].id;
    assert |y| == |b.state.claims| && forall k :: 0 <= k < |y| ==> y[k] == b.state.claims[k].id;
    var v, w := IdsOfKind(a, EvidenceKind), IdsOfKind(b, EvidenceKind);
    assert |v| == |a.state.evidence| && forall k :: 0 <= k < |v| ==> v[k] == a.state.evidence[k].id;
    assert |w| == |b.state.evidence| && forall k :: 0 <= k < |w| ==> w[k] == b.state.evidence[k].id;
    var p, q := IdsOfKind(a, ObservationIds), IdsOfKind(b, ObservationIds);
    assert |p| == |a.state.observations| && forall k :: 0 <= k < |p| ==> p[k] == a.state.observations[k].id;
    assert |q| == |b.state.observations| && forall k :: 0 <= k < |q| ==> q[k] == b.state.observations[k].id;
  }

  lemma ResultIdsAre(inv: Investigation)
    ensures var x, v := IdsOfKind(inv, ExperimentIds), IdsOfKind(inv, ReproducibilityIds);
            && |x| == |v| == ResultCount(inv.state)
            && forall k :: 0 <= k < |x| ==>
                 x[k] == ResultAt(inv.state, k).id && v[k] == ResultAt(inv.state, k).reproducibilityId
    ensures IdsOfKind(inv, ArtifactIds) == Artifacts(inv.state, ResultCount(inv.state))
  {
    hide ResultAt;
    ResultsAre(inv);
    assert Results(inv)[..|Results(inv)|] == Results(inv);
    ArtifactsAre(inv, ResultCount(inv.state));
  }

  lemma ResultsMean(a: Investigation, b: Investigation)
    ensures SameResults(a.state, b.state)
       <==> && IdsOfKind(a, ExperimentIds) == IdsOfKind(b, ExperimentIds)
            && IdsOfKind(a, ReproducibilityIds) == IdsOfKind(b, ReproducibilityIds)
            && IdsOfKind(a, ArtifactIds) == IdsOfKind(b, ArtifactIds)
  {
    hide IdsOfKind, ResultAt, Artifacts, ResultCount;
    ResultIdsAre(a);
    ResultIdsAre(b);
    SameNames(IdsOfKind(a, ExperimentIds), IdsOfKind(b, ExperimentIds));
    SameNames(IdsOfKind(a, ReproducibilityIds), IdsOfKind(b, ReproducibilityIds));
  }

  lemma SameNames(x: seq<string>, y: seq<string>)
    ensures x == y <==> |x| == |y| && forall k :: 0 <= k < |x| ==> x[k] == y[k]
  {
  }

  lemma {:induction false} LastIsOnly(claims: seq<Claim>, k: nat)
    requires k < |claims| && DistinctIds(claims)
    ensures LastClaim(claims, claims[k].id) == Some(claims[k])
  {
    var n := |claims| - 1;
    if k < n {
      LastIsOnly(claims[..n], k);
    }
  }

  lemma StatusesMean(a: Investigation, b: Investigation)
    requires DistinctIds(a.state.claims) && SameFindings(a.state, b.state)
    ensures SameStatuses(a.state, b.state)
       <==> forall id :: id in ClaimIds(a) + ClaimIds(b) ==> StatusOf(a, id) == StatusOf(b, id)
  {
    hide LastClaim;
    forall k | 0 <= k < |a.state.claims|
      ensures StatusOf(a, a.state.claims[k].id) == Some(a.state.claims[k].status)
      ensures StatusOf(b, a.state.claims[k].id) == Some(b.state.claims[k].status)
      ensures a.state.claims[k].id in ClaimIds(a)
    {
      LastIsOnly(a.state.claims, k);
      LastIsOnly(b.state.claims, k);
    }
  }

  /** A replay is identical exactly when answer, work, every kind of id and every claim's status are the same. */
  lemma IdenticalMeans(a: Investigation, b: Investigation)
    requires DistinctIds(a.state.claims)
    ensures VerdictOf(a, b) == Identical
       <==> && SameAnswer(a, b) && SameWork(a, b) && SameInputs(a, b) && SameFindings(a.state, b.state)
            && SameResults(a.state, b.state) && SameStatuses(a.state, b.state)
  {
    hide VerdictOf, IdsOfKind, SnapshotOf, ReasonOf, Tools, StatusOf, SameAnswer, SameWork, SameInputs, SameResults;
    IdenticalMeansReproduced(a, b);
    AnswerMeans(a, b);
    WorkMeans(a, b);
    InputsMean(a, b);
    FindingsMean(a, b);
    ResultsMean(a, b);
    EveryKind(a, b);
    if SameFindings(a.state, b.state) {
      StatusesMean(a, b);
    }
  }

  lemma EveryKind(a: Investigation, b: Investigation)
    ensures (forall kind :: IdsOfKind(a, kind) == IdsOfKind(b, kind))
       <==> && IdsOfKind(a, GoalIds) == IdsOfKind(b, GoalIds) && IdsOfKind(a, DatasetIds) == IdsOfKind(b, DatasetIds)
            && IdsOfKind(a, ManifestIds) == IdsOfKind(b, ManifestIds)
            && IdsOfKind(a, HypothesisIds) == IdsOfKind(b, HypothesisIds)
            && IdsOfKind(a, EvidenceKind) == IdsOfKind(b, EvidenceKind)
            && IdsOfKind(a, ObservationIds) == IdsOfKind(b, ObservationIds)
            && IdsOfKind(a, ExperimentIds) == IdsOfKind(b, ExperimentIds)
            && IdsOfKind(a, ReproducibilityIds) == IdsOfKind(b, ReproducibilityIds)
            && IdsOfKind(a, ArtifactIds) == IdsOfKind(b, ArtifactIds)
  {
    hide IdsOfKind;
    if IdsOfKind(a, GoalIds) == IdsOfKind(b, GoalIds) && IdsOfKind(a, DatasetIds) == IdsOfKind(b, DatasetIds)
       && IdsOfKind(a, ManifestIds) == IdsOfKind(b, ManifestIds)
       && IdsOfKind(a, HypothesisIds) == IdsOfKind(b, HypothesisIds)
       && IdsOfKind(a, EvidenceKind) == IdsOfKind(b, EvidenceKind)
       && IdsOfKind(a, ObservationIds) == IdsOfKind(b, ObservationIds)
       && IdsOfKind(a, ExperimentIds) == IdsOfKind(b, ExperimentIds)
       && IdsOfKind(a, ReproducibilityIds) == IdsOfKind(b, ReproducibilityIds)
       && IdsOfKind(a, ArtifactIds) == IdsOfKind(b, ArtifactIds) {
      forall kind
        ensures IdsOfKind(a, kind) == IdsOfKind(b, kind)
      {
        match kind
        case GoalIds =>
        case DatasetIds =>
        case ManifestIds =>
        case HypothesisIds =>
        case EvidenceKind =>
        case ObservationIds =>
        case ExperimentIds =>
        case ReproducibilityIds =>
        case ArtifactIds =>
      }
    }
  }

  /** A replay diverges exactly when its answer or its reason does. */
  lemma DivergedMeans(a: Investigation, b: Investigation)
    ensures VerdictOf(a, b) == Diverged <==> !SameAnswer(a, b)
  {
    AnswerMeans(a, b);
    SameAnswerIsAnEquivalence(a, b, a);
  }
}
