/** Structural comparison of two investigations: the verdict a replay is judged by. */
module Diffing {
  import opened Outcomes
  import opened Enums
  import opened Domain

  datatype Verdict = Identical | SameConclusion | Diverged

  /** ConclusionSnapshot */
  datatype Snapshot = Snapshot(quotes: seq<string>, disposition: Option<Disposition>, confidence: real,
                               keyEvidence: nat)

  function SnapshotOf(inv: Investigation): Snapshot {
    match inv.state.conclusion
    case None => Snapshot([], None, 0.0, 0)
    case Some(c) => Snapshot(c.quotes, Some(c.disposition), c.confidence, |c.keyEvidenceIds|)
  }

  function Results(inv: Investigation): seq<Result> {
    inv.state.completed + inv.state.failed
  }

  /** _tools: the ordered tool names of completed, then failed experiments. */
  function Tools(inv: Investigation): seq<string> {
    var results := Results(inv);
    seq(|results|, k requires 0 <= k < |results| => results[k].tool)
  }

  function ReasonOf(inv: Investigation): Option<Reason> {
    if inv.state.termination.None? then None else Some(inv.state.termination.value.reason)
  }

  /** The kinds of id a reproducible run reproduces, in the order the drift lists them. */
  datatype Kind =
    | ArtifactIds | DatasetIds | EvidenceKind | ExperimentIds | GoalIds | HypothesisIds | ManifestIds | ObservationIds
    | ReproducibilityIds

  const KINDS := [ArtifactIds, DatasetIds, EvidenceKind, ExperimentIds, GoalIds, HypothesisIds, ManifestIds,
                  ObservationIds,
                  ReproducibilityIds]

  function ManifestsOf(datasets: seq<Dataset>): seq<string> {
    if datasets == [] then []
    else (if datasets[0].manifestId.Some? then [datasets[0].manifestId.value] else []) + ManifestsOf(datasets[1..])
  }

  function ArtifactsOf(results: seq<Result>): seq<string> {
    if results == [] then [] else results[0].artifactIds + ArtifactsOf(results[1..])
  }

  /** _identity, one kind at a time. */
  function IdsOfKind(inv: Investigation, kind: Kind): seq<string> {
    var st, results := inv.state, Results(inv);
    match kind
    case GoalIds => [inv.goalId]
    case DatasetIds => seq(|inv.datasets|, k requires 0 <= k < |inv.datasets| => inv.datasets[k].id)
    case ManifestIds => ManifestsOf(inv.datasets)
    case HypothesisIds => seq(|st.claims|, k requires 0 <= k < |st.claims| => st.claims[k].id)
    case EvidenceKind => seq(|st.evidence|, k requires 0 <= k < |st.evidence| => st.evidence[k].id)
    case ExperimentIds => seq(|results|, k requires 0 <= k < |results| => results[k].id)
    case ObservationIds => seq(|st.observations|, k requires 0 <= k < |st.observations| => st.observations[k].id)
    case ArtifactIds => ArtifactsOf(results)
    case ReproducibilityIds => seq(|results|, k requires 0 <= k < |results| => results[k].reproducibilityId)
  }

  /** _identity_drift: the kinds of id that differ. */
  function DriftAmong(a: Investigation, b: Investigation, kinds: seq<Kind>): (r: seq<Kind>)
    ensures r == [] <==> forall k :: 0 <= k < |kinds| ==> IdsOfKind(a, kinds[k]) == IdsOfKind(b, kinds[k])
  {
    if kinds == [] then []
    else (if IdsOfKind(a, kinds[0]) != IdsOfKind(b, kinds[0]) then [kinds[0]] else []) + DriftAmong(a, b, kinds[1..])
  }

  /** `{h.id: h}`: the last claim with an id is the one the mapping keeps. */
  function LastClaim(claims: seq<Claim>, id: string): Option<Claim> {
    if claims == [] then None
    else if claims[|claims| - 1].id == id then Some(claims[|claims| - 1])
    else LastClaim(claims[..|claims| - 1], id)
  }

  function StatusOf(inv: Investigation, id: string): Option<ClaimStatus> {
    var c := LastClaim(inv.state.claims, id);
    if c.None? then None else Some(c.value.status)
  }

  function ClaimIds(inv: Investigation): set<string> {
    set k | 0 <= k < |inv.state.claims| :: inv.state.claims[k].id
  }

  /** HypothesisDelta */
  datatype Delta = Delta(id: string, baseline: Option<ClaimStatus>, candidate: Option<ClaimStatus>)

  /** _hypothesis_deltas, as the set of its entries. */
  function Deltas(a: Investigation, b: Investigation): set<Delta> {
    set id | id in ClaimIds(a) + ClaimIds(b) :: Delta(id, StatusOf(a, id), StatusOf(b, id))
  }

  predicate AnyStatusChanged(a: Investigation, b: Investigation) {
    exists d :: d in Deltas(a, b) && d.baseline != d.candidate
  }

  /** The verdict of diff_investigations. */
  function VerdictOf(a: Investigation, b: Investigation): Verdict {
    var first :=
      if SnapshotOf(a) != SnapshotOf(b) || ReasonOf(a) != ReasonOf(b) then Diverged
      else if Tools(a) != Tools(b) || a.status != b.status || DriftAmong(a, b, KINDS) != [] then SameConclusion
      else Identical;
    if first == Identical && AnyStatusChanged(a, b) then SameConclusion else first
  }

  // What the verdict means

  /** Everything `identical` promises, and nothing less. */
  predicate Reproduces(a: Investigation, b: Investigation) {
    && SnapshotOf(a) == SnapshotOf(b) && ReasonOf(a) == ReasonOf(b)
    && Tools(a) == Tools(b) && a.status == b.status
    && (forall kind :: IdsOfKind(a, kind) == IdsOfKind(b, kind))
    && (forall id :: id in ClaimIds(a) + ClaimIds(b) ==> StatusOf(a, id) == StatusOf(b, id))
  }

  lemma NoDriftIsEveryKind(a: Investigation, b: Investigation)
    ensures DriftAmong(a, b, KINDS) == [] <==> forall kind :: IdsOfKind(a, kind) == IdsOfKind(b, kind)
  {
    hide IdsOfKind;
    if DriftAmong(a, b, KINDS) == [] {
      forall kind
        ensures IdsOfKind(a, kind) == IdsOfKind(b, kind)
      {
        var k := match kind
          case ArtifactIds => 0
          case DatasetIds => 1
          case EvidenceKind => 2
          case ExperimentIds => 3
          case GoalIds => 4
          case HypothesisIds => 5
          case ManifestIds => 6
          case ObservationIds => 7
          case ReproducibilityIds => 8;
        assert KINDS[k] == kind;
      }
    }
  }

  lemma IdenticalMeansReproduced(a: Investigation, b: Investigation)
    ensures VerdictOf(a, b) == Identical <==> Reproduces(a, b)
  {
    hide IdsOfKind, SnapshotOf, ReasonOf, Tools;
    NoDriftIsEveryKind(a, b);
    if !AnyStatusChanged(a, b) {
      forall id | id in ClaimIds(a) + ClaimIds(b)
        ensures StatusOf(a, id) == StatusOf(b, id)
      {
        assert Delta(id, StatusOf(a, id), StatusOf(b, id)) in Deltas(a, b);
      }
    }
  }

  /**
   `identical` is an equivalence: a chain of identical replays is one identical replay. So is the coarser `not
   diverged`.
   */
  lemma IdenticalIsAnEquivalence(a: Investigation, b: Investigation, c: Investigation)
    ensures VerdictOf(a, a) == Identical
    ensures VerdictOf(a, b) == Identical ==> VerdictOf(b, a) == Identical
    ensures VerdictOf(a, b) == Identical && VerdictOf(b, c) == Identical ==> VerdictOf(a, c) == Identical
    ensures VerdictOf(a, b) != Diverged ==> VerdictOf(b, a) != Diverged
    ensures VerdictOf(a, b) != Diverged && VerdictOf(b, c) != Diverged ==> VerdictOf(a, c) != Diverged
  {
    SameAnswerIsAnEquivalence(a, b, c);
    hide VerdictOf, IdsOfKind, SnapshotOf, ReasonOf, Tools, StatusOf;
    IdenticalMeansReproduced(a, a);
    IdenticalMeansReproduced(a, b);
    IdenticalMeansReproduced(b, a);
    IdenticalMeansReproduced(b, c);
    IdenticalMeansReproduced(a, c);
    if Reproduces(a, b) && Reproduces(b, c) {
      SameHypothesisIds(a, b);
      SameHypothesisIds(b, c);
    }
  }

  lemma SameHypothesisIds(a: Investigation, b: Investigation)
    requires IdsOfKind(a, HypothesisIds) == IdsOfKind(b, HypothesisIds)
    ensures ClaimIds(a) == ClaimIds(b)
  {
    var x, y := IdsOfKind(a, HypothesisIds), IdsOfKind(b, HypothesisIds);
    assert forall k :: 0 <= k < |x| ==> x[k] == a.state.claims[k].id;
    assert forall k :: 0 <= k < |y| ==> y[k] == b.state.claims[k].id;
  }

  /** `not diverged` says that the snapshots and the reasons agree, and no more. */
  lemma SameAnswerIsAnEquivalence(a: Investigation, b: Investigation, c: Investigation)
    ensures VerdictOf(a, b) == Diverged <==> SnapshotOf(a) != SnapshotOf(b) || ReasonOf(a) != ReasonOf(b)
    ensures VerdictOf(a, b) != Diverged ==> VerdictOf(b, a) != Diverged
    ensures VerdictOf(a, b) != Diverged && VerdictOf(b, c) != Diverged ==> VerdictOf(a, c) != Diverged
  {
    hide IdsOfKind, SnapshotOf, ReasonOf, Tools, StatusOf;
  }
}
