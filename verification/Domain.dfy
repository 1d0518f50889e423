/** The values of one investigation: claims, experiments, evidence, critiques, and the state that holds them. */
module Domain {
  import opened Outcomes
  import opened Enums

  /** Evidence scores are bounded fields. */
  type Score = r: real | 0.0 <= r <= 1.0

  datatype Claim = Claim(
    id: string,
    statement: string,
    metricRefs: seq<string>,
    exclusiveWith: seq<string>,
    status: ClaimStatus,
    confidence: real,
    supportingIds: seq<string>,
    contradictingIds: seq<string>)

  datatype Request = Request(
    id: string,
    tool: string,
    parameters: map<string, string>,
    targets: seq<string>,
    falsification: bool,
    gain: real,
    status: ExperimentStatus)

  datatype Observation = Observation(id: string, resultId: string, content: string)

  datatype Result = Result(
    id: string,
    requestId: string,
    tool: string,
    status: ExperimentStatus,
    observations: seq<Observation>,
    producedIds: seq<string>,
    artifactIds: seq<string>,
    reproducibilityId: string)

  datatype Evidence = Evidence(
    id: string,
    resultId: string,
    hypothesisIds: seq<string>,
    direction: Direction,
    strength: Score)

  datatype Critique = Critique(
    id: string,
    isContradiction: bool,
    targetId: string,
    conflictsWith: Option<string>,
    suggestedAction: Option<string>,
    resolved: bool)

  datatype Decision = Decision(id: string, kind: string, targets: seq<string>, iteration: nat)

  datatype OpenQuestion = OpenQuestion(id: string, kind: string, about: seq<string>)

  /** The statement sentence is kept as the disposition and the claim statements it quotes. */
  datatype Conclusion = Conclusion(
    id: string,
    disposition: Disposition,
    confidence: real,
    quotes: seq<string>,
    claimIds: seq<string>,
    keyEvidenceIds: seq<string>,
    questionIds: seq<string>)

  datatype Termination = Termination(reason: Reason, atIteration: nat)

  datatype State = State(
    claims: seq<Claim>,
    pending: seq<Request>,
    executed: seq<Request>,
    completed: seq<Result>,
    failed: seq<Result>,
    evidence: seq<Evidence>,
    observations: seq<Observation>,
    questions: seq<OpenQuestion>,
    decisions: seq<Decision>,
    critiques: seq<Critique>,
    conclusion: Option<Conclusion>,
    confidence: real,
    experimentsUsed: nat,
    iterationsUsed: nat,
    termination: Option<Termination>)

  const EMPTY_STATE := State([], [], [], [], [], [], [], [], [], [], None, 0.0, 0, 0, None)

  datatype Dataset = Dataset(id: string, manifestId: Option<string>)

  datatype Investigation = Investigation(
    id: string,
    goalId: string,
    datasets: seq<Dataset>,
    status: Lifecycle,
    state: State)

  // Lookups

  /** find_hypothesis: the position of the first claim with this id. */
  function FindClaim(claims: seq<Claim>, id: string): (r: Option<nat>)
    ensures r.Some? ==> r.value < |claims| && claims[r.value].id == id
                        && forall k :: 0 <= k < r.value ==> claims[k].id != id
    ensures r.None? ==> forall k :: 0 <= k < |claims| ==> claims[k].id != id
  {
    FindClaimFrom(claims, id, 0)
  }

  function FindClaimFrom(claims: seq<Claim>, id: string, from: nat): (r: Option<nat>)
    requires from <= |claims|
    ensures r.Some? ==> from <= r.value < |claims| && claims[r.value].id == id
                        && forall k :: from <= k < r.value ==> claims[k].id != id
    ensures r.None? ==> forall k :: from <= k < |claims| ==> claims[k].id != id
    decreases |claims| - from
  {
    if from == |claims| then None
    else if claims[from].id == id then Some(from)
    else FindClaimFrom(claims, id, from + 1)
  }

  /** The claim itself, where Python's lookup returns the object or None. */
  function LookUp(claims: seq<Claim>, id: string): (r: Option<Claim>)
    ensures r.Some? ==> r.value in claims && r.value.id == id
  {
    match FindClaim(claims, id)
    case None => None
    case Some(k) => Some(claims[k])
  }

  /** The items of the log that bear on a claim in one direction, in log order. */
  function Bearing(log: seq<Evidence>, id: string, d: Direction): seq<Evidence> {
    if log == [] then []
    else
      var last := log[|log| - 1];
      Bearing(log[..|log| - 1], id, d) + if id in last.hypothesisIds && last.direction == d then [last] else []
  }

  /** max(e.strength for e in items, default=0.0) */
  function Strongest(items: seq<Evidence>): (r: real)
    ensures 0.0 <= r <= 1.0
  {
    if items == [] then 0.0
    else Max(Strongest(items[..|items| - 1]), items[|items| - 1].strength)
  }

  function EvidenceIds(items: seq<Evidence>): (r: seq<string>)
    ensures |r| == |items|
    ensures forall k :: 0 <= k < |r| ==> r[k] == items[k].id
  {
    seq(|items|, k requires 0 <= k < |items| => items[k].id)
  }

  /** True when some item of the log names the claim, whatever its direction. */
  predicate Mentioned(log: seq<Evidence>, id: string) {
    exists k :: 0 <= k < |log| && id in log[k].hypothesisIds
  }

  /** open_hypotheses: positions of the claims whose status is not terminal, in order. */
  function OpenClaims(claims: seq<Claim>): (r: seq<nat>)
    ensures forall k :: 0 <= k < |r| ==> r[k] < |claims| && !IsTerminal(claims[r[k]].status)
    ensures forall i :: 0 <= i < |claims| && !IsTerminal(claims[i].status) ==> i in r
    ensures forall j, k :: 0 <= j < k < |r| ==> r[j] < r[k]
  {
    if claims == [] then []
    else
      var n := |claims| - 1;
      var rest := OpenClaims(claims[..n]);
      assert forall k :: 0 <= k < |rest| ==> claims[..n][rest[k]] == claims[rest[k]];
      if IsTerminal(claims[n].status) then rest else rest + [n]
  }

  /** The claim with its verdict blanked out: what no rescoring may change. */
  function Identity(c: Claim): Claim {
    c.(status := Proposed, confidence := 0.5)
  }

  // Facts about the log

  lemma BearingAppend(log: seq<Evidence>, e: Evidence, id: string, d: Direction)
    ensures Bearing(log + [e], id, d)
         == Bearing(log, id, d) + if id in e.hypothesisIds && e.direction == d then [e] else []
  {
    assert (log + [e])[..|log|] == log;
  }

  lemma StrongestAppend(items: seq<Evidence>, e: Evidence)
    ensures Strongest(items + [e]) == Max(Strongest(items), e.strength)
  {
    assert (items + [e])[..|items|] == items;
  }

  lemma EvidenceIdsAppend(items: seq<Evidence>, e: Evidence)
    ensures EvidenceIds(items + [e]) == EvidenceIds(items) + [e.id]
  {
  }
}
