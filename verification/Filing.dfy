/** ExperimentExecutor.record and EvidenceUpdater: folding one finished experiment into the state. */
module Filing {
  import opened Outcomes
  import opened Enums
  import opened Ids
  import opened Domain
  import opened Environment
  import opened Mutators

  const MAX_SUMMARY := 1024

  /** Observations re-stamped with ids of this run. */
  function StampObservations(seed: string, ordinal: nat, resultId: string,
                             raw: seq<RawObservation>): (r: seq<Observation>)
    ensures |r| == |raw|
  {
    seq(|raw|, k requires 0 <= k < |raw| =>
      Observation(Make(seed, "obs-" + Decimal(ordinal), k), resultId, raw[k].content))
  }

  /**
   to_domain_result and the re-stamping in ExperimentExecutor.record. The result's `error` field expects an entity
   but is handed the error's detail text, so a record whose error carries a detail cannot be filed at all.
   */
  function ResultOf(seed: string, ordinal: nat, req: Request, rec: Record): Outcome<Result> {
    if rec.errorDetail.Some? || |rec.summary| > MAX_SUMMARY then Raised(InvalidModel)
    else
      var id := Make(seed, "res", ordinal);
      Ok(Result(id, req.id, req.tool, rec.status, StampObservations(seed, ordinal, id, rec.observations),
                [], rec.artifactIds, Make(seed, "repro", ordinal)))
  }

  /** ExperimentExecutor.record */
  function RecordResult(seed: string, st: State, req: Request, rec: Record): Outcome<State> {
    var res :- ResultOf(seed, |st.completed| + |st.failed|, req, rec);
    Ok(FileResult(st.(pending := StampStatus(st.pending, req.id, rec.status)), res))
  }

  // Directions

  function Sign(x: real): int {
    if -0.000000001 < x < 0.000000001 then 0 else if x > 0.0 then 1 else -1
  }

  /** The sign of the first of these keys that is present. */
  function FirstSign(values: map<string, real>, keys: seq<string>): Option<int> {
    if keys == [] then None
    else if keys[0] in values then Some(Sign(values[keys[0]]))
    else FirstSign(values, keys[1..])
  }

  /** _evidence_sign */
  function EvidenceSign(e: RawEvidence): int {
    if e.diagnostics.None? then 0
    else match FirstSign(e.diagnostics.value, ["slope", "shift", "mean_diff"])
      case Some(s) => s
      case None => 0
  }

  function StatisticsSign(statistics: seq<map<string, real>>): int {
    if statistics == [] then 0
    else match FirstSign(statistics[0], ["slope", "shift", "mean_diff"])
      case Some(s) => s
      case None => StatisticsSign(statistics[1..])
  }

  /** _signal_sign */
  function SignalSign(rec: Record): int {
    match FirstSign(rec.metrics, ["slope", "mean_slope", "shift", "mean_diff", "effect_size"])
    case Some(s) => s
    case None => StatisticsSign(rec.statistics)
  }

  /** How one item bears on one claim: the claim's expected sign decides, where it has one. */
  function DirectionFor(expected: Option<int>, e: RawEvidence, recordSignal: int): Direction {
    match expected
    case Some(sign) =>
      var own := EvidenceSign(e);
      var signal := if own == 0 then recordSignal else own;
      if signal == 0 then Neutral
      else if signal * sign > 0 then Supports
      else Refutes
    case None =>
      if e.direction == Supports then Supports else Neutral
  }

  // Evidence

  /** The targets that name a claim of this state. */
  function KnownTargets(claims: seq<Claim>, targets: seq<string>): (r: seq<string>)
    ensures forall t :: t in r <==> t in targets && FindClaim(claims, t).Some?
  {
    if targets == [] then []
    else
      var last := targets[|targets| - 1];
      var rest := KnownTargets(claims, targets[..|targets| - 1]);
      assert targets == targets[..|targets| - 1] + [last];
      if FindClaim(claims, last).Some? then rest + [last] else rest
  }

  /** Every item against every target; an experiment that bears on no known claim files its items unattached. */
  function Pairings(items: seq<RawEvidence>, targets: seq<string>): (r: seq<(RawEvidence, Option<string>)>)
    ensures forall k :: 0 <= k < |r| ==> r[k].1.Some? ==> r[k].1.value in targets
  {
    if items == [] then []
    else
      var last := items[|items| - 1];
      Pairings(items[..|items| - 1], targets)
      + (if targets == [] then [(last, None)]
         else seq(|targets|, k requires 0 <= k < |targets| => (last, Some(targets[k]))))
  }

  function EvidenceFrom(seed: string, index: nat, expects: string -> Option<int>, claims: seq<Claim>,
                        pair: (RawEvidence, Option<string>), recordSignal: int, resultId: string): Evidence
  {
    var claim := if Truthy(pair.1) then LookUp(claims, pair.1.value) else None;
    var expected := if claim.Some? then expects(claim.value.statement) else None;
    Evidence(Make(seed, "evd", index), resultId, if Truthy(pair.1) then [pair.1.value] else [],
             DirectionFor(expected, pair.0, recordSignal), pair.0.strength)
  }

  /** The filing loop of EvidenceUpdater.update over the first n pairs. */
  function FileFirst(seed: string, expects: string -> Option<int>, st: State, pairs: seq<(RawEvidence, Option<string>)>,
                     n: nat, recordSignal: int, resultId: string): (r: State)
    requires n <= |pairs|
    ensures |r.evidence| == |st.evidence| + n
  {
    if n == 0 then st
    else
      var st1 := FileFirst(seed, expects, st, pairs, n - 1, recordSignal, resultId);
      AddEvidence(st1, EvidenceFrom(seed, |st1.evidence|, expects, st1.claims, pairs[n - 1], recordSignal, resultId))
  }

  /** `result.produced_evidence_ids = [...]` on the result just filed, the last completed one. */
  function SetProduced(completed: seq<Result>, ids: seq<string>): seq<Result>
    requires completed != []
  {
    completed[|completed| - 1 := completed[|completed| - 1].(producedIds := ids)]
  }

  /** EvidenceUpdater.update, with the result that record has just filed. */
  function UpdateEvidence(seed: string, expects: string -> Option<int>, st: State, req: Request, rec: Record): State
    requires st.completed != []
  {
    var named := KnownTargets(st.claims, req.targets);
    var pairs := Pairings(rec.evidence, named);
    var resultId := st.completed[|st.completed| - 1].id;
    var st1 := FileFirst(seed, expects, st, pairs, |pairs|, SignalSign(rec), resultId);
    FileFirstKeeps(seed, expects, st, pairs, |pairs|, SignalSign(rec), resultId);
    var st2 := st1.(completed := SetProduced(st1.completed, EvidenceIds(st1.evidence[|st.evidence|..])));
    if pairs != [] && named != [] then LogDecision(st2, seed, "dec-evd", named) else st2
  }

  // Frames

  /** A claim without its evidence links. */
  function Unlinked(c: Claim): Claim {
    c.(supportingIds := [], contradictingIds := [])
  }

  /** Filing touches only the log, which it extends, and the claims' links. */
  lemma {:induction false} FileFirstKeeps(seed: string, expects: string -> Option<int>, st: State,
                                          pairs: seq<(RawEvidence, Option<string>)>, n: nat, recordSignal: int,
                                          resultId: string)
    requires n <= |pairs|
    ensures var r := FileFirst(seed, expects, st, pairs, n, recordSignal, resultId);
            && r.(claims := st.claims, evidence := st.evidence) == st
            && |r.claims| == |st.claims|
            && (forall k :: 0 <= k < |st.claims| ==> Unlinked(r.claims[k]) == Unlinked(st.claims[k]))
            && st.evidence <= r.evidence
  {
    if n > 0 {
      FileFirstKeeps(seed, expects, st, pairs, n - 1, recordSignal, resultId);
      var st1 := FileFirst(seed, expects, st, pairs, n - 1, recordSignal, resultId);
      var e := EvidenceFrom(seed, |st1.evidence|, expects, st1.claims, pairs[n - 1], recordSignal, resultId);
      LinkFirstKeeps(st1.claims, e, |e.hypothesisIds|);
    }
  }
}
