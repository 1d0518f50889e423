/** HypothesisUpdater: a claim's status and confidence follow from the evidence filed against it. */
module Scoring {
  import opened Outcomes
  import opened Enums
  import opened Domain
  import opened Mutators

  const SUPPORT_THRESHOLD := 0.5

  function BestSupport(log: seq<Evidence>, id: string): real {
    Strongest(Bearing(log, id, Supports))
  }

  function BestRefutation(log: seq<Evidence>, id: string): real {
    Strongest(Bearing(log, id, Refutes))
  }

  /** The body of _score that moves one claim: the step from `proposed`, then the three evidence branches. */
  function Rescore(c: Claim, log: seq<Evidence>): Outcome<Claim> {
    var c0 :- if c.status == Proposed then MoveTo(c, Active) else Ok(c);
    var supports, refutes := Bearing(log, c.id, Supports), Bearing(log, c.id, Refutes);
    var s, r := Strongest(supports), Strongest(refutes);
    if supports != [] && refutes != [] then
      var c1 :- MoveTo(c0, Weakened);
      WithConfidence(c1, Max(0.25, 0.5 + 0.2 * (s - r)))
    else if supports != [] then
      if s >= SUPPORT_THRESHOLD then
        var c1 :- MoveTo(c0, Supported);
        WithConfidence(c1, Min(0.95, 0.55 + s / 2.0))
      else
        WithConfidence(c0, 0.45 + s / 4.0)
    else if refutes != [] then
      if r >= SUPPORT_THRESHOLD then
        var c1 :- MoveTo(c0, Rejected);
        WithConfidence(c1, Max(0.05, 0.4 - r / 2.0))
      else
        var c1 :- MoveTo(c0, Weakened);
        WithConfidence(c1, Max(0.2, 0.45 - r / 4.0))
    else
      Ok(c0)
  }

  /** HypothesisUpdater._score */
  function ScoreClaim(seed: string, st: State, target: string): Outcome<State> {
    match FindClaim(st.claims, target)
    case None => Ok(st)
    case Some(k) =>
      var c := st.claims[k];
      if IsTerminal(c.status) then Ok(st)
      else
        var c' :- Rescore(c, st.evidence);
        var st1 := LogDecision(st.(claims := st.claims[k := c']), seed, "dec-rev", [c.id]);
        if c'.status == Active && 0.0 < BestSupport(st.evidence, c.id) < SUPPORT_THRESHOLD
        then Ok(AddQuestion(st1, seed, "q-follow", [c.id]))
        else Ok(st1)
  }

  /** HypothesisUpdater.update over the first n targets. */
  function ScoreFirst(seed: string, st: State, targets: seq<string>, n: nat): Outcome<State>
    requires n <= |targets|
  {
    if n == 0 then Ok(st)
    else
      var st1 :- ScoreFirst(seed, st, targets, n - 1);
      ScoreClaim(seed, st1, targets[n - 1])
  }

  // The independent reference: what a log alone says about a claim.

  /** Status and confidence as a function of the evidence bearing on a claim, with no memory of the past. */
  function Verdict(log: seq<Evidence>, id: string): (ClaimStatus, real) {
    var supports, refutes := Bearing(log, id, Supports), Bearing(log, id, Refutes);
    var s, r := Strongest(supports), Strongest(refutes);
    if supports == [] && refutes == [] then (Active, 0.5)
    else if supports != [] && refutes != [] then (Weakened, Max(0.25, 0.5 + 0.2 * (s - r)))
    else if supports != [] then
      if s >= SUPPORT_THRESHOLD then (Supported, Min(0.95, 0.55 + s / 2.0)) else (Active, 0.45 + s / 4.0)
    else
      if r >= SUPPORT_THRESHOLD then (Rejected, Max(0.05, 0.4 - r / 2.0)) else (Weakened, Max(0.2, 0.45 - r / 4.0))
  }
}
