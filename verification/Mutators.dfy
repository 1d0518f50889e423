/** What the mutators of the state and of a claim do, as functions from old state to new. */
module Mutators {
  import opened Outcomes
  import opened Enums
  import opened Ids
  import opened Domain

  /** Hypothesis.set_status */
  function MoveTo(c: Claim, target: ClaimStatus): Outcome<Claim> {
    if CanMove(c.status, target) then Ok(c.(status := target)) else Raised(IllegalClaimMove)
  }

  /** Hypothesis.set_confidence */
  function WithConfidence(c: Claim, value: real): Outcome<Claim> {
    if 0.0 <= value <= 1.0 then Ok(c.(confidence := value)) else Raised(ConfidenceOutOfRange)
  }

  /** Hypothesis.link_supporting_evidence and link_contradicting_evidence */
  function Linked(ids: seq<string>, id: string): seq<string> {
    if id in ids then ids else ids + [id]
  }

  function LinkOne(c: Claim, d: Direction, id: string): Claim {
    match d
    case Refutes => c.(contradictingIds := Linked(c.contradictingIds, id))
    case Supports => c.(supportingIds := Linked(c.supportingIds, id))
    case Neutral => c
  }

  /** The linking loop of add_evidence, over the first n hypothesis ids the evidence names. */
  function LinkFirst(claims: seq<Claim>, e: Evidence, n: nat): (r: seq<Claim>)
    requires n <= |e.hypothesisIds|
    ensures |r| == |claims|
  {
    if n == 0 then claims
    else
      var rest := LinkFirst(claims, e, n - 1);
      match FindClaim(rest, e.hypothesisIds[n - 1])
      case None => rest
      case Some(k) => rest[k := LinkOne(rest[k], e.direction, e.id)]
  }

  /** InvestigationState.add_evidence */
  function AddEvidence(st: State, e: Evidence): State {
    st.(evidence := st.evidence + [e], claims := LinkFirst(st.claims, e, |e.hypothesisIds|))
  }

  /** record_decision, with the id every caller mints from the length of the decision list. */
  function LogDecision(st: State, seed: string, kind: string, targets: seq<string>): State {
    st.(decisions := st.decisions + [Decision(Make(seed, kind, |st.decisions|), kind, targets, st.iterationsUsed)])
  }

  /** add_open_question, with the id minted from the length of the question list. */
  function AddQuestion(st: State, seed: string, kind: string, about: seq<string>): State {
    st.(questions := st.questions + [OpenQuestion(Make(seed, kind, |st.questions|), kind, about)])
  }

  function AddCritique(st: State, c: Critique): State {
    st.(critiques := st.critiques + [c])
  }

  function AddRequest(st: State, r: Request): State {
    st.(pending := st.pending + [r])
  }

  /** The pending requests a result answers, and those it leaves. */
  function Answered(pending: seq<Request>, requestId: string): seq<Request> {
    if pending == [] then []
    else
      var last := pending[|pending| - 1];
      Answered(pending[..|pending| - 1], requestId) + if last.id == requestId then [last] else []
  }

  function Unanswered(pending: seq<Request>, requestId: string): seq<Request> {
    if pending == [] then []
    else
      var last := pending[|pending| - 1];
      Unanswered(pending[..|pending| - 1], requestId) + if last.id != requestId then [last] else []
  }

  /** `request.status = record.status`: the request object sits in the pending list under its id. */
  function StampStatus(pending: seq<Request>, requestId: string, status: ExperimentStatus): (r: seq<Request>)
    ensures |r| == |pending|
    ensures forall k :: 0 <= k < |r| ==>
      r[k] == if pending[k].id == requestId then pending[k].(status := status) else pending[k]
  {
    seq(|pending|, k requires 0 <= k < |pending| =>
      if pending[k].id == requestId then pending[k].(status := status) else pending[k])
  }

  /** InvestigationState.record_experiment_result */
  function FileResult(st: State, r: Result): State {
    var st1 := st.(
      pending := Unanswered(st.pending, r.requestId),
      executed := st.executed + Answered(st.pending, r.requestId),
      experimentsUsed := st.experimentsUsed + 1,
      observations := st.observations + r.observations);
    if r.status == FailedRun then st1.(failed := st.failed + [r]) else st1.(completed := st.completed + [r])
  }

  /** Investigation.set_status */
  function AdvanceTo(inv: Investigation, target: Lifecycle): Outcome<Investigation> {
    if CanAdvance(inv.status, target) then Ok(inv.(status := target)) else Raised(IllegalLifecycleMove)
  }

  // Facts

  /** Ids that occur once: the first pending request is the one its result retires. */
  lemma {:induction false} AnsweredHead(pending: seq<Request>, requestId: string)
    requires pending != [] && pending[0].id == requestId
    requires forall k :: 1 <= k < |pending| ==> pending[k].id != requestId
    ensures Answered(pending, requestId) == [pending[0]]
    ensures Unanswered(pending, requestId) == pending[1..]
  {
    var n := |pending| - 1;
    if n == 0 {
      assert pending[..0] == [];
    } else {
      AnsweredHead(pending[..n], requestId);
      assert pending[1..] == pending[..n][1..] + [pending[n]];
    }
  }

  /** Linking touches only the two link lists. */
  lemma {:induction false} LinkFirstKeeps(claims: seq<Claim>, e: Evidence, n: nat)
    requires n <= |e.hypothesisIds|
    ensures forall k :: 0 <= k < |claims| ==>
      LinkFirst(claims, e, n)[k].(supportingIds := [], contradictingIds := [])
      == claims[k].(supportingIds := [], contradictingIds := [])
  {
    if n > 0 {
      LinkFirstKeeps(claims, e, n - 1);
    }
  }
}
