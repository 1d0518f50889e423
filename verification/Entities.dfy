/**
 The aggregate as the program holds it: hypothesis objects, the state that owns them and the investigation around it,
 all changed in place. Each object's View is the value the rest of this project reasons about.
 */
module Entities {
  import opened Outcomes
  import opened Enums
  import opened Domain
  import opened Mutators

  /** What a method that may raise leaves: on success the specified value, otherwise the specified exception. */
  predicate Refines<T(==)>(o: Outcome<()>, spec: Outcome<T>, now: T) {
    match o
    case Ok(_) => spec == Ok(now)
    case Raised(e) => spec == Raised(e)
  }

  class Hypothesis {
    const id: string
    const statement: string
    const metricRefs: seq<string>
    var exclusiveWith: seq<string>
    var status: ClaimStatus
    var confidence: real
    var supportingIds: seq<string>
    var contradictingIds: seq<string>

    function View(): Claim
      reads this
    {
      Claim(id, statement, metricRefs, exclusiveWith, status, confidence, supportingIds, contradictingIds)
    }

    constructor (id: string, statement: string, metricRefs: seq<string>)
      ensures View() == Claim(id, statement, metricRefs, [], Proposed, 0.5, [], [])
    {
      this.id, this.statement, this.metricRefs := id, statement, metricRefs;
      exclusiveWith, status, confidence, supportingIds, contradictingIds := [], Proposed, 0.5, [], [];
    }

    /** A move the graph does not allow is refused and changes nothing. */
    method SetStatus(target: ClaimStatus) returns (o: Outcome<()>)
      modifies this
      ensures Refines(o, MoveTo(old(View()), target), View())
      ensures o.Raised? ==> View() == old(View())
    {
      if !CanMove(status, target) {
        return Raised(IllegalClaimMove);
      }
      if target != status {
        status := target;
      }
      return Ok(());
    }

    method SetConfidence(value: real) returns (o: Outcome<()>)
      modifies this
      ensures Refines(o, WithConfidence(old(View()), value), View())
      ensures o.Ok? <==> 0.0 <= value <= 1.0
      ensures o.Raised? ==> View() == old(View())
    {
      if !(0.0 <= value <= 1.0) {
        return Raised(ConfidenceOutOfRange);
      }
      confidence := value;
      return Ok(());
    }

    method LinkSupportingEvidence(evidenceId: string)
      modifies this
      ensures View() == LinkOne(old(View()), Supports, evidenceId)
    {
      if evidenceId !in supportingIds {
        supportingIds := supportingIds + [evidenceId];
      }
    }

    method LinkContradictingEvidence(evidenceId: string)
      modifies this
      ensures View() == LinkOne(old(View()), Refutes, evidenceId)
    {
      if evidenceId !in contradictingIds {
        contradictingIds := contradictingIds + [evidenceId];
      }
    }
  }

  function Views(hs: seq<Hypothesis>): (r: seq<Claim>)
    reads hs
    ensures |r| == |hs| && forall k :: 0 <= k < |hs| ==> r[k] == hs[k].View()
  {
    seq(|hs|, k requires 0 <= k < |hs| reads hs => hs[k].View())
  }

  class InvestigationState {
    var hypotheses: seq<Hypothesis>
    var pendingExperiments: seq<Request>
    var executedRequests: seq<Request>
    var completedExperiments: seq<Result>
    var failedExperiments: seq<Result>
    var evidence: seq<Evidence>
    var observations: seq<Observation>
    var openQuestions: seq<OpenQuestion>
    var decisions: seq<Decision>
    var critiques: seq<Critique>
    var currentConclusion: Option<Conclusion>
    var confidence: real
    var experimentsUsed: nat
    var iterationsUsed: nat
    var termination: Option<Termination>

    /** No hypothesis object is held twice. */
    ghost predicate Valid()
      reads this
    {
      forall i, j :: 0 <= i < j < |hypotheses| ==> hypotheses[i] != hypotheses[j]
    }

    function View(): State
      reads this, hypotheses
    {
      State(Views(hypotheses), pendingExperiments, executedRequests, completedExperiments, failedExperiments, evidence,
            observations,
            openQuestions, decisions, critiques, currentConclusion, confidence,
            experimentsUsed, iterationsUsed, termination)
    }

    constructor ()
      ensures Valid() && View() == EMPTY_STATE && hypotheses == []
    {
      hypotheses, pendingExperiments, executedRequests, completedExperiments, failedExperiments := [], [], [], [], [];
      evidence, observations, openQuestions, decisions, critiques := [], [], [], [], [];
      currentConclusion, confidence, experimentsUsed, iterationsUsed, termination := None, 0.0, 0, 0, None;
    }

    // Lookups

    method FindHypothesis(id: string) returns (k: Option<nat>)
      ensures k == FindClaim(View().claims, id)
    {
      var i := 0;
      while i < |hypotheses|
        invariant 0 <= i <= |hypotheses|
        invariant forall j :: 0 <= j < i ==> hypotheses[j].id != id
      {
        if hypotheses[i].id == id {
          FirstClaim(View().claims, id, i);
          return Some(i);
        }
        i := i + 1;
      }
      return None;
    }

    method OpenHypotheses() returns (open: seq<nat>)
      ensures open == OpenClaims(View().claims)
    {
      hide OpenClaims, IsTerminal;
      open := [];
      ghost var claims := View().claims;
      NoneOpen();
      for k := 0 to |hypotheses|
        invariant open == OpenClaims(claims[..k])
      {
        OneMoreOpen(claims, k);
        if !IsTerminal(hypotheses[k].status) {
          open := open + [k];
        }
      }
      assert claims[..|hypotheses|] == claims;
    }

    /** The items of evidence_for that point one way. */
    method EvidenceFor(id: string, d: Direction) returns (items: seq<Evidence>)
      ensures items == Bearing(evidence, id, d)
    {
      items := [];
      for k := 0 to |evidence|
        invariant items == Bearing(evidence[..k], id, d)
      {
        assert evidence[..k + 1][..k] == evidence[..k];
        if id in evidence[k].hypothesisIds && evidence[k].direction == d {
          items := items + [evidence[k]];
        }
      }
      assert evidence[..|evidence|] == evidence;
    }

    // Mutators

    method AddHypothesis(h: Hypothesis)
      requires Valid() && h !in hypotheses
      modifies this`hypotheses
      ensures Valid() && hypotheses == old(hypotheses) + [h]
      ensures View() == old(View()).(claims := old(View()).claims + [h.View()])
    {
      hypotheses := hypotheses + [h];
    }

    method AddExperimentRequest(r: Request)
      modifies this`pendingExperiments
      ensures View() == AddRequest(old(View()), r)
    {
      pendingExperiments := pendingExperiments + [r];
    }

    method RecordExperimentResult(r: Result)
      modifies this`pendingExperiments, this`executedRequests, this`completedExperiments, this`failedExperiments,
               this`experimentsUsed, this`observations
      ensures View() == FileResult(old(View()), r)
    {
      hide Answered, Unanswered, Views;
      var retired, kept := Retire(pendingExperiments, r.requestId);
      FileRequests(retired, kept, r.observations);
      FileByStatus(r);
    }

    /** The answered requests move, and the experiment and its observations are counted in. */
    method FileRequests(retired: seq<Request>, kept: seq<Request>, more: seq<Observation>)
      modifies this`pendingExperiments, this`executedRequests, this`experimentsUsed, this`observations
      ensures var st := old(View());
              View() == st.(pending := kept, executed := st.executed + retired,
                            experimentsUsed := st.experimentsUsed + 1,
                            observations := st.observations + more)
    {
      hide Views;
      pendingExperiments, executedRequests := kept, executedRequests + retired;
      experimentsUsed, observations := experimentsUsed + 1, observations + more;
    }

    /** A result goes to the failed list or to the completed one. */
    method FileByStatus(r: Result)
      modifies this`completedExperiments, this`failedExperiments
      ensures var st := old(View());
              View() == if r.status == FailedRun then st.(failed := st.failed + [r])
                      else st.(completed := st.completed + [r])
    {
      hide Views;
      if r.status == FailedRun {
        failedExperiments := failedExperiments + [r];
      } else {
        completedExperiments := completedExperiments + [r];
      }
    }

    /** The evidence is logged, and linked to every hypothesis it names, on the side it points to. */
    method AddEvidence(e: Evidence)
      requires Valid()
      modifies this`evidence, hypotheses
      ensures Valid() && View() == Mutators.AddEvidence(old(View()), e)
    {
      hide LinkOne, FindClaim;
      evidence := evidence + [e];
      for n := 0 to |e.hypothesisIds|
        invariant evidence == old(evidence) + [e]
        invariant Views(hypotheses) == LinkFirst(old(View()).claims, e, n)
      {
        Link(e, e.hypothesisIds[n]);
      }
    }

    method Link(e: Evidence, id: string)
      requires Valid()
      modifies hypotheses
      ensures Views(hypotheses) == match FindClaim(old(Views(hypotheses)), id)
        case None => old(Views(hypotheses))
        case Some(k) => old(Views(hypotheses))[k := LinkOne(old(Views(hypotheses))[k], e.direction, e.id)]
    {
      hide FindClaim;
      var found := FindHypothesis(id);
      if found.Some? {
        var h := hypotheses[found.value];
        if e.direction == Refutes {
          h.LinkContradictingEvidence(e.id);
        } else if e.direction == Supports {
          h.LinkSupportingEvidence(e.id);
        }
      }
    }

    method AddOpenQuestion(seed: string, kind: string, about: seq<string>)
      modifies this`openQuestions
      ensures View() == AddQuestion(old(View()), seed, kind, about)
    {
      openQuestions := openQuestions + [OpenQuestion(Ids.Make(seed, kind, |openQuestions|), kind, about)];
    }

    /** Every decision is stamped with the iteration it is made in. */
    method RecordDecision(seed: string, kind: string, targets: seq<string>)
      modifies this`decisions
      ensures View() == LogDecision(old(View()), seed, kind, targets)
    {
      decisions := decisions + [Decision(Ids.Make(seed, kind, |decisions|), kind, targets, iterationsUsed)];
    }

    method AddCritique(c: Critique)
      modifies this`critiques
      ensures View() == Mutators.AddCritique(old(View()), c)
    {
      critiques := critiques + [c];
    }

    method SetConclusion(c: Conclusion)
      modifies this`currentConclusion, this`confidence
      ensures View() == old(View()).(conclusion := Some(c), confidence := c.confidence)
    {
      currentConclusion := Some(c);
      confidence := c.confidence;
    }

    method RecordTermination(t: Termination)
      modifies this`termination
      ensures View() == old(View()).(termination := Some(t))
    {
      termination := Some(t);
    }

    method AdvanceIteration()
      modifies this`iterationsUsed
      ensures View() == old(View()).(iterationsUsed := old(View()).iterationsUsed + 1)
    {
      iterationsUsed := iterationsUsed + 1;
    }
  }

  /** The pending requests a result answers, and those it leaves. */
  method Retire(pending: seq<Request>, requestId: string) returns (retired: seq<Request>, kept: seq<Request>)
    ensures retired == Answered(pending, requestId) && kept == Unanswered(pending, requestId)
  {
    retired, kept := [], [];
    for k := 0 to |pending|
      invariant retired == Answered(pending[..k], requestId) && kept == Unanswered(pending[..k], requestId)
    {
      assert pending[..k + 1][..k] == pending[..k];
      if pending[k].id == requestId {
        retired := retired + [pending[k]];
      } else {
        kept := kept + [pending[k]];
      }
    }
    assert pending[..|pending|] == pending;
  }

  lemma NoneOpen()
    ensures OpenClaims([]) == []
  {
  }

  lemma OneMoreOpen(claims: seq<Claim>, k: nat)
    requires k < |claims|
    ensures OpenClaims(claims[..k + 1])
         == if IsTerminal(claims[k].status) then OpenClaims(claims[..k]) else OpenClaims(claims[..k]) + [k]
  {
    hide IsTerminal;
    assert claims[..k + 1][..k] == claims[..k];
  }

  /** The first claim with an id is the one the lookup finds. */
  lemma FirstClaim(claims: seq<Claim>, id: string, k: nat)
    requires k < |claims| && claims[k].id == id && forall j :: 0 <= j < k ==> claims[j].id != id
    ensures FindClaim(claims, id) == Some(k)
  {
    var r := FindClaim(claims, id);
    assert r.Some? && !(r.value < k) && !(k < r.value);
  }

  class LiveInvestigation {
    const id: string
    const state: InvestigationState
    var goalId: string
    var datasets: seq<Dataset>
    var status: Lifecycle

    function View(): Investigation
      reads this, state, state.hypotheses
    {
      Investigation(id, goalId, datasets, status, state.View())
    }

    constructor (id: string, goalId: string, datasets: seq<Dataset>)
      ensures View() == Investigation(id, goalId, datasets, Created, EMPTY_STATE)
      ensures fresh(state) && state.Valid() && state.hypotheses == []
    {
      this.id, this.goalId, this.datasets, status := id, goalId, datasets, Created;
      state := new InvestigationState();
    }

    method SetStatus(target: Lifecycle) returns (o: Outcome<()>)
      modifies this`status
      ensures Refines(o, AdvanceTo(old(View()), target), View())
      ensures o.Raised? ==> View() == old(View())
    {
      if !CanAdvance(status, target) {
        return Raised(IllegalLifecycleMove);
      }
      if target != status {
        status := target;
      }
      return Ok(());
    }
  }
}
