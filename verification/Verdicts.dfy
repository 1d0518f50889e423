/**
 What a conclusion says: the claims it is about, its confidence, and the evidence it cites, for each of the six
 dispositions.
 */
module Verdicts {
  import opened Outcomes
  import opened Enums
  import opened Ids
  import opened Domain
  import opened Moments
  import opened Concluding

  // The claims of one status

  /** The claims of one status, in their order. */
  predicate OfStatus(claims: seq<Claim>, s: ClaimStatus, chosen: seq<Claim>, places: seq<nat>) {
    && |places| == |chosen|
    && (forall j :: 0 <= j < |places| ==>
          places[j] < |claims| && claims[places[j]].status == s && chosen[j] == claims[places[j]])
    && (forall i, j :: 0 <= i < j < |places| ==> places[i] < places[j])
    && forall k :: 0 <= k < |claims| && claims[k].status == s ==> k in places
  }

  lemma OneMoreOfStatus(front: seq<Claim>, last: Claim, s: ClaimStatus, chosen: seq<Claim>, places: seq<nat>)
    requires OfStatus(front, s, chosen, places)
    ensures if last.status == s then OfStatus(front + [last], s, chosen + [last], places + [|front|])
            else OfStatus(front + [last], s, chosen, places)
  {
  }

  lemma {:induction false} StatusMeans(claims: seq<Claim>, s: ClaimStatus) returns (places: seq<nat>)
    ensures OfStatus(claims, s, WithStatus(claims, s), places)
  {
    hide OfStatus;
    if claims == [] {
      places := [];
      NoneOfStatus(s);
    } else {
      var n := |claims| - 1;
      places := StatusMeans(claims[..n], s);
      OneMoreOfStatus(claims[..n], claims[n], s, WithStatus(claims[..n], s), places);
      assert claims[..n] + [claims[n]] == claims && WithStatus(claims[..n], s) + [] == WithStatus(claims[..n], s);
      if claims[n].status == s {
        places := places + [n];
      }
    }
  }

  lemma NoneOfStatus(s: ClaimStatus)
    ensures OfStatus([], s, [], [])
  {
  }

  // What is quoted and cited

  /** The conclusion is about these claims: their ids and their statements, in order. */
  predicate About(c: Conclusion, chosen: seq<Claim>) {
    && |c.claimIds| == |chosen| && |c.quotes| == |chosen|
    && forall k :: 0 <= k < |chosen| ==> c.claimIds[k] == chosen[k].id && c.quotes[k] == chosen[k].statement
  }

  function Confidences(claims: seq<Claim>): (r: seq<real>)
    ensures |r| == |claims| && forall k :: 0 <= k < |r| ==> r[k] == claims[k].confidence
  {
    seq(|claims|, k requires 0 <= k < |claims| => claims[k].confidence)
  }

  lemma {:induction false} TotalIsSum(claims: seq<Claim>)
    ensures TotalConfidence(claims) == Sum(Confidences(claims))
  {
    if claims != [] {
      TotalIsSum(claims[..|claims| - 1]);
      assert Confidences(claims)[..|claims| - 1] == Confidences(claims[..|claims| - 1]);
    }
  }

  /** As confident as the claims are on average. */
  predicate OnAverage(confidence: real, claims: seq<Claim>) {
    confidence * |claims| as real == Sum(Confidences(claims))
  }

  lemma MeanIsAverage(claims: seq<Claim>)
    requires claims != []
    ensures OnAverage(MeanConfidence(claims), claims)
  {
    TotalIsSum(claims);
    var n := |claims| as real;
    assert TotalConfidence(claims) / n * n == TotalConfidence(claims);
  }

  /** The ids of the items that point one way, in their order. */
  predicate Pointing(log: seq<Evidence>, d: Direction, ids: seq<string>, places: seq<nat>) {
    && |places| == |ids|
    && (forall j :: 0 <= j < |places| ==>
          places[j] < |log| && log[places[j]].direction == d && ids[j] == log[places[j]].id)
    && (forall i, j :: 0 <= i < j < |places| ==> places[i] < places[j])
    && forall k :: 0 <= k < |log| && log[k].direction == d ==> k in places
  }

  lemma {:induction false} PointingMeans(log: seq<Evidence>, d: Direction) returns (places: seq<nat>)
    ensures Pointing(log, d, PointingIds(log, d), places)
  {
    places := [];
    if log != [] {
      var n := |log| - 1;
      places := PointingMeans(log[..n], d);
      assert forall k :: 0 <= k < n ==> log[..n][k] == log[k];
      if log[n].direction == d {
        places := places + [n];
      }
    }
  }

  /** All the open questions, by id. */
  predicate AsksAll(c: Conclusion, st: State) {
    && |c.questionIds| == |st.questions|
    && forall k :: 0 <= k < |st.questions| ==> c.questionIds[k] == st.questions[k].id
  }

  // The dispositions

  /** The claims that did not hold: refuted, then weakened, then undetermined. */
  function Fallen(claims: seq<Claim>): seq<Claim> {
    WithStatus(claims, Rejected) + WithStatus(claims, Weakened) + WithStatus(claims, Unresolved)
  }

  lemma FallenAreOpposed(claims: seq<Claim>)
    ensures Opposed(claims) == Fallen(claims)
  {
    hide WithStatus;
  }

  /** A finding that something holds is about what holds and about what fell, and is as sure as they are on average. */
  lemma HeldMeans(seed: string, st: State, reason: Reason)
    requires WithStatus(st.claims, Supported) != []
    ensures var c, held, fallen := ConclusionOf(seed, st, reason), WithStatus(st.claims, Supported), Fallen(st.claims);
            && c.disposition == (if fallen == [] then SupportedFinding else MixedFinding)
            && About(c, held + fallen) && OnAverage(c.confidence, held + fallen) && AsksAll(c, st)
            && c.keyEvidenceIds
               == (if fallen == [] then PointingIds(st.evidence, Supports) else EvidenceIds(st.evidence))
  {
    hide WithStatus, MeanConfidence, Opposed, PointingIds, Fallen, OnAverage;
    FallenAreOpposed(st.claims);
    var held := WithStatus(st.claims, Supported);
    MeanIsAverage(held);
    MeanIsAverage(held + Opposed(st.claims));
    assert held + [] == held;
  }

  /** A finding that nothing holds is about what is only weakened, if anything is, and otherwise what was refuted. */
  lemma FallenMeans(seed: string, st: State, reason: Reason)
    requires WithStatus(st.claims, Supported) == []
    ensures var c, rejected := ConclusionOf(seed, st, reason), WithStatus(st.claims, Rejected);
            var weak := WithStatus(st.claims, Weakened);
            && AsksAll(c, st)
            && (weak != [] ==>
                  c.disposition == InconclusiveFinding && About(c, weak) && c.confidence == 0.4
                  && c.keyEvidenceIds == EvidenceIds(st.evidence))
            && (weak == [] && rejected != [] ==>
                  c.disposition == RefutedFinding && About(c, rejected) && c.confidence == 0.6
                  && c.keyEvidenceIds == PointingIds(st.evidence, Refutes))
            && (weak == [] && rejected == [] ==>
                  c.keyEvidenceIds == [] && c.quotes == []
                  && if reason == UnanswerablePremise
                     then c.disposition == UnanswerableFinding && c.confidence == 0.0 && c.claimIds == []
                     else c.disposition == InsufficientFinding && c.confidence == 0.2 && NamesAll(c, st))
  {
    hide WithStatus, MeanConfidence, PointingIds;
  }

  predicate NamesAll(c: Conclusion, st: State) {
    |c.claimIds| == |st.claims| && forall k :: 0 <= k < |st.claims| ==> c.claimIds[k] == st.claims[k].id
  }

  /**
   Synthesis leaves what is active unresolved, draws the conclusion of what that leaves, takes over its confidence, and
   logs one decision about it; nothing else changes.
   */
  lemma SynthesisMeans(seed: string, st: State, reason: Reason)
    ensures var r := Synthesize(seed, st, reason);
            && |r.claims| == |st.claims|
            && (forall k :: 0 <= k < |r.claims| ==>
                  r.claims[k]
                  == if st.claims[k].status == Active then st.claims[k].(status := Unresolved) else st.claims[k])
            && r.conclusion == Some(ConclusionOf(seed, st.(claims := r.claims), reason))
            && r.confidence == r.conclusion.value.confidence && r.conclusion.value.id == Make(seed, "concl", 0)
            && r.decisions == st.decisions + [Decision(Make(seed, "dec-concl", |st.decisions|), "dec-concl",
                                                       [r.conclusion.value.id], st.iterationsUsed)]
            && r.(claims := st.claims, conclusion := st.conclusion, confidence := st.confidence,
                  decisions := st.decisions) == st
  {
    hide WithStatus, MeanConfidence, PointingIds, Opposed, Make;
  }
}
