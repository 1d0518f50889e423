/**
 The trace is closed: results, evidence and claims name each other over one space of ids that never repeats, and what
 was executed is exactly what was filed.
 */
module Trace {
  import opened Outcomes
  import opened Enums
  import opened Ids
  import opened Domain
  import opened Environment
  import opened Mutators
  import opened Scoring
  import opened Filing
  import opened Rivals
  import opened Explanation

  // Ids by position

  /** Decisions, questions and critiques carry the id of their position; decisions are stamped in order. */
  predicate LogsMinted(seed: string, st: State) {
    && (forall k :: 0 <= k < |st.decisions| ==> st.decisions[k].id == Make(seed, st.decisions[k].kind, k))
    && (forall k :: 0 <= k < |st.questions| ==> st.questions[k].id == Make(seed, st.questions[k].kind, k))
    && (forall k :: 0 <= k < |st.critiques| ==> st.critiques[k].id == Make(seed, "crit", k))
    && (forall j, k :: 0 <= j <= k < |st.decisions| ==>
          st.decisions[j].iteration <= st.decisions[k].iteration <= st.iterationsUsed)
  }

  predicate EvidenceMinted(seed: string, log: seq<Evidence>) {
    forall k :: 0 <= k < |log| ==> log[k].id == Make(seed, "evd", k)
  }

  predicate ClaimsMinted(seed: string, claims: seq<Claim>) {
    forall k :: 0 <= k < |claims| ==> claims[k].id == Make(seed, "hyp", k)
  }

  lemma MintedClaimsDistinct(seed: string, claims: seq<Claim>)
    requires ClaimsMinted(seed, claims)
    ensures DistinctIds(claims)
  {
    forall i, j | 0 <= i < j < |claims|
      ensures claims[i].id != claims[j].id
    {
      if claims[i].id == claims[j].id {
        MakeInjective(seed, "hyp", i, "hyp", j);
      }
    }
  }

  lemma MintedEvidenceDistinct(seed: string, log: seq<Evidence>)
    requires EvidenceMinted(seed, log)
    ensures forall i, j :: 0 <= i < j < |log| ==> log[i].id != log[j].id
  {
    forall i, j | 0 <= i < j < |log|
      ensures log[i].id != log[j].id
    {
      if log[i].id == log[j].id {
        MakeInjective(seed, "evd", i, "evd", j);
      }
    }
  }

  // What was executed is what was filed

  /** The part of a result that its request and its place in the run determine. */
  datatype Head = Head(id: string, requestId: string, tool: string, status: ExperimentStatus)

  function HeadOf(r: Result): Head {
    Head(r.id, r.requestId, r.tool, r.status)
  }

  function Heads(results: seq<Result>): (r: seq<Head>)
    ensures |r| == |results| && forall k :: 0 <= k < |r| ==> r[k] == HeadOf(results[k])
  {
    seq(|results|, k requires 0 <= k < |results| => HeadOf(results[k]))
  }

  /** The heads of the executed requests that failed, or of those that did not, in execution order. */
  function FiledHeads(seed: string, executed: seq<Request>, failed: bool): seq<Head> {
    if executed == [] then []
    else
      var n := |executed| - 1;
      var r := executed[n];
      FiledHeads(seed, executed[..n], failed)
      + if (r.status == FailedRun) == failed then [Head(Make(seed, "res", n), r.id, r.tool, r.status)] else []
  }

  predicate Filed(seed: string, st: State) {
    && Heads(st.completed) == FiledHeads(seed, st.executed, false)
    && Heads(st.failed) == FiledHeads(seed, st.executed, true)
    && st.experimentsUsed == |st.executed|
  }

  lemma FiledHeadsAppend(seed: string, executed: seq<Request>, r: Request, failed: bool)
    ensures FiledHeads(seed, executed + [r], failed)
         == FiledHeads(seed, executed, failed)
            + if (r.status == FailedRun) == failed then [Head(Make(seed, "res", |executed|), r.id, r.tool, r.status)]
              else []
  {
    assert (executed + [r])[..|executed|] == executed;
  }

  lemma {:induction false} FiledCounts(seed: string, executed: seq<Request>)
    ensures |FiledHeads(seed, executed, false)| + |FiledHeads(seed, executed, true)| == |executed|
  {
    if executed != [] {
      FiledCounts(seed, executed[..|executed| - 1]);
    }
  }

  lemma HeadsAppend(results: seq<Result>, r: Result)
    ensures Heads(results + [r]) == Heads(results) + [HeadOf(r)]
  {
  }

  // Evidence and results name each other

  /** Every evidence id a result lists, paired with that result's id, over the results in order. */
  function ProducedPairs(results: seq<Result>): seq<(string, string)> {
    if results == [] then []
    else
      var last := results[|results| - 1];
      ProducedPairs(results[..|results| - 1])
      + seq(|last.producedIds|, k requires 0 <= k < |last.producedIds| => (last.producedIds[k], last.id))
  }

  /** Every evidence item, paired with the result it names. */
  function SourcePairs(log: seq<Evidence>): (r: seq<(string, string)>)
    ensures |r| == |log| && forall k :: 0 <= k < |r| ==> r[k] == (log[k].id, log[k].resultId)
  {
    seq(|log|, k requires 0 <= k < |log| => (log[k].id, log[k].resultId))
  }

  predicate Attributed(st: State) {
    && ProducedPairs(st.completed) == SourcePairs(st.evidence)
    && forall k :: 0 <= k < |st.failed| ==> st.failed[k].producedIds == []
  }

  // Claims list exactly the evidence that bears on them

  predicate LinkedTo(c: Claim, log: seq<Evidence>) {
    && c.supportingIds == EvidenceIds(Bearing(log, c.id, Supports))
    && c.contradictingIds == EvidenceIds(Bearing(log, c.id, Refutes))
  }

  predicate AllLinked(st: State) {
    forall k :: 0 <= k < |st.claims| ==> LinkedTo(st.claims[k], st.evidence)
  }

  /** The ids an item of the log can have. */
  lemma {:induction false} BearingIdsInLog(log: seq<Evidence>, id: string, d: Direction, e: string)
    requires e in EvidenceIds(Bearing(log, id, d))
    ensures exists k :: 0 <= k < |log| && log[k].id == e
  {
    if log != [] {
      var n := |log| - 1;
      var rest := Bearing(log[..n], id, d);
      if e in EvidenceIds(rest) {
        BearingIdsInLog(log[..n], id, d, e);
        var k :| 0 <= k < n && log[..n][k].id == e;
        assert log[k].id == e;
      } else {
        assert EvidenceIds(Bearing(log, id, d)) == EvidenceIds(rest)
               || EvidenceIds(Bearing(log, id, d)) == EvidenceIds(rest) + [log[n].id];
        assert log[n].id == e;
      }
    }
  }

  /** A newly minted id is linked nowhere yet. */
  lemma NewIdUnlinked(seed: string, log: seq<Evidence>, id: string, d: Direction)
    requires EvidenceMinted(seed, log)
    ensures Make(seed, "evd", |log|) !in EvidenceIds(Bearing(log, id, d))
  {
    var e := Make(seed, "evd", |log|);
    if e in EvidenceIds(Bearing(log, id, d)) {
      BearingIdsInLog(log, id, d, e);
      var k :| 0 <= k < |log| && log[k].id == e;
      MakeInjective(seed, "evd", k, "evd", |log|);
    }
  }

  /** Linking a newly filed item to the one claim it names keeps that claim's lists equal to the filtered log. */
  lemma LinkOneLinks(seed: string, c: Claim, log: seq<Evidence>, e: Evidence)
    requires EvidenceMinted(seed, log) && LinkedTo(c, log)
    requires e.id == Make(seed, "evd", |log|)
    ensures LinkedTo(if c.id in e.hypothesisIds then LinkOne(c, e.direction, e.id) else c, log + [e])
  {
    NewIdUnlinked(seed, log, c.id, Supports);
    NewIdUnlinked(seed, log, c.id, Refutes);
    BearingAppend(log, e, c.id, Supports);
    BearingAppend(log, e, c.id, Refutes);
    EvidenceIdsAppend(Bearing(log, c.id, Supports), e);
    EvidenceIdsAppend(Bearing(log, c.id, Refutes), e);
  }

  /** An item that names at most one claim is linked to that claim and no other. */
  lemma LinkFirstIsOne(claims: seq<Claim>, e: Evidence)
    requires DistinctIds(claims) && |e.hypothesisIds| <= 1
    ensures forall k :: 0 <= k < |claims| ==>
      LinkFirst(claims, e, |e.hypothesisIds|)[k]
      == if claims[k].id in e.hypothesisIds then LinkOne(claims[k], e.direction, e.id) else claims[k]
  {
    if |e.hypothesisIds| == 1 {
      assert LinkFirst(claims, e, 0) == claims;
      var found := FindClaim(claims, e.hypothesisIds[0]);
      assert found.Some? ==>
        LinkFirst(claims, e, 1) == claims[found.value := LinkOne(claims[found.value], e.direction, e.id)];
    }
  }

  lemma AddEvidenceLinks(seed: string, st: State, e: Evidence)
    requires DistinctIds(st.claims) && AllLinked(st) && EvidenceMinted(seed, st.evidence)
    requires e.id == Make(seed, "evd", |st.evidence|) && |e.hypothesisIds| <= 1
    ensures AllLinked(AddEvidence(st, e)) && EvidenceMinted(seed, AddEvidence(st, e).evidence)
  {
    LinkFirstIsOne(st.claims, e);
    forall k | 0 <= k < |st.claims|
      ensures LinkedTo(AddEvidence(st, e).claims[k], st.evidence + [e])
    {
      LinkOneLinks(seed, st.claims[k], st.evidence, e);
    }
  }

  predicate SameButLinks(c: Claim, d: Claim) {
    && c.id == d.id && c.status == d.status && c.confidence == d.confidence
    && c.exclusiveWith == d.exclusiveWith && c.metricRefs == d.metricRefs
  }

  lemma UnlinkedKeepsIds(claims: seq<Claim>, r: seq<Claim>)
    requires |r| == |claims| && forall k :: 0 <= k < |claims| ==> Unlinked(r[k]) == Unlinked(claims[k])
    ensures forall k :: 0 <= k < |claims| ==> SameButLinks(r[k], claims[k])
    ensures DistinctIds(claims) ==> DistinctIds(r)
  {
    forall k | 0 <= k < |claims|
      ensures SameButLinks(r[k], claims[k])
    {
      assert Unlinked(r[k]).id == r[k].id && Unlinked(claims[k]).id == claims[k].id;
      assert Unlinked(r[k]).status == r[k].status && Unlinked(claims[k]).status == claims[k].status;
      assert Unlinked(r[k]).confidence == r[k].confidence && Unlinked(claims[k]).confidence == claims[k].confidence;
      assert Unlinked(r[k]).exclusiveWith == r[k].exclusiveWith
             && Unlinked(claims[k]).exclusiveWith == claims[k].exclusiveWith;
      assert Unlinked(r[k]).metricRefs == r[k].metricRefs && Unlinked(claims[k]).metricRefs == claims[k].metricRefs;
    }
  }

  /** The item the n-th step of the filing loop appends. */
  lemma FileFirstStep(seed: string, expects: string -> Option<int>, st: State,
                      pairs: seq<(RawEvidence, Option<string>)>, n: nat,
                      signal: int, resultId: string) returns (st1: State, e: Evidence)
    requires 0 < n <= |pairs|
    ensures st1 == FileFirst(seed, expects, st, pairs, n - 1, signal, resultId)
    ensures FileFirst(seed, expects, st, pairs, n, signal, resultId) == AddEvidence(st1, e)
    ensures e.id == Make(seed, "evd", |st1.evidence|) && e.resultId == resultId && |e.hypothesisIds| <= 1
    ensures forall id :: id in e.hypothesisIds ==> Some(id) == pairs[n - 1].1
  {
    st1 := FileFirst(seed, expects, st, pairs, n - 1, signal, resultId);
    e := EvidenceFrom(seed, |st1.evidence|, expects, st1.claims, pairs[n - 1], signal, resultId);
  }

  /** The filing loop mints ids by position and keeps the links closed. */
  lemma {:induction false} FileFirstTraces(seed: string, expects: string -> Option<int>, st: State,
                                           pairs: seq<(RawEvidence, Option<string>)>, n: nat, signal: int,
                                           resultId: string)
    requires n <= |pairs| && DistinctIds(st.claims) && AllLinked(st) && EvidenceMinted(seed, st.evidence)
    ensures AllLinked(FileFirst(seed, expects, st, pairs, n, signal, resultId))
    ensures EvidenceMinted(seed, FileFirst(seed, expects, st, pairs, n, signal, resultId).evidence)
  {
    hide EvidenceFrom, AddEvidence, AllLinked, EvidenceMinted;
    if n > 0 {
      FileFirstTraces(seed, expects, st, pairs, n - 1, signal, resultId);
      FileFirstKeeps(seed, expects, st, pairs, n - 1, signal, resultId);
      var st1, e := FileFirstStep(seed, expects, st, pairs, n, signal, resultId);
      UnlinkedKeepsIds(st.claims, st1.claims);
      AddEvidenceLinks(seed, st1, e);
    }
  }

  /** What every newly filed item says: the result it came from, and only targets of the experiment. */
  predicate FiledFrom(e: Evidence, resultId: string, targets: seq<string>) {
    e.resultId == resultId && forall id :: id in e.hypothesisIds ==> id in targets
  }

  lemma {:induction false} FileFirstNames(seed: string, expects: string -> Option<int>, st: State,
                                          pairs: seq<(RawEvidence, Option<string>)>, n: nat, signal: int,
                                          resultId: string, targets: seq<string>)
    requires n <= |pairs|
    requires forall k :: 0 <= k < |pairs| && pairs[k].1.Some? ==> pairs[k].1.value in targets
    ensures var r := FileFirst(seed, expects, st, pairs, n, signal, resultId);
            forall k :: |st.evidence| <= k < |r.evidence| ==> FiledFrom(r.evidence[k], resultId, targets)
  {
    hide FileFirst;
    if n > 0 {
      FileFirstNames(seed, expects, st, pairs, n - 1, signal, resultId, targets);
      var st1, e := FileFirstStep(seed, expects, st, pairs, n, signal, resultId);
      var r := AddEvidence(st1, e);
      assert FiledFrom(e, resultId, targets);
      assert forall k :: 0 <= k < |st1.evidence| ==> r.evidence[k] == st1.evidence[k];
    }
  }

  /** Listing on the last result the items it has just produced closes both ends of the link. */
  lemma SetProducedAttributes(st: State, more: seq<Evidence>)
    requires Attributed(st) && st.completed != [] && st.completed[|st.completed| - 1].producedIds == []
    requires forall k :: 0 <= k < |more| ==> more[k].resultId == st.completed[|st.completed| - 1].id
    ensures ProducedPairs(SetProduced(st.completed, EvidenceIds(more))) == SourcePairs(st.evidence + more)
  {
    var n := |st.completed| - 1;
    var done := SetProduced(st.completed, EvidenceIds(more));
    assert done[..n] == st.completed[..n];
    assert ProducedPairs(st.completed) == ProducedPairs(st.completed[..n]);
    var last := done[n];
    assert ProducedPairs(done) == SourcePairs(st.evidence) + SourcePairs(more);
  }

  // Logs stay minted

  lemma LogDecisionMints(seed: string, st: State, kind: string, targets: seq<string>)
    requires LogsMinted(seed, st)
    ensures LogsMinted(seed, LogDecision(st, seed, kind, targets))
  {
  }

  lemma AddQuestionMints(seed: string, st: State, kind: string, about: seq<string>)
    requires LogsMinted(seed, st)
    ensures LogsMinted(seed, AddQuestion(st, seed, kind, about))
  {
  }

  lemma AddCritiqueMints(seed: string, st: State, c: Critique)
    requires LogsMinted(seed, st) && c.id == Make(seed, "crit", |st.critiques|)
    ensures LogsMinted(seed, AddCritique(st, c))
  {
  }

  lemma ScoreMints(seed: string, st: State, target: string)
    requires LogsMinted(seed, st) && ScoreClaim(seed, st, target).Ok?
    ensures LogsMinted(seed, ScoreClaim(seed, st, target).value)
  {
    var found := FindClaim(st.claims, target);
    if found.Some? && !IsTerminal(st.claims[found.value].status) {
      var c := st.claims[found.value];
      var st0 := st.(claims := st.claims[found.value := Rescore(c, st.evidence).value]);
      LogDecisionMints(seed, st0, "dec-rev", [c.id]);
      AddQuestionMints(seed, LogDecision(st0, seed, "dec-rev", [c.id]), "q-follow", [c.id]);
    }
  }

  lemma {:induction false} ScoreFirstMints(seed: string, st: State, targets: seq<string>, n: nat)
    requires n <= |targets| && LogsMinted(seed, st) && ScoreFirst(seed, st, targets, n).Ok?
    ensures LogsMinted(seed, ScoreFirst(seed, st, targets, n).value)
  {
    hide ScoreClaim, LogsMinted;
    if n > 0 {
      ScoreFirstMints(seed, st, targets, n - 1);
      ScoreMints(seed, ScoreFirst(seed, st, targets, n - 1).value, targets[n - 1]);
    }
  }

  lemma WeakenSideMints(seed: string, st: State, k: nat, other: nat)
    requires k < |st.claims| && other < |st.claims| && LogsMinted(seed, st) && WeakenSide(seed, st, k, other).Ok?
    ensures LogsMinted(seed, WeakenSide(seed, st, k, other).value)
  {
    var r := WeakenSide(seed, st, k, other).value;
    LogDecisionMints(seed, st.(claims := r.claims), "dec-contra", [st.claims[k].id, st.claims[other].id]);
  }

  lemma RecordConflictMints(seed: string, st: State, k: nat, other: nat, suggested: Option<string>)
    requires k < |st.claims| && other < |st.claims| && LogsMinted(seed, st)
    requires RecordConflict(seed, st, k, other, suggested).Ok?
    ensures LogsMinted(seed, RecordConflict(seed, st, k, other, suggested).value)
  {
    var a, b := st.claims[k].id, st.claims[other].id;
    var c := Critique(Make(seed, "crit", |st.critiques|), true, a, Some(b), suggested, false);
    AddCritiqueMints(seed, st, c);
    WeakenSideMints(seed, AddCritique(st, c), k, other);
    var st2 := WeakenSide(seed, AddCritique(st, c), k, other).value;
    WeakenSideMints(seed, st2, other, k);
    AddQuestionMints(seed, WeakenSide(seed, st2, other, k).value, "q-contra", [a, b]);
  }

  lemma SweepRivalMints(seed: string, w: Sweep, k: nat, rival: string)
    requires k < |w.state.claims| && LogsMinted(seed, w.state) && SweepRival(seed, w, k, rival).Ok?
    ensures LogsMinted(seed, SweepRival(seed, w, k, rival).value.state)
  {
    var found := FindClaim(w.state.claims, rival);
    if found.Some? && RecordConflict(seed, w.state, k, found.value, None).Ok? {
      RecordConflictMints(seed, w.state, k, found.value, None);
    }
  }

  lemma {:induction false} SweepRivalsMints(seed: string, w: Sweep, k: nat, rivals: seq<string>, n: nat)
    requires k < |w.state.claims| && n <= |rivals| && LogsMinted(seed, w.state)
    requires SweepRivals(seed, w, k, rivals, n).Ok?
    ensures LogsMinted(seed, SweepRivals(seed, w, k, rivals, n).value.state)
  {
    hide SweepRival, LogsMinted;
    if n > 0 {
      SweepRivalsMints(seed, w, k, rivals, n - 1);
      SweepRivalMints(seed, SweepRivals(seed, w, k, rivals, n - 1).value, k, rivals[n - 1]);
    }
  }

  lemma {:induction false} SweepClaimsMints(seed: string, st: State, n: nat)
    requires n <= |st.claims| && LogsMinted(seed, st) && SweepClaims(seed, st, n).Ok?
    ensures LogsMinted(seed, SweepClaims(seed, st, n).value.state)
  {
    hide LogsMinted, SweepRivals;
    if n > 0 {
      SweepClaimsMints(seed, st, n - 1);
      var w := SweepClaims(seed, st, n - 1).value;
      if w.state.claims[n - 1].status == Supported {
        SweepRivalsMints(seed, w, n - 1, w.state.claims[n - 1].exclusiveWith, |w.state.claims[n - 1].exclusiveWith|);
      }
    }
  }

  lemma EnforceMints(seed: string, st: State)
    requires LogsMinted(seed, st) && Enforce(seed, st).Ok?
    ensures LogsMinted(seed, Enforce(seed, st).value)
  {
    SweepClaimsMints(seed, st, |st.claims|);
  }

  // The closed trace, read from either end

  /** A result's id occurs once among all filed results. */
  lemma {:induction false} FiledIdsBounded(seed: string, executed: seq<Request>, failed: bool, k: nat)
    requires k < |FiledHeads(seed, executed, failed)|
    ensures exists n :: 0 <= n < |executed| && FiledHeads(seed, executed, failed)[k].id == Make(seed, "res", n)
                        && (executed[n].status == FailedRun) == failed
  {
    var n := |executed| - 1;
    var rest := FiledHeads(seed, executed[..n], failed);
    if k < |rest| {
      FiledIdsBounded(seed, executed[..n], failed, k);
      var m :| 0 <= m < n && rest[k].id == Make(seed, "res", m) && (executed[..n][m].status == FailedRun) == failed;
      assert executed[m].status == executed[..n][m].status;
    }
  }

  lemma {:induction false} FiledIdsDistinct(seed: string, executed: seq<Request>, failed: bool)
    ensures forall i, j :: 0 <= i < j < |FiledHeads(seed, executed, failed)| ==>
      FiledHeads(seed, executed, failed)[i].id != FiledHeads(seed, executed, failed)[j].id
  {
    if executed != [] {
      var n := |executed| - 1;
      var rest, all := FiledHeads(seed, executed[..n], failed), FiledHeads(seed, executed, failed);
      FiledIdsDistinct(seed, executed[..n], failed);
      forall i, j | 0 <= i < j < |all|
        ensures all[i].id != all[j].id
      {
        assert all[i] == rest[i];
        if j == |rest| {
          FiledIdsBounded(seed, executed[..n], failed, i);
          var m :| 0 <= m < n && rest[i].id == Make(seed, "res", m);
          if Make(seed, "res", m) == Make(seed, "res", n) {
            MakeInjective(seed, "res", m, "res", n);
          }
        } else {
          assert all[j] == rest[j];
        }
      }
    }
  }

  /** No completed result shares its id with another completed or a failed one. */
  lemma ResultIdsNeverRepeat(seed: string, st: State)
    requires Filed(seed, st)
    ensures forall i, j :: 0 <= i < j < |st.completed| ==> st.completed[i].id != st.completed[j].id
    ensures forall i, j :: 0 <= i < j < |st.failed| ==> st.failed[i].id != st.failed[j].id
    ensures forall i, j :: 0 <= i < |st.completed| && 0 <= j < |st.failed| ==> st.completed[i].id != st.failed[j].id
  {
    FiledIdsDistinct(seed, st.executed, false);
    FiledIdsDistinct(seed, st.executed, true);
    var done, lost := FiledHeads(seed, st.executed, false), FiledHeads(seed, st.executed, true);
    assert forall i :: 0 <= i < |st.completed| ==> done[i] == HeadOf(st.completed[i]);
    assert forall i :: 0 <= i < |st.failed| ==> lost[i] == HeadOf(st.failed[i]);
    forall i, j | 0 <= i < |st.completed| && 0 <= j < |st.failed|
      ensures st.completed[i].id != st.failed[j].id
    {
      FiledIdsBounded(seed, st.executed, false, i);
      FiledIdsBounded(seed, st.executed, true, j);
      var m :| 0 <= m < |st.executed| && done[i].id == Make(seed, "res", m) && st.executed[m].status != FailedRun;
      var n :| 0 <= n < |st.executed| && lost[j].id == Make(seed, "res", n) && st.executed[n].status == FailedRun;
      if Make(seed, "res", m) == Make(seed, "res", n) {
        MakeInjective(seed, "res", m, "res", n);
      }
    }
  }

  /** A pair of the flattened list comes from one of the results. */
  lemma {:induction false} ProducedBySome(results: seq<Result>, k: nat)
    requires k < |ProducedPairs(results)|
    ensures exists i :: 0 <= i < |results| && results[i].id == ProducedPairs(results)[k].1
                        && ProducedPairs(results)[k].0 in results[i].producedIds
  {
    var n := |results| - 1;
    var rest := ProducedPairs(results[..n]);
    if k < |rest| {
      ProducedBySome(results[..n], k);
      var i :| 0 <= i < n && results[..n][i].id == rest[k].1 && rest[k].0 in results[..n][i].producedIds;
      assert results[i] == results[..n][i];
    } else {
      assert ProducedPairs(results)[k] == (results[n].producedIds[k - |rest|], results[n].id);
    }
  }

  /** What a result lists occurs in the flattened list, under the result's id. */
  lemma {:induction false} ListedIsProduced(results: seq<Result>, i: nat, id: string)
    requires i < |results| && id in results[i].producedIds
    ensures (id, results[i].id) in ProducedPairs(results)
  {
    var n := |results| - 1;
    var rest := ProducedPairs(results[..n]);
    if i < n {
      ListedIsProduced(results[..n], i, id);
      var k :| 0 <= k < |rest| && rest[k] == (id, results[i].id);
      assert ProducedPairs(results)[k] == rest[k];
    } else {
      var k :| 0 <= k < |results[n].producedIds| && results[n].producedIds[k] == id;
      assert ProducedPairs(results)[|rest| + k] == (id, results[n].id);
    }
  }

  /**
   Each evidence item has the one completed result it names: no other result has that name, no other result lists the
   item, and no other item has its id. Failed results list nothing.
   */
  lemma EvidenceHasItsResult(seed: string, st: State, k: nat) returns (i: nat)
    requires Filed(seed, st) && Attributed(st) && EvidenceMinted(seed, st.evidence) && k < |st.evidence|
    ensures i < |st.completed| && st.completed[i].id == st.evidence[k].resultId
    ensures forall j :: 0 <= j < |st.completed| ==>
      (st.evidence[k].id in st.completed[j].producedIds <==> j == i)
      && (st.completed[j].id == st.evidence[k].resultId <==> j == i)
    ensures forall j :: 0 <= j < |st.failed| ==>
      st.failed[j].producedIds == [] && st.failed[j].id != st.evidence[k].resultId
    ensures forall j :: 0 <= j < |st.evidence| && st.evidence[j].id == st.evidence[k].id ==> j == k
  {
    var id := st.evidence[k].id;
    assert SourcePairs(st.evidence)[k] == (id, st.evidence[k].resultId);
    ProducedBySome(st.completed, k);
    ResultIdsNeverRepeat(seed, st);
    MintedEvidenceDistinct(seed, st.evidence);
    i :| 0 <= i < |st.completed| && st.completed[i].id == st.evidence[k].resultId && id in st.completed[i].producedIds;
    forall j | 0 <= j < |st.completed| && id in st.completed[j].producedIds
      ensures j == i
    {
      ListedIsProduced(st.completed, j, id);
      var m :| 0 <= m < |st.evidence| && SourcePairs(st.evidence)[m] == (id, st.completed[j].id);
      assert st.evidence[m].id == id;
    }
  }
}
