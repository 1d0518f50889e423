/**
 What a finished experiment leaves in the state: the result as filed, an item of evidence for every item and claim, and
 a decision for every claim rescored.
 */
module Findings {
  import opened Outcomes
  import opened Enums
  import opened Ids
  import opened Domain
  import opened Environment
  import opened Mutators
  import opened Scoring
  import opened Filing
  import opened Lifecycles
  import opened Weighing

  // The result

  /** The result of a record: under a fresh id, for its request, with observations under fresh ids and its artifacts. */
  predicate Filed(seed: string, n: nat, req: Request, rec: Record, res: Result) {
    && res.id == Make(seed, "res", n) && res.requestId == req.id && res.tool == req.tool && res.status == rec.status
    && res.producedIds == [] && res.artifactIds == rec.artifactIds && res.reproducibilityId == Make(seed, "repro", n)
    && |res.observations| == |rec.observations|
    && forall k :: 0 <= k < |res.observations| ==>
         && res.observations[k].id == Make(seed, "obs-" + Decimal(n), k)
         && res.observations[k].resultId == res.id && res.observations[k].content == rec.observations[k].content
  }

  /** The requests that are answered, and those that are not. */
  predicate Parted(pending: seq<Request>, id: string, answered: seq<Request>, rest: seq<Request>) {
    && multiset(pending) == multiset(answered) + multiset(rest)
    && (forall r :: r in answered ==> r.id == id) && (forall r :: r in rest ==> r.id != id)
  }

  lemma OneMore<T>(front: seq<T>, last: T)
    ensures multiset(front + [last]) == multiset(front) + multiset{last}
  {
  }

  lemma {:induction false} AnsweringParts(pending: seq<Request>, id: string)
    ensures Parted(pending, id, Answered(pending, id), Unanswered(pending, id))
  {
    if pending != [] {
      var n := |pending| - 1;
      var front, last := pending[..n], pending[n];
      AnsweringParts(front, id);
      OneMorePart(front, last, id, Answered(front, id), Unanswered(front, id));
      assert pending == front + [last];
      assert Answered(front, id) + [] == Answered(front, id) && Unanswered(front, id) + [] == Unanswered(front, id);
    }
  }

  lemma OneMorePart(front: seq<Request>, last: Request, id: string, answered: seq<Request>, rest: seq<Request>)
    requires Parted(front, id, answered, rest)
    ensures last.id == id ==> Parted(front + [last], id, answered + [last], rest)
    ensures last.id != id ==> Parted(front + [last], id, answered, rest + [last])
  {
    OneMore(front, last);
    OneMore(answered, last);
    OneMore(rest, last);
  }

  /**
   Filing a record: one result more, completed or failed as its status says; its request, stamped with that status,
   moves from the pending to the executed; its observations are logged and the experiment is counted.
   */
  lemma RecordMeans(seed: string, st: State, req: Request, rec: Record) returns (res: Result, answered: seq<Request>)
    requires RecordResult(seed, st, req, rec).Ok?
    ensures Filed(seed, |st.completed| + |st.failed|, req, rec, res)
    ensures var r := RecordResult(seed, st, req, rec).value;
            && Parted(StampStatus(st.pending, req.id, rec.status), req.id, answered, r.pending)
            && r.executed == st.executed + answered
            && r.completed == (if rec.status == FailedRun then st.completed else st.completed + [res])
            && r.failed == (if rec.status == FailedRun then st.failed + [res] else st.failed)
            && r.observations == st.observations + res.observations && r.experimentsUsed == st.experimentsUsed + 1
            && r.(pending := st.pending, executed := st.executed, completed := st.completed, failed := st.failed,
                  observations := st.observations, experimentsUsed := st.experimentsUsed) == st
  {
    hide Make, Decimal;
    var ordinal := |st.completed| + |st.failed|;
    res := ResultOf(seed, ordinal, req, rec).value;
    var stamped := StampStatus(st.pending, req.id, rec.status);
    answered := Answered(stamped, req.id);
    AnsweringParts(stamped, req.id);
  }

  // The evidence

  /** The item of evidence that one reported item becomes for one claim, or for none. */
  predicate Evidences(seed: string, k: nat, expects: string -> Option<int>, claims: seq<Claim>, item: RawEvidence,
                      target: Option<string>, signal: int, resultId: string, e: Evidence) {
    && e.id == Make(seed, "evd", k) && e.resultId == resultId && e.strength == item.strength
    && e.hypothesisIds == (if target.Some? && target.value != "" then [target.value] else [])
    && e.direction == DirectionFor(Expectation(expects, claims, target), item, signal)
  }

  /** The sign a claim expects, if it is there and expects one. */
  function Expectation(expects: string -> Option<int>, claims: seq<Claim>, target: Option<string>): Option<int> {
    if target.Some? && target.value != "" && LookUp(claims, target.value).Some?
    then expects(LookUp(claims, target.value).value.statement) else None
  }

  lemma SameStatements(claims: seq<Claim>, r: seq<Claim>, id: string)
    requires |r| == |claims| && forall k :: 0 <= k < |claims| ==> Unlinked(r[k]) == Unlinked(claims[k])
    ensures LookUp(r, id).Some? <==> LookUp(claims, id).Some?
    ensures LookUp(r, id).Some? ==> LookUp(r, id).value.statement == LookUp(claims, id).value.statement
  {
    forall k | 0 <= k < |claims|
      ensures r[k].id == claims[k].id && r[k].statement == claims[k].statement
    {
      assert Unlinked(r[k]).id == r[k].id && Unlinked(claims[k]).id == claims[k].id;
      assert Unlinked(r[k]).statement == r[k].statement && Unlinked(claims[k]).statement == claims[k].statement;
    }
    var a, b := FindClaim(claims, id), FindClaim(r, id);
    assert a == b;
  }

  lemma PairBecomesEvidence(seed: string, k: nat, expects: string -> Option<int>, claims: seq<Claim>, now: seq<Claim>,
                            pair: (RawEvidence, Option<string>), signal: int, resultId: string)
    requires |now| == |claims| && forall k :: 0 <= k < |claims| ==> Unlinked(now[k]) == Unlinked(claims[k])
    ensures Evidences(seed, k, expects, claims, pair.0, pair.1, signal, resultId,
                      EvidenceFrom(seed, k, expects, now, pair, signal, resultId))
  {
    hide DirectionFor, Make, LookUp;
    if Truthy(pair.1) {
      SameStatements(claims, now, pair.1.value);
    }
  }

  /** The k-th pair's item of evidence, where the log starts with the items that were there. */
  predicate PairFiled(seed: string, expects: string -> Option<int>, st: State, r: State,
                      pairs: seq<(RawEvidence, Option<string>)>, k: nat, signal: int, resultId: string)
    requires k < |pairs| && |st.evidence| + k < |r.evidence|
  {
    Evidences(seed, |st.evidence| + k, expects, st.claims, pairs[k].0, pairs[k].1, signal, resultId,
              r.evidence[|st.evidence| + k])
  }

  /** Each pair of an item and a claim becomes one item of evidence, in order. */
  lemma {:induction false} PairsBecomeEvidence(seed: string, expects: string -> Option<int>, st: State,
                                               pairs: seq<(RawEvidence, Option<string>)>, n: nat, signal: int,
                                               resultId: string)
    requires n <= |pairs|
    ensures var r := FileFirst(seed, expects, st, pairs, n, signal, resultId);
            && |r.evidence| == |st.evidence| + n && r.evidence[..|st.evidence|] == st.evidence
            && forall k :: 0 <= k < n ==> PairFiled(seed, expects, st, r, pairs, k, signal, resultId)
  {
    hide EvidenceFrom, Evidences, LinkFirst;
    if n > 0 {
      PairsBecomeEvidence(seed, expects, st, pairs, n - 1, signal, resultId);
      FileFirstKeeps(seed, expects, st, pairs, n - 1, signal, resultId);
      var st1 := FileFirst(seed, expects, st, pairs, n - 1, signal, resultId);
      PairBecomesEvidence(seed, |st1.evidence|, expects, st.claims, st1.claims, pairs[n - 1], signal, resultId);
      var r := FileFirst(seed, expects, st, pairs, n, signal, resultId);
      forall k | 0 <= k < n - 1
        ensures PairFiled(seed, expects, st, r, pairs, k, signal, resultId)
      {
        assert PairFiled(seed, expects, st, st1, pairs, k, signal, resultId);
      }
    }
  }

  /** The targets that name a claim, in the order and as often as they are given. */
  predicate Known(claims: seq<Claim>, targets: seq<string>, known: seq<string>, places: seq<nat>) {
    && |places| == |known|
    && (forall j :: 0 <= j < |places| ==>
          places[j] < |targets| && known[j] == targets[places[j]] && FindClaim(claims, known[j]).Some?)
    && (forall i, j :: 0 <= i < j < |places| ==> places[i] < places[j])
    && forall k :: 0 <= k < |targets| && FindClaim(claims, targets[k]).Some? ==> k in places
  }

  lemma OneMoreKnown(claims: seq<Claim>, targets: seq<string>, known: seq<string>, places: seq<nat>, last: string)
    requires Known(claims, targets, known, places)
    ensures if FindClaim(claims, last).Some? then Known(claims, targets + [last], known + [last], places + [|targets|])
            else Known(claims, targets + [last], known, places)
  {
    hide FindClaim;
  }

  lemma {:induction false} KnownMeans(claims: seq<Claim>, targets: seq<string>) returns (places: seq<nat>)
    ensures Known(claims, targets, KnownTargets(claims, targets), places)
  {
    hide FindClaim, Known;
    if targets == [] {
      places := [];
      assert Known(claims, [], [], []) by { NothingKnown(claims); }
    } else {
      var n := |targets| - 1;
      places := KnownMeans(claims, targets[..n]);
      OneMoreKnown(claims, targets[..n], KnownTargets(claims, targets[..n]), places, targets[n]);
      assert targets == targets[..n] + [targets[n]];
      if FindClaim(claims, targets[n]).Some? {
        places := places + [n];
      }
    }
  }

  lemma NothingKnown(claims: seq<Claim>)
    ensures Known(claims, [], [], [])
  {
  }

  /**
   The evidence step as a whole: the pairs become evidence, the result just filed lists exactly their ids, and a
   decision names the claims they were filed against, if there were any of both.
   */
  lemma EvidenceMeans(seed: string, expects: string -> Option<int>, st: State, req: Request, rec: Record)
    requires st.completed != []
    ensures var r, named := UpdateEvidence(seed, expects, st, req, rec), KnownTargets(st.claims, req.targets);
            var pairs, n, last := Pairings(rec.evidence, named), |st.evidence|, |st.completed| - 1;
            && |r.evidence| == n + |pairs| && r.evidence[..n] == st.evidence
            && (forall k :: 0 <= k < |pairs| ==>
                  PairFiled(seed, expects, st, r, pairs, k, SignalSign(rec), st.completed[last].id))
            && |r.completed| == |st.completed| && r.completed[..last] == st.completed[..last]
            && r.completed[last] == st.completed[last].(producedIds := EvidenceIds(r.evidence[n..]))
            && r.decisions == st.decisions + (if pairs != [] && named != []
                 then [Decision(Make(seed, "dec-evd", |st.decisions|), "dec-evd", named, st.iterationsUsed)] else [])
  {
    hide FileFirst, Pairings, KnownTargets, SignalSign, Make, Evidences;
    var named := KnownTargets(st.claims, req.targets);
    var pairs, resultId := Pairings(rec.evidence, named), st.completed[|st.completed| - 1].id;
    PairsBecomeEvidence(seed, expects, st, pairs, |pairs|, SignalSign(rec), resultId);
    FileFirstKeeps(seed, expects, st, pairs, |pairs|, SignalSign(rec), resultId);
    var r, st1 := UpdateEvidence(seed, expects, st, req, rec),
                  FileFirst(seed, expects, st, pairs, |pairs|, SignalSign(rec), resultId);
    assert r.evidence == st1.evidence;
    forall k | 0 <= k < |pairs|
      ensures PairFiled(seed, expects, st, r, pairs, k, SignalSign(rec), resultId)
    {
      assert PairFiled(seed, expects, st, st1, pairs, k, SignalSign(rec), resultId);
    }
  }

  // The claims

  predicate Backs(e: Evidence, id: string) {
    id in e.hypothesisIds && e.direction == Supports
  }

  /** A claim that stays undetermined though something supports it, too weakly to stand on. */
  predicate WeaklySupported(c: Claim, log: seq<Evidence>) {
    && c.status == Active
    && (exists k :: 0 <= k < |log| && Backs(log[k], c.id) && log[k].strength > 0.0)
    && (forall k :: 0 <= k < |log| && Backs(log[k], c.id) ==> log[k].strength < 0.5)
  }

  /** Rescoring logs one decision about the claim, and asks a question about it exactly when it is weakly supported. */
  lemma ScoreIsLogged(seed: string, st: State, target: string)
    requires ScoreClaim(seed, st, target).Ok?
    ensures var r, k := ScoreClaim(seed, st, target).value, FindClaim(st.claims, target);
            if k.None? || st.claims[k.value].status == Rejected then r == st
            else
              var c := r.claims[k.value];
              && c.id == target
              && r.decisions == st.decisions
                   + [Decision(Make(seed, "dec-rev", |st.decisions|), "dec-rev", [target], st.iterationsUsed)]
              && r.questions == st.questions + (if WeaklySupported(c, st.evidence)
                   then [OpenQuestion(Make(seed, "q-follow", |st.questions|), "q-follow", [target])] else [])
  {
    hide Make, Bearing, Strongest, Backs;
    var k := FindClaim(st.claims, target);
    if k.Some? {
      SupportWeighs(st.evidence, target);
      RescoreKeepsId(st.claims[k.value], st.evidence);
      OnlyRejectedIsTerminal(st.claims[k.value].status);
    }
  }

  lemma RescoreKeepsId(c: Claim, log: seq<Evidence>)
    ensures Rescore(c, log).Ok? ==> Rescore(c, log).value.id == c.id
  {
    hide Bearing, Strongest, CanMove;
  }

  lemma SupportWeighs(log: seq<Evidence>, id: string)
    ensures BestSupport(log, id) > 0.0 <==> exists k :: 0 <= k < |log| && Backs(log[k], id) && log[k].strength > 0.0
    ensures BestSupport(log, id) < 0.5 <==> forall k :: 0 <= k < |log| && Backs(log[k], id) ==> log[k].strength < 0.5
  {
    hide Bearing, Strongest;
    StrongestWeighs(log, id, Supports);
    assert Weighs(log, id, Supports, BestSupport(log, id));
    assert forall k :: 0 <= k < |log| && Backs(log[k], id) ==> log[k].strength <= BestSupport(log, id);
  }
}
