/**
 Every claim's status is explained by the evidence log. Rescoring keeps a running verdict; the theorem says that this
 verdict is the one the log alone gives, up to the two things that are remembered: rejection and a recorded conflict.
 */
module Explanation {
  import opened Outcomes
  import opened Enums
  import opened Domain
  import opened Scoring

  /** A contradiction names the claim on one of its sides. */
  predicate Contradicted(critiques: seq<Critique>, id: string) {
    exists k :: 0 <= k < |critiques| && critiques[k].isContradiction
                && (critiques[k].targetId == id || critiques[k].conflictsWith == Some(id))
  }

  /** An experiment that did not fail was raised to test the claim. */
  predicate Tested(executed: seq<Request>, id: string) {
    exists k :: 0 <= k < |executed| && executed[k].status != FailedRun && id in executed[k].targets
  }

  predicate DistinctIds(claims: seq<Claim>) {
    forall i, j :: 0 <= i < j < |claims| ==> claims[i].id != claims[j].id
  }

  /** A claim's status and confidence, explained by the log, the recorded conflicts and the experiments run. */
  predicate Explained(c: Claim, log: seq<Evidence>, critiques: seq<Critique>, executed: seq<Request>) {
    && (c.status == Proposed <==> !Tested(executed, c.id))
    && match c.status
       case Proposed => c.confidence == 0.5 && !Mentioned(log, c.id)
       case Rejected => BestRefutation(log, c.id) >= SUPPORT_THRESHOLD && 0.05 <= c.confidence <= 0.15
       case Weakened =>
         if Bearing(log, c.id, Refutes) == []
         then Contradicted(critiques, c.id) && BestSupport(log, c.id) >= SUPPORT_THRESHOLD && c.confidence == 0.5
         else (c.status, c.confidence) == Verdict(log, c.id)
       case _ => (c.status, c.confidence) == Verdict(log, c.id)
  }

  /** What is left of the explanation while new evidence has been filed but the claim is not yet rescored. */
  predicate Scorable(c: Claim, log: seq<Evidence>, critiques: seq<Critique>) {
    match c.status
    case Proposed => c.confidence == 0.5
    case Active => Bearing(log, c.id, Supports) == [] && Bearing(log, c.id, Refutes) == [] ==> c.confidence == 0.5
    case Supported => BestSupport(log, c.id) >= SUPPORT_THRESHOLD
    case Rejected => BestRefutation(log, c.id) >= SUPPORT_THRESHOLD && 0.05 <= c.confidence <= 0.15
    case Weakened => Bearing(log, c.id, Refutes) == [] ==> BestSupport(log, c.id) >= SUPPORT_THRESHOLD
    case Unresolved => false
  }

  // One claim

  /** Rescoring a claim whose past is explained never raises, and gives the verdict of the log. */
  lemma RescoreGivesVerdict(c: Claim, log: seq<Evidence>, critiques: seq<Critique>)
    requires Scorable(c, log, critiques) && c.status != Rejected
    ensures var r := Rescore(c, log);
            && r.Ok? && Identity(r.value) == Identity(c)
            && (r.value.status, r.value.confidence) == Verdict(log, c.id)
            && (r.value.status == Rejected ==>
                 BestRefutation(log, c.id) >= SUPPORT_THRESHOLD && 0.05 <= r.value.confidence <= 0.15)
  {
  }

  /** What the statuses of an explained claim mean, in numbers. */
  lemma ExplainedBounds(c: Claim, log: seq<Evidence>, critiques: seq<Critique>, executed: seq<Request>)
    requires Explained(c, log, critiques, executed)
    ensures 0.05 <= c.confidence <= 0.95
    ensures c.status == Supported ==>
      Bearing(log, c.id, Refutes) == [] && BestSupport(log, c.id) >= 0.5 && 0.8 <= c.confidence <= 0.95
    ensures c.status == Active ==> Bearing(log, c.id, Refutes) == [] && BestSupport(log, c.id) < 0.5
    ensures c.status == Rejected ==> BestRefutation(log, c.id) >= 0.5
    ensures c.status == Weakened ==> Bearing(log, c.id, Refutes) != [] || Contradicted(critiques, c.id)
    ensures c.status == Proposed <==> !Tested(executed, c.id)
  {
  }

  /** A log that grows keeps what it said: bearing items stay, and strengths only rise. */
  lemma {:induction false} BearingGrows(log: seq<Evidence>, more: seq<Evidence>, id: string, d: Direction)
    ensures Bearing(log, id, d) <= Bearing(log + more, id, d)
    ensures Strongest(Bearing(log, id, d)) <= Strongest(Bearing(log + more, id, d))
    decreases |more|
  {
    if more == [] {
      assert log + more == log;
    } else {
      var n := |more| - 1;
      BearingGrows(log, more[..n], id, d);
      assert log + more == (log + more[..n]) + [more[n]];
      BearingAppend(log + more[..n], more[n], id, d);
      StrongestAppend(Bearing(log + more[..n], id, d), more[n]);
      var items := Bearing(log + more[..n], id, d);
      assert Bearing(log + more, id, d) == items || Bearing(log + more, id, d) == items + [more[n]];
    }
  }

  /** Items that do not name a claim leave everything the log says about it alone. */
  lemma {:induction false} BearingUnmoved(log: seq<Evidence>, more: seq<Evidence>, id: string, d: Direction)
    requires !Mentioned(more, id)
    ensures Bearing(log + more, id, d) == Bearing(log, id, d)
    decreases |more|
  {
    if more == [] {
      assert log + more == log;
    } else {
      var n := |more| - 1;
      assert forall k :: 0 <= k < n ==> more[..n][k] == more[k];
      BearingUnmoved(log, more[..n], id, d);
      assert log + more == (log + more[..n]) + [more[n]];
      BearingAppend(log + more[..n], more[n], id, d);
    }
  }

  /** New evidence leaves an explained claim scorable. */
  lemma ExplainedStaysScorable(c: Claim, log: seq<Evidence>, more: seq<Evidence>, critiques: seq<Critique>,
                               executed: seq<Request>)
    requires Explained(c, log, critiques, executed) && c.status != Unresolved
    ensures Scorable(c, log + more, critiques)
  {
    BearingGrows(log, more, c.id, Supports);
    BearingGrows(log, more, c.id, Refutes);
    if c.status == Active {
      var s := Bearing(log, c.id, Supports);
      assert Bearing(log, c.id, Refutes) == [];
    }
  }

  lemma MentionedAppend(log: seq<Evidence>, more: seq<Evidence>, id: string)
    ensures Mentioned(log + more, id) <==> Mentioned(log, id) || Mentioned(more, id)
  {
    assert forall k :: 0 <= k < |log| ==> (log + more)[k] == log[k];
    forall k | 0 <= k < |more|
      ensures (log + more)[|log| + k] == more[k]
    {
    }
    if Mentioned(more, id) {
      var k :| 0 <= k < |more| && id in more[k].hypothesisIds;
      assert id in (log + more)[|log| + k].hypothesisIds;
    }
  }

  /** Evidence and experiments that do not concern a claim leave its explanation standing. */
  lemma ExplainedUnmoved(c: Claim, log: seq<Evidence>, more: seq<Evidence>, critiques: seq<Critique>,
                         executed: seq<Request>, executed': seq<Request>)
    requires Explained(c, log, critiques, executed) && !Mentioned(more, c.id)
    requires Tested(executed, c.id) <==> Tested(executed', c.id)
    ensures Explained(c, log + more, critiques, executed')
  {
    BearingUnmoved(log, more, c.id, Supports);
    BearingUnmoved(log, more, c.id, Refutes);
    MentionedAppend(log, more, c.id);
  }

  // The state

  /** What one call of _score comes to: nothing, or one claim rescored. */
  lemma ScoreShape(seed: string, st: State, target: string)
    ensures var found, r := FindClaim(st.claims, target), ScoreClaim(seed, st, target);
            if found.None? || IsTerminal(st.claims[found.value].status) then r == Ok(st)
            else
              var c := Rescore(st.claims[found.value], st.evidence);
              if c.Raised? then r.Raised?
              else r.Ok? && r.value.(decisions := st.decisions, questions := st.questions)
                            == st.(claims := st.claims[found.value := c.value])
  {
  }

  /** A target not yet scored is scorable, any other claim is explained. */
  predicate AwaitingClaim(c: Claim, st: State, awaited: set<string>) {
    if c.id in awaited then Scorable(c, st.evidence, st.critiques) && Tested(st.executed, c.id)
    else Explained(c, st.evidence, st.critiques, st.executed) && c.status != Unresolved
  }

  predicate Awaiting(st: State, awaited: set<string>) {
    forall k :: 0 <= k < |st.claims| ==> AwaitingClaim(st.claims[k], st, awaited)
  }

  /** Everything but the claims' verdicts, the decisions and the questions is as before. */
  predicate OnlyVerdicts(st: State, r: State) {
    && r.(claims := st.claims, decisions := st.decisions, questions := st.questions) == st
    && |r.claims| == |st.claims|
    && forall k :: 0 <= k < |st.claims| ==>
         Identity(r.claims[k]) == Identity(st.claims[k])
         && (st.claims[k].status == Rejected ==> r.claims[k].status == Rejected)
  }

  lemma OnlyVerdictsKeepIds(st: State, r: State)
    requires OnlyVerdicts(st, r)
    ensures forall k :: 0 <= k < |st.claims| ==> r.claims[k].id == st.claims[k].id
    ensures DistinctIds(st.claims) ==> DistinctIds(r.claims)
  {
    forall k | 0 <= k < |st.claims|
      ensures r.claims[k].id == st.claims[k].id
    {
      assert Identity(r.claims[k]).id == Identity(st.claims[k]).id;
    }
  }

  lemma OnlyVerdictsTransitive(st: State, mid: State, r: State)
    requires OnlyVerdicts(st, mid) && OnlyVerdicts(mid, r)
    ensures OnlyVerdicts(st, r)
  {
    forall k | 0 <= k < |st.claims|
      ensures Identity(r.claims[k]) == Identity(st.claims[k])
      ensures (st.claims[k].status == Rejected ==> r.claims[k].status == Rejected)
    {
      assert Identity(mid.claims[k]) == Identity(st.claims[k]);
    }
  }

  /** A claim at hand, rescored: it was scorable, so nothing is raised and the log explains it. */
  lemma RescoreExplains(c: Claim, st: State, awaited: set<string>)
    requires AwaitingClaim(c, st, awaited) && Tested(st.executed, c.id) && c.status != Rejected
    ensures var r := Rescore(c, st.evidence);
            && r.Ok? && Identity(r.value) == Identity(c)
            && Explained(r.value, st.evidence, st.critiques, st.executed) && r.value.status != Unresolved
  {
    if c.id !in awaited {
      assert st.evidence + [] == st.evidence;
      ExplainedStaysScorable(c, st.evidence, [], st.critiques, st.executed);
    }
    RescoreGivesVerdict(c, st.evidence, st.critiques);
    assert Identity(Rescore(c, st.evidence).value).id == Identity(c).id;
  }

  /** A rejected claim that was awaited is explained as it stands. */
  lemma RejectedStaysExplained(c: Claim, st: State, awaited: set<string>)
    requires AwaitingClaim(c, st, awaited) && c.status == Rejected
    ensures Explained(c, st.evidence, st.critiques, st.executed)
  {
  }

  /** A claim untouched by the step stays awaited or explained. */
  lemma AwaitingCarries(c: Claim, st: State, r: State, awaited: set<string>, target: string)
    requires AwaitingClaim(c, st, awaited) && c.id != target
    requires r.evidence == st.evidence && r.critiques == st.critiques && r.executed == st.executed
    ensures AwaitingClaim(c, r, awaited - {target})
  {
  }

  /** Scoring one target never raises, explains that claim, and leaves the others as they were. */
  lemma ScoreExplains(seed: string, st: State, target: string, awaited: set<string>)
    requires DistinctIds(st.claims) && Awaiting(st, awaited)
    requires Tested(st.executed, target)
    ensures ScoreClaim(seed, st, target).Ok?
    ensures Awaiting(ScoreClaim(seed, st, target).value, awaited - {target})
    ensures OnlyVerdicts(st, ScoreClaim(seed, st, target).value)
  {
    ScoreShape(seed, st, target);
    var found, out := FindClaim(st.claims, target), ScoreClaim(seed, st, target);
    if found.Some? {
      var c := st.claims[found.value];
      assert AwaitingClaim(c, st, awaited);
      if c.status == Rejected {
        RejectedStaysExplained(c, st, awaited);
      } else {
        RescoreExplains(c, st, awaited);
        assert Identity(Rescore(c, st.evidence).value).id == c.id;
      }
    }
    var r := out.value;
    forall k | 0 <= k < |st.claims|
      ensures AwaitingClaim(r.claims[k], r, awaited - {target})
    {
      assert AwaitingClaim(st.claims[k], st, awaited);
      if st.claims[k].id != target {
        AwaitingCarries(st.claims[k], st, r, awaited, target);
      }
    }
  }

  function Named(targets: seq<string>, n: nat): set<string>
    requires n <= |targets|
  {
    set k | 0 <= k < n :: targets[k]
  }

  /** HypothesisUpdater.update never raises and leaves every claim explained. */
  lemma {:induction false} ScoreFirstExplains(seed: string, st: State, targets: seq<string>, n: nat,
                                              awaited: set<string>)
    requires n <= |targets|
    requires DistinctIds(st.claims) && Awaiting(st, awaited)
    requires forall t :: t in targets ==> Tested(st.executed, t)
    ensures ScoreFirst(seed, st, targets, n).Ok?
    ensures Awaiting(ScoreFirst(seed, st, targets, n).value, awaited - Named(targets, n))
    ensures OnlyVerdicts(st, ScoreFirst(seed, st, targets, n).value)
  {
    hide ScoreClaim, AwaitingClaim, Tested, Identity;
    if n == 0 {
      assert awaited - Named(targets, 0) == awaited;
    } else {
      ScoreFirstExplains(seed, st, targets, n - 1, awaited);
      var st1 := ScoreFirst(seed, st, targets, n - 1).value;
      OnlyVerdictsKeepIds(st, st1);
      ScoreExplains(seed, st1, targets[n - 1], awaited - Named(targets, n - 1));
      OnlyVerdictsTransitive(st, st1, ScoreClaim(seed, st1, targets[n - 1]).value);
      assert awaited - Named(targets, n - 1) - {targets[n - 1]} == awaited - Named(targets, n);
    }
  }
}
