/**
 After every folded experiment no two claims posed as alternatives are both supported, and recording the conflict
 keeps every claim explained without an illegal move.
 */
module RivalSafety {
  import opened Outcomes
  import opened Enums
  import opened Ids
  import opened Domain
  import opened Mutators
  import opened Rivals
  import opened Explanation

  /** Neither of two claims posed as alternatives stands beside the other. */
  predicate RivalsApart(claims: seq<Claim>) {
    forall i, j :: 0 <= i < |claims| && 0 <= j < |claims| && claims[j].id in claims[i].exclusiveWith ==>
      claims[i].status != Supported || claims[j].status != Supported
  }

  /**
   A claim a conflict can be recorded over: nothing refutes it, and it is supported or already weakened by a
   conflict.
   */
  predicate Contestable(c: Claim, log: seq<Evidence>) {
    (c.status == Supported || c.status == Weakened) && Bearing(log, c.id, Refutes) == []
  }

  /** Only verdicts change, critiques are only added, and a claim that changes goes from contestable to weakened. */
  predicate OnlyConflicts(st: State, r: State) {
    && r.(claims := st.claims, decisions := st.decisions, questions := st.questions, critiques := st.critiques) == st
    && |r.claims| == |st.claims|
    && st.critiques <= r.critiques
    && forall k :: 0 <= k < |st.claims| ==>
         Identity(r.claims[k]) == Identity(st.claims[k])
         && (r.claims[k] == st.claims[k]
             || (Contestable(st.claims[k], st.evidence) && r.claims[k].status == Weakened))
  }

  lemma OnlyConflictsTransitive(st: State, mid: State, r: State)
    requires OnlyConflicts(st, mid) && OnlyConflicts(mid, r)
    ensures OnlyConflicts(st, r)
  {
    forall k | 0 <= k < |st.claims|
      ensures Identity(r.claims[k]) == Identity(st.claims[k])
      ensures r.claims[k] == st.claims[k] || (Contestable(st.claims[k], st.evidence) && r.claims[k].status == Weakened)
    {
      assert Identity(mid.claims[k]) == Identity(st.claims[k]);
      assert Identity(mid.claims[k]).id == mid.claims[k].id && Identity(st.claims[k]).id == st.claims[k].id;
    }
  }

  lemma OnlyConflictsKeepIds(st: State, r: State)
    requires OnlyConflicts(st, r)
    ensures forall k :: 0 <= k < |st.claims| ==>
      r.claims[k].id == st.claims[k].id && r.claims[k].exclusiveWith == st.claims[k].exclusiveWith
    ensures DistinctIds(st.claims) ==> DistinctIds(r.claims)
  {
    forall k | 0 <= k < |st.claims|
      ensures r.claims[k].id == st.claims[k].id && r.claims[k].exclusiveWith == st.claims[k].exclusiveWith
    {
      assert Identity(r.claims[k]).id == Identity(st.claims[k]).id;
      assert Identity(r.claims[k]).exclusiveWith == Identity(st.claims[k]).exclusiveWith;
    }
  }

  /** A further critique takes no explanation away. */
  lemma MoreCritiquesExplain(c: Claim, st: State, r: State)
    requires AwaitingClaim(c, st, {})
    requires r.evidence == st.evidence && r.executed == st.executed && st.critiques <= r.critiques
    ensures AwaitingClaim(c, r, {})
  {
    if Contradicted(st.critiques, c.id) {
      var k :| 0 <= k < |st.critiques| && st.critiques[k].isContradiction
               && (st.critiques[k].targetId == c.id || st.critiques[k].conflictsWith == Some(c.id));
      assert r.critiques[k] == st.critiques[k];
    }
  }

  /** A contestable claim that a conflict names may be weakened, to exactly the cap, and stays explained. */
  lemma WeakenedIsExplained(c: Claim, st: State)
    requires AwaitingClaim(c, st, {}) && Contestable(c, st.evidence) && Contradicted(st.critiques, c.id)
    ensures var d := c.(status := Weakened, confidence := 0.5);
            && CanMove(c.status, Weakened) && Min(c.confidence, CONTRADICTION_CONFIDENCE_CAP) == 0.5
            && AwaitingClaim(d, st, {}) && Contestable(d, st.evidence) && Identity(d) == Identity(c)
  {
    hide Bearing, Strongest, Tested, Mentioned, Contradicted;
    ExplainedBounds(c, st.evidence, st.critiques, st.executed);
  }

  /** An explanation looks at the log, the conflicts and the experiments, and at nothing else. */
  lemma ExplainedElsewhere(c: Claim, st: State, r: State)
    requires AwaitingClaim(c, st, {}) && r.evidence == st.evidence && r.critiques == st.critiques
    requires r.executed == st.executed
    ensures AwaitingClaim(c, r, {})
  {
    hide Explained, Scorable;
  }

  /** One side weakened: legal, capped at exactly the cap, and explained by the conflict. */
  lemma WeakenSideExplains(seed: string, st: State, k: nat, other: nat)
    requires k < |st.claims| && other < |st.claims| && DistinctIds(st.claims) && Awaiting(st, {})
    requires Contestable(st.claims[k], st.evidence) && Contradicted(st.critiques, st.claims[k].id)
    ensures var r := WeakenSide(seed, st, k, other);
            && r.Ok? && OnlyConflicts(st, r.value) && r.value.critiques == st.critiques
            && Awaiting(r.value, {}) && r.value.claims[k].status == Weakened
            && Contestable(r.value.claims[k], st.evidence)
            && (forall i :: 0 <= i < |st.claims| && i != k ==> r.value.claims[i] == st.claims[i])
  {
    hide AwaitingClaim, Contestable, Contradicted, Identity, CanMove, DistinctIds, Make;
    var c := st.claims[k];
    assert AwaitingClaim(c, st, {});
    WeakenedIsExplained(c, st);
    var r := WeakenSide(seed, st, k, other).value;
    assert r.claims == st.claims[k := c.(status := Weakened, confidence := 0.5)];
    forall i | 0 <= i < |r.claims|
      ensures AwaitingClaim(r.claims[i], r, {})
    {
      assert AwaitingClaim(st.claims[i], st, {});
      ExplainedElsewhere(r.claims[i], st, r);
    }
  }

  /** Recording a conflict over two contestable claims never raises and weakens both. */
  lemma RecordConflictExplains(seed: string, st: State, k: nat, other: nat, suggested: Option<string>)
    requires k < |st.claims| && other < |st.claims| && DistinctIds(st.claims) && Awaiting(st, {})
    requires Contestable(st.claims[k], st.evidence) && Contestable(st.claims[other], st.evidence)
    ensures var r := RecordConflict(seed, st, k, other, suggested);
            && r.Ok? && OnlyConflicts(st, r.value) && Awaiting(r.value, {})
            && r.value.claims[k].status == Weakened && r.value.claims[other].status == Weakened
            && Contestable(r.value.claims[k], st.evidence)
            && (forall i :: 0 <= i < |st.claims| && i != k && i != other ==> r.value.claims[i] == st.claims[i])
  {
    var c := Critique(Make(seed, "crit", |st.critiques|), true, st.claims[k].id, Some(st.claims[other].id), suggested,
                      false);
    var st1 := AddCritique(st, c);
    assert st1.critiques[|st.critiques|] == c;
    forall i | 0 <= i < |st1.claims|
      ensures AwaitingClaim(st1.claims[i], st1, {})
    {
      assert AwaitingClaim(st.claims[i], st, {});
      MoreCritiquesExplain(st.claims[i], st, st1);
    }
    WeakenSideExplains(seed, st1, k, other);
    var st2 := WeakenSide(seed, st1, k, other).value;
    OnlyConflictsKeepIds(st1, st2);
    WeakenSideExplains(seed, st2, other, k);
    var st3 := WeakenSide(seed, st2, other, k).value;
    OnlyConflictsTransitive(st1, st2, st3);
    var r := AddQuestion(st3, seed, "q-contra", [st.claims[k].id, st.claims[other].id]);
    assert RecordConflict(seed, st, k, other, suggested) == Ok(r);
    forall i | 0 <= i < |r.claims|
      ensures AwaitingClaim(r.claims[i], r, {})
    {
      assert AwaitingClaim(st3.claims[i], st3, {});
      MoreCritiquesExplain(st3.claims[i], st3, r);
    }
  }

  /** Pairs already recorded have no supported side. */
  predicate SeenAreDown(claims: seq<Claim>, seen: set<set<string>>) {
    forall p :: p in seen ==> forall i :: 0 <= i < |claims| && claims[i].id in p ==> claims[i].status != Supported
  }

  predicate SweepOk(w: Sweep) {
    DistinctIds(w.state.claims) && Awaiting(w.state, {}) && SeenAreDown(w.state.claims, w.seen)
  }

  /** Two sides that do not both stand. */
  predicate Apart(claims: seq<Claim>, k: nat, id: string)
    requires k < |claims|
  {
    forall i :: 0 <= i < |claims| && claims[i].id == id ==>
      claims[k].status != Supported || claims[i].status != Supported
  }

  lemma StaysApart(st: State, r: State, k: nat, id: string)
    requires OnlyConflicts(st, r) && k < |st.claims| && Apart(st.claims, k, id)
    ensures Apart(r.claims, k, id)
  {
    OnlyConflictsKeepIds(st, r);
  }

  /** A supported claim is contestable: nothing refutes it. */
  lemma StandingIsContestable(c: Claim, st: State)
    requires AwaitingClaim(c, st, {}) && c.status == Supported
    ensures Contestable(c, st.evidence)
  {
    ExplainedBounds(c, st.evidence, st.critiques, st.executed);
  }

  /** Looking at one rival never raises, and afterwards the pair does not stand. */
  lemma SweepRivalSafe(seed: string, w: Sweep, k: nat, rival: string)
    requires k < |w.state.claims| && SweepOk(w) && Contestable(w.state.claims[k], w.state.evidence)
    ensures var r := SweepRival(seed, w, k, rival);
            && r.Ok? && SweepOk(r.value) && OnlyConflicts(w.state, r.value.state)
            && Contestable(r.value.state.claims[k], w.state.evidence)
            && Apart(r.value.state.claims, k, rival)
  {
    hide AwaitingClaim, Contestable, RecordConflict, FindClaim, Identity;
    var found := FindClaim(w.state.claims, rival);
    if found.None? || w.state.claims[found.value].status != Supported {
      assert OnlyConflicts(w.state, w.state);
    } else {
      var f := found.value;
      assert w.state.claims[k].id in {w.state.claims[k].id, w.state.claims[f].id};
      assert AwaitingClaim(w.state.claims[f], w.state, {});
      StandingIsContestable(w.state.claims[f], w.state);
      RecordConflictExplains(seed, w.state, k, f, None);
      var st := RecordConflict(seed, w.state, k, f, None).value;
      OnlyConflictsKeepIds(w.state, st);
      SeenStaysDown(w, st, k, f);
      assert OnlyConflicts(w.state, w.state);
    }
  }

  /** The inner loop never raises and leaves the claim apart from every rival it has looked at. */
  lemma {:induction false} SweepRivalsSafe(seed: string, w: Sweep, k: nat, rivals: seq<string>, n: nat)
    requires k < |w.state.claims| && n <= |rivals|
    requires SweepOk(w) && Contestable(w.state.claims[k], w.state.evidence)
    ensures var r := SweepRivals(seed, w, k, rivals, n);
            && r.Ok? && SweepOk(r.value) && OnlyConflicts(w.state, r.value.state)
            && Contestable(r.value.state.claims[k], w.state.evidence)
            && (forall i :: 0 <= i < n ==> Apart(r.value.state.claims, k, rivals[i]))
  {
    hide SweepRival, SweepOk, Contestable, Apart;
    if n > 0 {
      SweepRivalsSafe(seed, w, k, rivals, n - 1);
      var w1 := SweepRivals(seed, w, k, rivals, n - 1).value;
      SweepRivalSafe(seed, w1, k, rivals[n - 1]);
      var r := SweepRival(seed, w1, k, rivals[n - 1]).value;
      OnlyConflictsTransitive(w.state, w1.state, r.state);
      forall i | 0 <= i < n - 1
        ensures Apart(r.state.claims, k, rivals[i])
      {
        StaysApart(w1.state, r.state, k, rivals[i]);
      }
    }
  }

  lemma SeenStaysDown(w: Sweep, st2: State, k: nat, f: nat)
    requires SweepOk(w) && OnlyConflicts(w.state, st2)
    requires k < |w.state.claims| && f < |w.state.claims|
    requires st2.claims[k].status == Weakened && st2.claims[f].status == Weakened
    ensures SeenAreDown(st2.claims, w.seen + {{w.state.claims[k].id, w.state.claims[f].id}})
  {
    OnlyConflictsKeepIds(w.state, st2);
    var seen := w.seen + {{w.state.claims[k].id, w.state.claims[f].id}};
    forall p, i | p in seen && 0 <= i < |st2.claims| && st2.claims[i].id in p
      ensures st2.claims[i].status != Supported
    {
      if p !in w.seen {
        assert st2.claims[i].id == w.state.claims[k].id || st2.claims[i].id == w.state.claims[f].id;
        assert i == k || i == f;
      }
    }
  }

  /** The pairs whose first claim is among the first n. */
  predicate RivalsApartUpTo(claims: seq<Claim>, n: nat) {
    forall k :: 0 <= k < |claims| && k < n ==> forall id :: id in claims[k].exclusiveWith ==> Apart(claims, k, id)
  }

  lemma ApartStaysApart(st: State, r: State, n: nat)
    requires OnlyConflicts(st, r) && RivalsApartUpTo(st.claims, n)
    ensures RivalsApartUpTo(r.claims, n)
  {
    OnlyConflictsKeepIds(st, r);
    forall k, id | 0 <= k < |r.claims| && k < n && id in r.claims[k].exclusiveWith
      ensures Apart(r.claims, k, id)
    {
      StaysApart(st, r, k, id);
    }
  }

  /** The turn of one claim. */
  lemma SweepClaimSafe(seed: string, w: Sweep, k: nat)
    requires k < |w.state.claims| && SweepOk(w) && RivalsApartUpTo(w.state.claims, k)
    requires w.state.claims[k].status == Supported
    ensures var rivals := w.state.claims[k].exclusiveWith;
            var r := SweepRivals(seed, w, k, rivals, |rivals|);
            r.Ok? && SweepOk(r.value) && OnlyConflicts(w.state, r.value.state)
            && RivalsApartUpTo(r.value.state.claims, k + 1)
  {
    var rivals := w.state.claims[k].exclusiveWith;
    assert AwaitingClaim(w.state.claims[k], w.state, {});
    ExplainedBounds(w.state.claims[k], w.state.evidence, w.state.critiques, w.state.executed);
    SweepRivalsSafe(seed, w, k, rivals, |rivals|);
    var r := SweepRivals(seed, w, k, rivals, |rivals|).value.state;
    OnlyConflictsKeepIds(w.state, r);
    ApartStaysApart(w.state, r, k);
    forall i, id | 0 <= i < |r.claims| && i < k + 1 && id in r.claims[i].exclusiveWith
      ensures Apart(r.claims, i, id)
    {
      if i == k {
        var n :| 0 <= n < |rivals| && rivals[n] == id;
      }
    }
  }

  /** A claim that is not standing needs no turn. */
  lemma IdleTurn(claims: seq<Claim>, k: nat)
    requires k < |claims| && RivalsApartUpTo(claims, k) && claims[k].status != Supported
    ensures RivalsApartUpTo(claims, k + 1)
  {
    var rivals := claims[k].exclusiveWith;
    forall id | id in rivals
      ensures Apart(claims, k, id)
    {
    }
  }

  predicate Swept(st: State, w: Sweep, n: nat) {
    SweepOk(w) && OnlyConflicts(st, w.state) && RivalsApartUpTo(w.state.claims, n)
  }

  lemma {:induction false} SweepClaimsSafe(seed: string, st: State, n: nat)
    requires n <= |st.claims| && DistinctIds(st.claims) && Awaiting(st, {})
    ensures var r := SweepClaims(seed, st, n);
            r.Ok? && Swept(st, r.value, n)
  {
    hide SweepRivals, Swept, Awaiting, DistinctIds;
    if n == 0 {
      NothingSwept(st);
    } else {
      SweepClaimsSafe(seed, st, n - 1);
      SweepTurn(seed, st, n);
    }
  }

  lemma NothingSwept(st: State)
    requires DistinctIds(st.claims) && Awaiting(st, {})
    ensures Swept(st, Sweep(st, {}), 0)
  {
    hide AwaitingClaim;
  }

  lemma SweepTurn(seed: string, st: State, n: nat)
    requires 0 < n <= |st.claims|
    requires SweepClaims(seed, st, n - 1).Ok? && Swept(st, SweepClaims(seed, st, n - 1).value, n - 1)
    ensures var r := SweepClaims(seed, st, n);
            r.Ok? && Swept(st, r.value, n)
  {
    hide SweepOk, RivalsApartUpTo, SweepRivals;
    var w := SweepClaims(seed, st, n - 1).value;
    if w.state.claims[n - 1].status == Supported {
      SweepClaimSafe(seed, w, n - 1);
      OnlyConflictsTransitive(st, w.state, SweepClaims(seed, st, n).value.state);
    } else {
      IdleTurn(w.state.claims, n - 1);
    }
  }

  /** enforce_mutual_exclusivity: no illegal move, every claim still explained, no two rivals left standing. */
  lemma EnforceSafe(seed: string, st: State)
    requires DistinctIds(st.claims) && Awaiting(st, {})
    ensures var r := Enforce(seed, st);
            r.Ok? && OnlyConflicts(st, r.value) && Awaiting(r.value, {}) && RivalsApart(r.value.claims)
  {
    SweepClaimsSafe(seed, st, |st.claims|);
    var r := Enforce(seed, st).value;
    forall i, j | 0 <= i < |r.claims| && 0 <= j < |r.claims| && r.claims[j].id in r.claims[i].exclusiveWith
      ensures r.claims[i].status != Supported || r.claims[j].status != Supported
    {
      assert Apart(r.claims, i, r.claims[j].id);
    }
  }

  /** Weakening claims brings no two rivals together. */
  lemma ConflictsKeepRivalsApart(st: State, r: State)
    requires OnlyConflicts(st, r) && RivalsApart(st.claims)
    ensures RivalsApart(r.claims)
  {
    OnlyConflictsKeepIds(st, r);
    forall i, j | 0 <= i < |r.claims| && 0 <= j < |r.claims| && r.claims[j].id in r.claims[i].exclusiveWith
      ensures r.claims[i].status != Supported || r.claims[j].status != Supported
    {
      assert st.claims[j].id in st.claims[i].exclusiveWith;
    }
  }
}
