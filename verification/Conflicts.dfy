/**
 Whom enforcing mutual exclusivity touches: a claim is weakened only if it stood beside a rival that stood too, and
 every contradiction recorded names two such claims.
 */
module Conflicts {
  import opened Outcomes
  import opened Enums
  import opened Ids
  import opened Domain
  import opened Rivals

  /** Two supported claims, one of which is posed as the alternative of the other. */
  predicate StandingRivals(claims: seq<Claim>, i: nat, j: nat)
    requires i < |claims| && j < |claims|
  {
    && claims[i].status == Supported && claims[j].status == Supported
    && (claims[j].id in claims[i].exclusiveWith || claims[i].id in claims[j].exclusiveWith)
  }

  predicate HasStandingRival(claims: seq<Claim>, i: nat)
    requires i < |claims|
  {
    exists j :: 0 <= j < |claims| && StandingRivals(claims, i, j)
  }

  /** Weakened, and held to at most a half. */
  function Lowered(c: Claim): Claim {
    c.(status := Weakened, confidence := if c.confidence <= 0.5 then c.confidence else 0.5)
  }

  /** A claim is as it was, or it stood beside a standing rival and is lowered. */
  predicate OnlyRivalsLowered(claims: seq<Claim>, r: seq<Claim>) {
    && |r| == |claims|
    && forall k :: 0 <= k < |claims| ==>
         r[k] == claims[k] || (HasStandingRival(claims, k) && r[k] == Lowered(claims[k]))
  }

  /** A contradiction, still open and without a suggestion, that names two standing rivals. */
  predicate NamesRivals(claims: seq<Claim>, c: Critique) {
    c.isContradiction && !c.resolved && c.suggestedAction == None
    && exists i, j :: 0 <= i < |claims| && 0 <= j < |claims| && StandingRivals(claims, i, j)
                      && c.targetId == claims[i].id && c.conflictsWith == Some(claims[j].id)
  }

  predicate OnlyRivalsNamed(claims: seq<Claim>, before: seq<Critique>, after: seq<Critique>) {
    && before <= after
    && forall k :: |before| <= k < |after| ==> NamesRivals(claims, after[k])
  }

  predicate OnlyRivals(st: State, r: State) {
    OnlyRivalsLowered(st.claims, r.claims) && OnlyRivalsNamed(st.claims, st.critiques, r.critiques)
  }

  lemma RecordLowers(seed: string, st: State, k: nat, other: nat, suggested: Option<string>)
    requires k < |st.claims| && other < |st.claims| && RecordConflict(seed, st, k, other, suggested).Ok?
    ensures var r := RecordConflict(seed, st, k, other, suggested).value;
            && r.claims == st.claims[k := Lowered(st.claims[k])][other := Lowered(st.claims[other])]
            && r.critiques == st.critiques + [Critique(Make(seed, "crit", |st.critiques|), true, st.claims[k].id,
                                                       Some(st.claims[other].id), suggested, false)]
  {
    hide Make;
  }

  /** Lowering two claims that stood when the sweep began, one of which may have been lowered since. */
  lemma LoweredStays(claims: seq<Claim>, now: seq<Claim>, k: nat, other: nat)
    requires k < |claims| && other < |claims| && OnlyRivalsLowered(claims, now) && StandingRivals(claims, k, other)
    ensures OnlyRivalsLowered(claims, now[k := Lowered(now[k])][other := Lowered(now[other])])
  {
    assert StandingRivals(claims, other, k);
    assert HasStandingRival(claims, k) && HasStandingRival(claims, other);
  }

  lemma OneRivalSwept(seed: string, st: State, w: Sweep, k: nat, rival: string)
    requires OnlyRivals(st, w.state) && k < |st.claims| && SweepRival(seed, w, k, rival).Ok?
    requires st.claims[k].status == Supported && rival in st.claims[k].exclusiveWith
    ensures OnlyRivals(st, SweepRival(seed, w, k, rival).value.state)
  {
    hide RecordConflict, HasStandingRival;
    var found := FindClaim(w.state.claims, rival);
    var r := SweepRival(seed, w, k, rival).value;
    if r.state != w.state {
      var j := found.value;
      assert w.state.claims[j].status == Supported && w.state.claims[j] == st.claims[j];
      assert StandingRivals(st.claims, k, j);
      assert w.state.claims[k].id == st.claims[k].id;
      RecordLowers(seed, w.state, k, j, None);
      LoweredStays(st.claims, w.state.claims, k, j);
      assert NamesRivals(st.claims, r.state.critiques[|w.state.critiques|]);
    }
  }

  lemma {:induction false} RivalsSwept(seed: string, st: State, w: Sweep, k: nat, rivals: seq<string>, n: nat)
    requires n <= |rivals| && OnlyRivals(st, w.state) && k < |st.claims| && SweepRivals(seed, w, k, rivals, n).Ok?
    requires st.claims[k].status == Supported && rivals == st.claims[k].exclusiveWith
    ensures OnlyRivals(st, SweepRivals(seed, w, k, rivals, n).value.state)
  {
    hide OnlyRivalsLowered, OnlyRivalsNamed, SweepRival;
    SweptLength(st, w.state);
    if n > 0 {
      RivalsSwept(seed, st, w, k, rivals, n - 1);
      assert rivals[n - 1] in rivals;
      SweptLength(st, SweepRivals(seed, w, k, rivals, n - 1).value.state);
      OneRivalSwept(seed, st, SweepRivals(seed, w, k, rivals, n - 1).value, k, rivals[n - 1]);
    }
  }

  lemma SweptLength(st: State, r: State)
    requires OnlyRivals(st, r)
    ensures |r.claims| == |st.claims|
  {
  }

  lemma {:induction false} ClaimsSwept(seed: string, st: State, n: nat)
    requires n <= |st.claims| && SweepClaims(seed, st, n).Ok?
    ensures OnlyRivals(st, SweepClaims(seed, st, n).value.state)
  {
    hide SweepRivals, HasStandingRival, NamesRivals;
    if n > 0 {
      ClaimsSwept(seed, st, n - 1);
      var w := SweepClaims(seed, st, n - 1).value;
      if w.state.claims[n - 1].status == Supported {
        assert w.state.claims[n - 1] == st.claims[n - 1];
        RivalsSwept(seed, st, w, n - 1, st.claims[n - 1].exclusiveWith, |st.claims[n - 1].exclusiveWith|);
      }
    }
  }

  /** Enforcing mutual exclusivity touches nobody but standing rivals. */
  lemma EnforceTouchesRivals(seed: string, st: State)
    requires Enforce(seed, st).Ok?
    ensures OnlyRivals(st, Enforce(seed, st).value)
  {
    hide OnlyRivals;
    ClaimsSwept(seed, st, |st.claims|);
  }

  /** Reconciling marks as resolved the contradictions that are settled, unmarks none, and changes nothing else. */
  lemma ReconcileMeans(st: State)
    ensures var r := Reconcile(st);
            && r.(critiques := st.critiques) == st && |r.critiques| == |st.critiques|
            && forall k :: 0 <= k < |st.critiques| ==>
                 var c := st.critiques[k];
                 && r.critiques[k].(resolved := c.resolved) == c
                 && (r.critiques[k].resolved <==> c.resolved || (c.isContradiction && Settled(st.claims, c)))
  {
    hide Settled;
  }
}
