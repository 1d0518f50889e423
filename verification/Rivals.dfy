/** Claims that cannot both hold: the conflicts recorded over them and when evidence has settled one. */
module Rivals {
  import opened Outcomes
  import opened Enums
  import opened Ids
  import opened Domain
  import opened Mutators

  const CONTRADICTION_CONFIDENCE_CAP := 0.5

  /** One side of a conflict: weakened, capped, and the decision that says so. */
  function WeakenSide(seed: string, st: State, k: nat, other: nat): Outcome<State>
    requires k < |st.claims| && other < |st.claims|
  {
    var c := st.claims[k];
    var c1 :- MoveTo(c, Weakened);
    var c2 :- WithConfidence(c1, Min(c.confidence, CONTRADICTION_CONFIDENCE_CAP));
    Ok(LogDecision(st.(claims := st.claims[k := c2]), seed, "dec-contra", [c.id, st.claims[other].id]))
  }

  /** The contradiction filed over two claims, both sides weakened, and the question it leaves open. */
  function RecordConflict(seed: string, st: State, k: nat, other: nat, suggested: Option<string>): Outcome<State>
    requires k < |st.claims| && other < |st.claims|
  {
    var a, b := st.claims[k].id, st.claims[other].id;
    var st1 := AddCritique(st, Critique(Make(seed, "crit", |st.critiques|), true, a, Some(b), suggested, false));
    var st2 :- WeakenSide(seed, st1, k, other);
    var st3 :- WeakenSide(seed, st2, other, k);
    Ok(AddQuestion(st3, seed, "q-contra", [a, b]))
  }

  /** State and the pairs already recorded in this call of enforce_mutual_exclusivity. */
  datatype Sweep = Sweep(state: State, seen: set<set<string>>)

  /** One rival of the claim at position k, which stood as supported when its turn came. */
  function SweepRival(seed: string, w: Sweep, k: nat, rival: string): (r: Outcome<Sweep>)
    requires k < |w.state.claims|
    ensures r.Ok? ==> |r.value.state.claims| == |w.state.claims|
  {
    var found := FindClaim(w.state.claims, rival);
    if found.None? || w.state.claims[found.value].status != Supported then Ok(w)
    else
      var pair := {w.state.claims[k].id, w.state.claims[found.value].id};
      if pair in w.seen then Ok(w)
      else
        var st :- RecordConflict(seed, w.state, k, found.value, None);
        Ok(Sweep(st, w.seen + {pair}))
  }

  /** The inner loop over the first n rivals of the claim at position k. */
  function SweepRivals(seed: string, w: Sweep, k: nat, rivals: seq<string>, n: nat): (r: Outcome<Sweep>)
    requires k < |w.state.claims| && n <= |rivals|
    ensures r.Ok? ==> |r.value.state.claims| == |w.state.claims|
  {
    if n == 0 then Ok(w)
    else
      var w1 :- SweepRivals(seed, w, k, rivals, n - 1);
      SweepRival(seed, w1, k, rivals[n - 1])
  }

  /** The outer loop over the first n claims. */
  function SweepClaims(seed: string, st: State, n: nat): (r: Outcome<Sweep>)
    requires n <= |st.claims|
    ensures r.Ok? ==> |r.value.state.claims| == |st.claims|
  {
    if n == 0 then Ok(Sweep(st, {}))
    else
      var w :- SweepClaims(seed, st, n - 1);
      if w.state.claims[n - 1].status != Supported then Ok(w)
      else SweepRivals(seed, w, n - 1, w.state.claims[n - 1].exclusiveWith, |w.state.claims[n - 1].exclusiveWith|)
  }

  /** enforce_mutual_exclusivity */
  function Enforce(seed: string, st: State): Outcome<State> {
    var w :- SweepClaims(seed, st, |st.claims|);
    Ok(w.state)
  }

  /** _contradiction_is_settled: exactly one of two identifiable claims still stands. */
  predicate Settled(claims: seq<Claim>, c: Critique) {
    var a := FindClaim(claims, c.targetId);
    var b := FindClaim(claims, if c.conflictsWith.Some? then c.conflictsWith.value else "");
    a.Some? && b.Some? && (claims[a.value].status == Supported) != (claims[b.value].status == Supported)
  }

  function Reconciled(claims: seq<Claim>, c: Critique): Critique {
    if c.isContradiction && !c.resolved then c.(resolved := Settled(claims, c)) else c
  }

  /** reconcile_contradictions over the first n critiques. */
  function ReconcileFirst(claims: seq<Claim>, critiques: seq<Critique>, n: nat): (r: seq<Critique>)
    requires n <= |critiques|
    ensures |r| == |critiques|
    ensures forall k :: 0 <= k < |r| ==> r[k] == if k < n then Reconciled(claims, critiques[k]) else critiques[k]
  {
    seq(|critiques|, k requires 0 <= k < |critiques| =>
      if k < n then Reconciled(claims, critiques[k]) else critiques[k])
  }

  function Reconcile(st: State): State {
    st.(critiques := ReconcileFirst(st.claims, st.critiques, |st.critiques|))
  }

  /** open_contradictions is non-empty; its first element is what termination looks at. */
  function FirstOpen(claims: seq<Claim>, critiques: seq<Critique>): (r: Option<Critique>)
    ensures r.None?
      <==> forall k :: 0 <= k < |critiques| ==> critiques[k].isContradiction ==> Settled(claims, critiques[k])
    ensures r.Some? ==> r.value in critiques && r.value.isContradiction && !Settled(claims, r.value)
  {
    if critiques == [] then None
    else if critiques[0].isContradiction && !Settled(claims, critiques[0]) then Some(critiques[0])
    else FirstOpen(claims, critiques[1..])
  }
}
