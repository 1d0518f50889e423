/** What the evidence log says about a claim, told from its items: whether any bear on it, and how strong they are. */
module Weighing {
  import opened Outcomes
  import opened Enums
  import opened Domain
  import opened Scoring
  import opened Explanation

  /** Some item of the log names the claim and points one way. */
  predicate Bears(log: seq<Evidence>, id: string, d: Direction) {
    exists k :: 0 <= k < |log| && id in log[k].hypothesisIds && log[k].direction == d
  }

  /** The strongest item that points one way has this strength; without one it is nothing. */
  predicate Weighs(log: seq<Evidence>, id: string, d: Direction, x: real) {
    && (forall k :: 0 <= k < |log| && id in log[k].hypothesisIds && log[k].direction == d ==> log[k].strength <= x)
    && if Bears(log, id, d)
       then exists k :: 0 <= k < |log| && id in log[k].hypothesisIds && log[k].direction == d && log[k].strength == x
       else x == 0.0
  }

  lemma {:induction false} StrongestWeighs(log: seq<Evidence>, id: string, d: Direction)
    ensures Bearing(log, id, d) != [] <==> Bears(log, id, d)
    ensures Weighs(log, id, d, Strongest(Bearing(log, id, d)))
  {
    if log == [] {
      NothingWeighs(id, d);
    } else {
      hide Bears, Weighs, Bearing, Strongest;
      var front, last := log[..|log| - 1], log[|log| - 1];
      assert log == front + [last];
      StrongestWeighs(front, id, d);
      BearingAppend(front, last, id, d);
      StrongestAppend(Bearing(front, id, d), last);
      OneMoreWeighs(front, last, id, d, Strongest(Bearing(front, id, d)));
      assert Bearing(front, id, d) + [] == Bearing(front, id, d);
    }
  }

  lemma NothingWeighs(id: string, d: Direction)
    ensures Bearing([], id, d) == [] && !Bears([], id, d) && Weighs([], id, d, Strongest([]))
  {
  }

  lemma OneMoreWeighs(front: seq<Evidence>, last: Evidence, id: string, d: Direction, x: real)
    requires Weighs(front, id, d, x) && x >= 0.0
    ensures var named := id in last.hypothesisIds && last.direction == d;
            && (Bears(front + [last], id, d) <==> named || Bears(front, id, d))
            && Weighs(front + [last], id, d, if named then Max(x, last.strength) else x)
  {
    var log := front + [last];
    assert forall k :: 0 <= k < |front| ==> log[k] == front[k];
    assert log[|front|] == last;
  }

  /**
   A claim is supported or rejected by an item of at least a half with none against it; weakly supported, or without
   evidence, it stays active; all else weakens it. The floors under a weakened claim's confidence never bind.
   */
  lemma VerdictMeans(log: seq<Evidence>, id: string, s: real, r: real)
    requires Weighs(log, id, Supports, s) && Weighs(log, id, Refutes, r)
    ensures var (status, confidence) := Verdict(log, id);
            var opposed := Bears(log, id, Supports) && Bears(log, id, Refutes);
            && (status == Supported <==> !opposed && s >= 0.5)
            && (status == Rejected <==> !opposed && r >= 0.5)
            && (status == Weakened <==> opposed || (Bears(log, id, Refutes) && r < 0.5))
            && (status == Active <==> !Bears(log, id, Refutes) && s < 0.5)
            && confidence == match status
                             case Supported => if s >= 0.8 then 0.95 else 0.55 + s / 2.0
                             case Rejected => if r >= 0.7 then 0.05 else 0.4 - r / 2.0
                             case Weakened => if opposed then 0.5 + (s - r) / 5.0 else 0.45 - r / 4.0
                             case _ => if Bears(log, id, Supports) then 0.45 + s / 4.0 else 0.5
  {
    hide Bearing, Strongest, Weighs;
    OnlyOneWeight(log, id, Supports, s);
    OnlyOneWeight(log, id, Refutes, r);
  }

  lemma OnlyOneWeight(log: seq<Evidence>, id: string, d: Direction, x: real)
    requires Weighs(log, id, d, x)
    ensures x == Strongest(Bearing(log, id, d)) && 0.0 <= x <= 1.0
    ensures Bearing(log, id, d) != [] <==> Bears(log, id, d)
    ensures !Bears(log, id, d) ==> x == 0.0
  {
    StrongestWeighs(log, id, d);
  }

  /** What an explained claim's status tells of the items that bear on it. */
  lemma StatusTells(c: Claim, log: seq<Evidence>, critiques: seq<Critique>, executed: seq<Request>, s: real, r: real)
    requires Explained(c, log, critiques, executed)
    requires Weighs(log, c.id, Supports, s) && Weighs(log, c.id, Refutes, r)
    ensures c.status == Supported ==> s >= 0.5 && !Bears(log, c.id, Refutes)
    ensures c.status == Active ==> s < 0.5 && !Bears(log, c.id, Refutes)
    ensures c.status == Rejected ==> r >= 0.5
    ensures c.status == Weakened ==> Bears(log, c.id, Refutes) || (Contradicted(critiques, c.id) && s >= 0.5)
  {
    hide Bearing, Strongest, Weighs, Tested, Mentioned, Contradicted;
    OnlyOneWeight(log, c.id, Supports, s);
    OnlyOneWeight(log, c.id, Refutes, r);
  }
}
