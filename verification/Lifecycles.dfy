/** The two graphs of legal moves, told by what they forbid. */
module Lifecycles {
  import opened Enums

  /**
   A claim never becomes proposed again and never leaves rejection; from `proposed` it can only be taken up or rejected,
   and what is supported can neither be rejected nor taken up again before it has been weakened. Nothing else is
   forbidden.
   */
  lemma ClaimMovesMean(s: ClaimStatus, target: ClaimStatus)
    ensures CanMove(s, target)
       <==> s == target
            || (target != Proposed && s != Rejected
                && (s == Proposed ==> target == Active || target == Rejected)
                && (s == Supported ==> target != Active && target != Rejected))
  {
  }

  /** How far along the lifecycle an investigation is. */
  function Stage(s: Lifecycle): nat {
    match s
    case Created => 0
    case Planning => 1
    case Running => 2
    case AwaitingEvidence => 2
    case Converged => 3
    case Exhausted => 3
    case Failed => 3
  }

  /** The lifecycle goes on stage by stage, waits only from running and back, and may fail anywhere but at its end. */
  lemma LifecycleMovesMean(s: Lifecycle, target: Lifecycle)
    ensures CanAdvance(s, target)
       <==> s == target || (Stage(target) == Stage(s) + 1 && target != AwaitingEvidence)
            || (Stage(s) == 2 && Stage(target) == 2) || (target == Failed && Stage(s) < 3)
  {
  }

  lemma OnlyRejectedIsTerminal(s: ClaimStatus)
    ensures IsTerminal(s) <==> s == Rejected
  {
    assert Active in AllowedClaimMoves(Proposed) && Supported in AllowedClaimMoves(Active);
    assert Active in AllowedClaimMoves(Weakened) && Weakened in AllowedClaimMoves(Supported);
    assert Active in AllowedClaimMoves(Unresolved);
  }
}
