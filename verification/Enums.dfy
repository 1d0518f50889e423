/** The closed vocabularies of the domain and the two graphs of legal status moves. */
module Enums {

  datatype ClaimStatus = Proposed | Active | Supported | Weakened | Rejected | Unresolved

  datatype Lifecycle = Created | Planning | Running | AwaitingEvidence | Converged | Exhausted | Failed

  datatype ExperimentStatus = PlannedRun | RunningRun | SucceededRun | FailedRun | SkippedRun

  datatype Direction = Supports | Refutes | Neutral

  datatype Disposition =
    | SupportedFinding
    | RefutedFinding
    | MixedFinding
    | InconclusiveFinding
    | InsufficientFinding
    | UnanswerableFinding

  datatype Reason =
    | SufficientEvidence
    | InsufficientEvidence
    | UnanswerablePremise
    | MaxIterations
    | BudgetExhausted
    | NoValidExperiment
    | RepeatedFailure
    | SafetyConstraint
    | NoProgress
    | InternalError
    | UserStop

  /** ALLOWED_HYPOTHESIS_TRANSITIONS */
  function AllowedClaimMoves(s: ClaimStatus): set<ClaimStatus> {
    match s
    case Proposed => {Active, Rejected}
    case Active => {Supported, Weakened, Rejected, Unresolved}
    case Weakened => {Active, Supported, Rejected, Unresolved}
    case Supported => {Weakened, Unresolved}
    case Unresolved => {Active, Supported, Weakened, Rejected}
    case Rejected => {}
  }

  /** ALLOWED_INVESTIGATION_TRANSITIONS */
  function AllowedLifecycleMoves(s: Lifecycle): set<Lifecycle> {
    match s
    case Created => {Planning, Failed}
    case Planning => {Running, Failed}
    case Running => {AwaitingEvidence, Converged, Exhausted, Failed}
    case AwaitingEvidence => {Running, Converged, Exhausted, Failed}
    case Converged => {}
    case Exhausted => {}
    case Failed => {}
  }

  predicate IsTerminal(s: ClaimStatus) {
    AllowedClaimMoves(s) == {}
  }

  predicate CanMove(s: ClaimStatus, target: ClaimStatus) {
    target == s || target in AllowedClaimMoves(s)
  }

  predicate CanAdvance(s: Lifecycle, target: Lifecycle) {
    target == s || target in AllowedLifecycleMoves(s)
  }
}
