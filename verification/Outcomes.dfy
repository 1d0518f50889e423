/** Optional values, and the outcome of a step that may raise one of the source's exceptions. */
module Outcomes {

  datatype Option<+T> = None | Some(value: T)

  /** The exceptions the modelled code can raise. */
  datatype Error =
    | PolicyError            // AgentPolicyError, the one the loop catches
    | IllegalClaimMove       // IllegalHypothesisTransition
    | IllegalLifecycleMove   // IllegalInvestigationTransition
    | ConfidenceOutOfRange   // ValueError of Hypothesis.set_confidence
    | InvalidModel           // pydantic rejects a field of an entity being built

  datatype Outcome<+T> = Ok(value: T) | Raised(error: Error) {
    predicate IsFailure() {
      Raised?
    }

    function PropagateFailure<U>(): Outcome<U>
      requires Raised?
    {
      Raised(error)
    }

    function Extract(): T
      requires Ok?
    {
      value
    }
  }

  /** Python's truth value of an optional string: present and not empty. */
  predicate Truthy(o: Option<string>) {
    o.Some? && o.value != ""
  }

  /** Python's `a or b` over optional strings. */
  function OrElse(a: Option<string>, b: Option<string>): Option<string> {
    if Truthy(a) then a else b
  }

  function Max(a: real, b: real): real {
    if a >= b then a else b
  }

  function Min(a: real, b: real): real {
    if a <= b then a else b
  }
}
