/** Failure causes and the retry policy (domain/failure.py). */
module Failure {
  import opened Wrappers
  import opened Rows

  /** The engine's retry policy; workflow is None when its row was not found. */
  predicate EvaluateRetryEligibility(
    nextOrdinal: int, maxAttempts: int, classifiedRetryable: bool, workflow: Option<WorkflowState>)
  {
    workflow == Some(WorkflowState.Running) && classifiedRetryable && nextOrdinal <= maxAttempts
  }
}
