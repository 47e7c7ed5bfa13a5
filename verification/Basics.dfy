/** Types shared by every module of the back-office model. */
module Basics {

  /** The value of an attribute that the program may leave as `None`. */
  datatype Option<+T> = None | Some(value: T)

  /** What a call raises instead of returning. */
  datatype Error =
    | NotFound
    | WorkflowError(cause: WorkflowCause)
    | ApprovalAlreadyDecided
    | StoreFailure
    | ValueError
    | InvalidStatusTransition

  datatype WorkflowCause =
    | NoCurrentPlan
    | KeyTooLong
    | KeyBoundToOtherRequest
    | ExecutionPending
    | SummaryRequired
    | SuccessIsFinal
    | FailureIsFinal
    | NothingToReconcile
    | TargetMismatch
    | ExecutionStillActive
    | ForeignExecutionPlan
    | InvalidExecutionPlanId

  datatype Result<+T> = Ok(value: T) | Raised(error: Error)

  /** An identifier. The program draws UUIDs that never repeat and compares them
      only for equality; the model draws them from a counter. */
  type Id = nat

  /** A clock reading, in microseconds. */
  type Time = int
}
