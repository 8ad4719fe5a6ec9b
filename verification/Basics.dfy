// Types shared by every component of the model.
module Basics {
  datatype Option<+T> = None | Some(value: T)

  /** Why a journal transaction refused a request. */
  datatype Error =
    | InvalidInput
    | NotFound
    | AlreadyExists
    | RevisionConflict
    | ReplayConflict
    | LimitReached
    | TooManyMilestones
    | MissingDependency
    | ConstraintViolation
    | NeedsReview
    | Corrupt
    | TooLarge

  datatype Result<+T> = Ok(value: T) | Err(error: Error)

  type Byte = b: int | 0 <= b < 256
}
