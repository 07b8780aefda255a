/** The failures the application reports through its run-time checks. */
module Outcomes {

  datatype Error =
    | AsteroidsArrayMissing          // META_CHECK_ARG_NOT_NULL(m_asteroids_array_ptr)
    | UnexpectedAction(code: int)    // META_UNEXPECTED(action)

  datatype Result<T> = Success(value: T) | Failure(error: Error)

  datatype Outcome = Pass | Fail(error: Error)

  /** A pointer that may be null. */
  datatype Option<T> = None | Some(value: T)
}
