/** Results and options shared by the other modules. */
module Wrappers {

  datatype Option<+T> = None | Some(value: T)

  /** The error values of the modelled routes. */
  datatype Error =
    | MissingPermission
    | CannotGiveMissingPermissions
    | NotElevated
    | NotFound
    | InvalidOperation
    | InvalidCredentials
    | FeatureDisabled

  datatype Result<+T> = Success(value: T) | Failure(error: Error)
}
