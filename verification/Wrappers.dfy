/** Result shapes for code that raises: a value, or the error that was raised. */
module Wrappers {

  datatype Option<+T> = None | Some(value: T)

  /** What went wrong: one constructor per exception class the modelled code raises. */
  datatype Error =
    | CoreError
    | ModuleApplyError
    | CommandError
    | SnapshotError
    | ConfigError
    | ValidationError
    | RepairError
    | RegistryError
    | DnsError
    | ValueError

  datatype Result<+T> = Ok(value: T) | Raised(error: Error)
  {
    predicate IsFailure() {
      Raised?
    }

    function PropagateFailure<U>(): Result<U>
      requires Raised?
    {
      Raised(error)
    }

    function Extract(): T
      requires Ok?
    {
      value
    }
  }

  /** The result of a step that returns nothing when it succeeds. */
  datatype Outcome = Done | Failed(error: Error)
}
