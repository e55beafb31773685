/** The error kinds the core returns, and the `UsbResult` alias. */
module Errors {

  /** Every failure kind the modelled code produces. `OsError` carries an
      IOKit return code widened to 64 bits. */
  datatype Error =
    | DeviceNotFound
    | DeviceNotReal
    | PermissionDenied
    | OsError(code: int)
    | UnspecifiedOsError

  /** `UsbResult<T>`: a value or one of the errors above. */
  datatype Result<+T> = Ok(value: T) | Err(error: Error) {

    predicate IsFailure() {
      Err?
    }

    function PropagateFailure<U>(): Result<U>
      requires Err?
    {
      Err(error)
    }

    function Extract(): T
      requires Ok?
    {
      value
    }
  }
}
