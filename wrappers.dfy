/** Option and Result wrappers, and the exceptions the package can raise. */
module Wrappers {

  datatype Option<+T> = None | Some(value: T)

  /** What a PHP `throw` carries, grouped by how callers treat it. */
  datatype Error =
    | Exception(message: string)          // `new Exception(...)` or `InvalidArgumentException(...)`
    | ApiError(message: string, code: int) // PaystackApiError raised by the gateway wrapper
    | InvalidCustomer                     // InvalidCustomer::notYetCreated
    | NotFound                            // NotFoundHttpException
    | Warning(what: string)               // a PHP warning that Laravel promotes to ErrorException
    | UniqueViolation                     // the database refusing a second row for a unique key
    | TypeError(message: string)          // a PHP `Error` (TypeError), which `catch (Exception $e)` lets through

  datatype Result<+T> = Ok(value: T) | Err(error: Error) {
    predicate IsFailure() { Err? }
    function PropagateFailure<U>(): Result<U>
      requires Err?
    {
      Err(error)
    }
    function Extract(): T
      requires Ok?
    {
      value
    }
  }
}
