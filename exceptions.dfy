/**
  Java's nullable references and exceptions, as values.

  A Java reference that may be null is an `Option`; a Java call that either
  returns a value or throws is a `Result`; a handler that either completes
  or throws is an `Outcome`.  `Exception` lists every exception the modelled
  code throws, catches or lets through.
 */
module Exceptions {

  datatype Option<+T> = None | Some(value: T)

  datatype Exception =
      /** Javalin's UnauthorizedResponse: answered with 401 */
    | UnauthorizedResponse(message: string)
      /** Javalin's ForbiddenResponse: answered with 403 */
    | ForbiddenResponse(message: string)
      /** the application's ApiException, carrying its own status code */
    | ApiException(code: int, message: string)
      /** the application's NotAuthorizedException */
    | NotAuthorizedException(code: int, message: string)
      /** the application's ValidationException (wrong credentials) */
    | ValidationException(message: string)
      /** java.text.ParseException, thrown by the token library */
    | ParseException
      /** the token library's TokenVerificationException */
    | TokenVerificationException
      /** a method called on a null reference */
    | NullPointerException
      /** an array read past its last element */
    | ArrayIndexOutOfBoundsException

  /** The value a Java call returns, or the exception it throws. */
  datatype Result<+T> = Ok(value: T) | Throw(error: Exception) {

    predicate IsFailure() {
      Throw?
    }

    function PropagateFailure<U>(): Result<U>
      requires Throw?
    {
      Throw(error)
    }

    function Extract(): T
      requires Ok?
    {
      value
    }
  }

  /** How a request handler ends: it returns normally or it throws. */
  datatype Outcome = Done | Threw(error: Exception)
}
