/** Option, Result, the error codes that the services throw, and a truth value as a number. */
module Wrappers {
  datatype Option<+T> = None | Some(value: T)

  datatype Error =
    | NotFound
    | Conflict
    | ValidationFailed
    | DoubleBooking
    | MinStayViolation
    | StripeError       // a call to Stripe threw
    | UniqueViolation   // a database insert broke a unique index (P2002)
    | BadSignature

  datatype Result<+T> = Success(value: T) | Failure(error: Error)

  function Bit(b: bool): nat {
    if b then 1 else 0
  }
}
