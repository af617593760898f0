/** The fixed-signature constructors of package `exception` (current revision). */
module Deprecated {
  import opened GoErrors
  import opened Codes
  import opened Exceptions

  /** `NewCustomError`: stores the class, code, message and cause as given, with
      `errors.New(message)` standing in for a nil cause; the text is never set.
      No default option is applied. */
  function NewCustomError(status: string, code: string, message: string, err: Chain): (e: Exception)
    ensures e.status == status && e.Code() == code && e.Message() == message
    ensures err != [] ==> e.Unwrap() == err
    ensures err == [] ==> e.Unwrap() == GoErrors.New(message) && e.Unwrap()[0].text == message
    ensures e.Unwrap() != []
    ensures e.Error() == ""
  {
    var cause := if err == [] then GoErrors.New(message) else err;
    Exception("", cause, status, code, message)
  }

  /** `newError`: the class doubles as the machine code. */
  function NewError(status: string, message: string, err: Chain): (e: Exception)
    ensures e.status == status && e.Code() == status && e.Message() == message
    ensures e.Unwrap() == if err == [] then GoErrors.New(message) else err
    ensures e.Error() == ""
  {
    NewCustomError(status, status, message, err)
  }

  function InvalidRequest(code: string, message: string, err: Chain): (e: Exception)
    ensures e.status == CodeInvalidRequest && e.Code() == code && e.Message() == message
    ensures e.Unwrap() == if err == [] then GoErrors.New(message) else err
    ensures e.Error() == ""
  {
    NewCustomError(CodeInvalidRequest, code, message, err)
  }

  function ValidationFailed(code: string, message: string, err: Chain): (e: Exception)
    ensures e.status == CodeValidationFailed && e.Code() == code && e.Message() == message
    ensures e.Unwrap() == if err == [] then GoErrors.New(message) else err
    ensures e.Error() == ""
  {
    NewCustomError(CodeValidationFailed, code, message, err)
  }

  function PermissionDenied(code: string, message: string, err: Chain): (e: Exception)
    ensures e.status == CodePermissionDenied && e.Code() == code && e.Message() == message
    ensures e.Unwrap() == if err == [] then GoErrors.New(message) else err
    ensures e.Error() == ""
  {
    NewCustomError(CodePermissionDenied, code, message, err)
  }

  function NotFound(code: string, message: string, err: Chain): (e: Exception)
    ensures e.status == CodeNotFound && e.Code() == code && e.Message() == message
    ensures e.Unwrap() == if err == [] then GoErrors.New(message) else err
    ensures e.Error() == ""
  {
    NewCustomError(CodeNotFound, code, message, err)
  }

  function ThirdParty(code: string, message: string, err: Chain): (e: Exception)
    ensures e.status == CodeThirdParty && e.Code() == code && e.Message() == message
    ensures e.Unwrap() == if err == [] then GoErrors.New(message) else err
    ensures e.Error() == ""
  {
    NewCustomError(CodeThirdParty, code, message, err)
  }

  function AlreadyExists(code: string, message: string, err: Chain): (e: Exception)
    ensures e.status == CodeAlreadyExists && e.Code() == code && e.Message() == message
    ensures e.Unwrap() == if err == [] then GoErrors.New(message) else err
    ensures e.Error() == ""
  {
    NewCustomError(CodeAlreadyExists, code, message, err)
  }

  function SoftError(code: string, message: string, err: Chain): (e: Exception)
    ensures e.status == CodeSoftError && e.Code() == code && e.Message() == message
    ensures e.Unwrap() == if err == [] then GoErrors.New(message) else err
    ensures e.Error() == ""
  {
    NewCustomError(CodeSoftError, code, message, err)
  }

  function RaceCondition(code: string, message: string, err: Chain): (e: Exception)
    ensures e.status == CodeRaceCondition && e.Code() == code && e.Message() == message
    ensures e.Unwrap() == if err == [] then GoErrors.New(message) else err
    ensures e.Error() == ""
  {
    NewCustomError(CodeRaceCondition, code, message, err)
  }

  function ResourceExhausted(code: string, message: string, err: Chain): (e: Exception)
    ensures e.status == CodeResourceExhausted && e.Code() == code && e.Message() == message
    ensures e.Unwrap() == if err == [] then GoErrors.New(message) else err
    ensures e.Error() == ""
  {
    NewCustomError(CodeResourceExhausted, code, message, err)
  }

  function Unauthenticated(code: string, message: string, err: Chain): (e: Exception)
    ensures e.status == CodeUnauthenticated && e.Code() == code && e.Message() == message
    ensures e.Unwrap() == if err == [] then GoErrors.New(message) else err
    ensures e.Error() == ""
  {
    NewCustomError(CodeUnauthenticated, code, message, err)
  }

  function Internal(code: string, message: string, err: Chain): (e: Exception)
    ensures e.status == CodeInternal && e.Code() == code && e.Message() == message
    ensures e.Unwrap() == if err == [] then GoErrors.New(message) else err
    ensures e.Error() == ""
  {
    NewCustomError(CodeInternal, code, message, err)
  }

  function Unavailable(code: string, message: string, err: Chain): (e: Exception)
    ensures e.status == CodeUnavailable && e.Code() == code && e.Message() == message
    ensures e.Unwrap() == if err == [] then GoErrors.New(message) else err
    ensures e.Error() == ""
  {
    NewCustomError(CodeUnavailable, code, message, err)
  }

  function DeadlineExceeded(code: string, message: string, err: Chain): (e: Exception)
    ensures e.status == CodeDeadlineExceeded && e.Code() == code && e.Message() == message
    ensures e.Unwrap() == if err == [] then GoErrors.New(message) else err
    ensures e.Error() == ""
  {
    NewCustomError(CodeDeadlineExceeded, code, message, err)
  }
}
