/**
 * The older revision of package `exception`: `codeError`, which renders as
 * the text of the error it wraps. It cannot coexist with the current revision
 * and is kept as a module of its own.
 */
module LegacyError {
  import opened Wrappers
  import opened GoErrors

  // System and infrastructure
  const CodeInternal := "INTERNAL"
  const CodeUnavailable := "UNAVAILABLE"
  const CodeDeadlineExceeded := "DEADLINE_EXCEEDED"
  const CodeThirdParty := "THIRD_PARTY"

  // Input and validation
  const CodeInvalidRequest := "INVALID_REQUEST"
  const CodeValidationFailed := "VALIDATION_FAILED"

  // Authentication and authorization
  const CodeUnauthenticated := "UNAUTHENTICATED"
  const CodePermissionDenied := "PERMISSION_DENIED"

  // Resources
  const CodeNotFound := "NOT_FOUND"
  const CodeAlreadyExists := "ALREADY_EXISTS"
  const CodeRaceCondition := "RACE_CONDITION"
  const CodeResourceExhausted := "RESOURCE_EXHAUSTED"

  // Soft errors
  const CodeSoftError := "SOFT_ERROR"

  /** `codeError`: the embedded (wrapped) error, the status class, the code and the message. */
  datatype CodeError = CodeError(cause: Chain, status: string, code: string, message: string)
  {
    /** Delegates to the wrapped error, which must not be nil. */
    function Error(): string
      requires cause != []
    {
      cause[0].text
    }

    function Code(): string { code }

    function Message(): string { message }

    function Unwrap(): Chain { cause }

    /** The value as an `error`: it answers `Error`, `Code` and `Message` but has no
        `HTTPStatus` (its HTTP method is called `HTTPCode`), and unwraps to its cause. */
    function AsChain(): (err: Chain)
      requires cause != []
      ensures |err| == |cause| + 1 && err[1..] == Unwrap()
      ensures err[0].text == Error() && err[0].text == Unwrap()[0].text
      ensures err[0].code == Some(Code()) && err[0].message == Some(Message())
      ensures err[0].httpStatus.None?
    {
      [Link(cause[0].text, Some(code), Some(message), None)] + cause
    }
  }

  /** `NewCustomError`: stores the fields as given, with `errors.New(status)` standing
      in for a nil cause, so the value always wraps something and renders as its text. */
  function NewCustomError(status: string, code: string, message: string, err: Chain): (e: CodeError)
    ensures e.status == status && e.Code() == code && e.Message() == message
    ensures e.Unwrap() != []
    ensures err != [] ==> e.Unwrap() == err && e.Error() == err[0].text
    ensures err == [] ==> e.Unwrap() == GoErrors.New(status) && e.Error() == status
  {
    var cause := if err == [] then GoErrors.New(status) else err;
    CodeError(cause, status, code, message)
  }

  /** `newError`: the class doubles as the machine code. */
  function NewError(status: string, message: string, err: Chain): (e: CodeError)
    ensures e.status == status && e.Code() == status && e.Message() == message
    ensures e.Unwrap() == if err == [] then GoErrors.New(status) else err
    ensures e.Unwrap() != [] && e.Error() == e.Unwrap()[0].text
  {
    NewCustomError(status, status, message, err)
  }

  function InvalidRequest(code: string, message: string, err: Chain): (e: CodeError)
    ensures e.status == CodeInvalidRequest && e.Code() == code && e.Message() == message
    ensures e.Unwrap() == if err == [] then GoErrors.New(CodeInvalidRequest) else err
    ensures e.Unwrap() != [] && e.Error() == e.Unwrap()[0].text
  {
    NewCustomError(CodeInvalidRequest, code, message, err)
  }

  function ValidationFailed(code: string, message: string, err: Chain): (e: CodeError)
    ensures e.status == CodeValidationFailed && e.Code() == code && e.Message() == message
    ensures e.Unwrap() == if err == [] then GoErrors.New(CodeValidationFailed) else err
    ensures e.Unwrap() != [] && e.Error() == e.Unwrap()[0].text
  {
    NewCustomError(CodeValidationFailed, code, message, err)
  }

  function PermissionDenied(code: string, message: string, err: Chain): (e: CodeError)
    ensures e.status == CodePermissionDenied && e.Code() == code && e.Message() == message
    ensures e.Unwrap() == if err == [] then GoErrors.New(CodePermissionDenied) else err
    ensures e.Unwrap() != [] && e.Error() == e.Unwrap()[0].text
  {
    NewCustomError(CodePermissionDenied, code, message, err)
  }

  function NotFound(code: string, message: string, err: Chain): (e: CodeError)
    ensures e.status == CodeNotFound && e.Code() == code && e.Message() == message
    ensures e.Unwrap() == if err == [] then GoErrors.New(CodeNotFound) else err
    ensures e.Unwrap() != [] && e.Error() == e.Unwrap()[0].text
  {
    NewCustomError(CodeNotFound, code, message, err)
  }

  function ThirdParty(code: string, message: string, err: Chain): (e: CodeError)
    ensures e.status == CodeThirdParty && e.Code() == code && e.Message() == message
    ensures e.Unwrap() == if err == [] then GoErrors.New(CodeThirdParty) else err
    ensures e.Unwrap() != [] && e.Error() == e.Unwrap()[0].text
  {
    NewCustomError(CodeThirdParty, code, message, err)
  }

  function AlreadyExists(code: string, message: string, err: Chain): (e: CodeError)
    ensures e.status == CodeAlreadyExists && e.Code() == code && e.Message() == message
    ensures e.Unwrap() == if err == [] then GoErrors.New(CodeAlreadyExists) else err
    ensures e.Unwrap() != [] && e.Error() == e.Unwrap()[0].text
  {
    NewCustomError(CodeAlreadyExists, code, message, err)
  }

  function SoftError(code: string, message: string, err: Chain): (e: CodeError)
    ensures e.status == CodeSoftError && e.Code() == code && e.Message() == message
    ensures e.Unwrap() == if err == [] then GoErrors.New(CodeSoftError) else err
    ensures e.Unwrap() != [] && e.Error() == e.Unwrap()[0].text
  {
    NewCustomError(CodeSoftError, code, message, err)
  }

  function RaceCondition(code: string, message: string, err: Chain): (e: CodeError)
    ensures e.status == CodeRaceCondition && e.Code() == code && e.Message() == message
    ensures e.Unwrap() == if err == [] then GoErrors.New(CodeRaceCondition) else err
    ensures e.Unwrap() != [] && e.Error() == e.Unwrap()[0].text
  {
    NewCustomError(CodeRaceCondition, code, message, err)
  }

  function ResourceExhausted(code: string, message: string, err: Chain): (e: CodeError)
    ensures e.status == CodeResourceExhausted && e.Code() == code && e.Message() == message
    ensures e.Unwrap() == if err == [] then GoErrors.New(CodeResourceExhausted) else err
    ensures e.Unwrap() != [] && e.Error() == e.Unwrap()[0].text
  {
    NewCustomError(CodeResourceExhausted, code, message, err)
  }

  function Unauthenticated(code: string, message: string, err: Chain): (e: CodeError)
    ensures e.status == CodeUnauthenticated && e.Code() == code && e.Message() == message
    ensures e.Unwrap() == if err == [] then GoErrors.New(CodeUnauthenticated) else err
    ensures e.Unwrap() != [] && e.Error() == e.Unwrap()[0].text
  {
    NewCustomError(CodeUnauthenticated, code, message, err)
  }

  function Internal(code: string, message: string, err: Chain): (e: CodeError)
    ensures e.status == CodeInternal && e.Code() == code && e.Message() == message
    ensures e.Unwrap() == if err == [] then GoErrors.New(CodeInternal) else err
    ensures e.Unwrap() != [] && e.Error() == e.Unwrap()[0].text
  {
    NewCustomError(CodeInternal, code, message, err)
  }

  function Unavailable(code: string, message: string, err: Chain): (e: CodeError)
    ensures e.status == CodeUnavailable && e.Code() == code && e.Message() == message
    ensures e.Unwrap() == if err == [] then GoErrors.New(CodeUnavailable) else err
    ensures e.Unwrap() != [] && e.Error() == e.Unwrap()[0].text
  {
    NewCustomError(CodeUnavailable, code, message, err)
  }

  function DeadlineExceeded(code: string, message: string, err: Chain): (e: CodeError)
    ensures e.status == CodeDeadlineExceeded && e.Code() == code && e.Message() == message
    ensures e.Unwrap() == if err == [] then GoErrors.New(CodeDeadlineExceeded) else err
    ensures e.Unwrap() != [] && e.Error() == e.Unwrap()[0].text
  {
    NewCustomError(CodeDeadlineExceeded, code, message, err)
  }

  const ErrorInvalidRequest := NewError(CodeInvalidRequest, "Invalid request", [])
  const ErrorValidationFailed := NewError(CodeValidationFailed, "Validation failed", [])
  const ErrorPermissionDenied := NewError(CodePermissionDenied, "Permission denied", [])
  const ErrorNotFound := NewError(CodeNotFound, "Resource not found", [])
  const ErrorAlreadyExists := NewError(CodeAlreadyExists, "Resource already exists", [])
  const ErrorRaceCondition := NewError(CodeRaceCondition, "Race condition", [])
  const ErrorResourceExhausted := NewError(CodeResourceExhausted, "Resource exhausted", [])
  const ErrorUnauthenticated := NewError(CodeUnauthenticated, "Unauthenticated", [])
  const ErrorInternal := NewError(CodeInternal, "Internal server error", [])
  const ErrorUnavailable := NewError(CodeUnavailable, "Service unavailable", [])
  const ErrorDeadlineExceeded := NewError(CodeDeadlineExceeded, "Deadline exceeded", [])
  const ErrorSoftError := NewError(CodeSoftError, "Soft error", [])

  /** The twelve base errors, in declaration order. */
  const All: seq<CodeError> := [
    ErrorInvalidRequest, ErrorValidationFailed, ErrorPermissionDenied, ErrorNotFound,
    ErrorAlreadyExists, ErrorRaceCondition, ErrorResourceExhausted, ErrorUnauthenticated,
    ErrorInternal, ErrorUnavailable, ErrorDeadlineExceeded, ErrorSoftError
  ]

  /** Every base error is keyed by its class and renders as the class, not as its message. */
  lemma BaseErrorsRenderClass()
    ensures forall e <- All :: e.Unwrap() != [] && e.Code() == e.status && e.Error() == e.status
    ensures ErrorNotFound.Code() == "NOT_FOUND" && ErrorNotFound.Error() == "NOT_FOUND"
    ensures ErrorNotFound.Message() == "Resource not found"
  {
    forall i | 0 <= i < |All|
      ensures All[i].Unwrap() != [] && All[i].Code() == All[i].status && All[i].Error() == All[i].status
    {
    }
  }
}
