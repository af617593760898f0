/** The protocol-agnostic status classes of package `exception` (current revision). */
module Codes {

  // System and infrastructure
  const CodeInternal := "INTERNAL"
  const CodeUnavailable := "UNAVAILABLE"
  const CodeDeadlineExceeded := "DEADLINE_EXCEEDED"
  const CodeThirdParty := "THIRD_PARTY"

  // Input and validation
  const CodeInvalidRequest := "INVALID_REQUEST"
  const CodeValidationFailed := "VALIDATION_FAILED"

  // Authentication and authorization
  const CodeUnauthenticated := "UNAUTHENTICATED"
  const CodePermissionDenied := "PERMISSION_DENIED"

  // Resources
  const CodeNotFound := "NOT_FOUND"
  const CodeAlreadyExists := "ALREADY_EXISTS"
  const CodeRaceCondition := "RACE_CONDITION"
  const CodeResourceExhausted := "RESOURCE_EXHAUSTED"

  // Soft errors
  const CodeSoftError := "SOFT_ERROR"

  /** The thirteen classes, in declaration order. */
  const StatusClasses: seq<string> := [
    CodeInternal, CodeUnavailable, CodeDeadlineExceeded, CodeThirdParty,
    CodeInvalidRequest, CodeValidationFailed, CodeUnauthenticated, CodePermissionDenied,
    CodeNotFound, CodeAlreadyExists, CodeRaceCondition, CodeResourceExhausted, CodeSoftError
  ]

  /** The classes form a closed set of thirteen different strings, each spelled as its own name. */
  lemma StatusClassesDistinct()
    ensures |StatusClasses| == 13
    ensures forall i, j :: 0 <= i < j < |StatusClasses| ==> StatusClasses[i] != StatusClasses[j]
    ensures CodeNotFound == "NOT_FOUND" && CodeSoftError == "SOFT_ERROR" && CodeThirdParty == "THIRD_PARTY"
  {
  }
}

/** The pre-built base errors of the current revision, one per status class except THIRD_PARTY. */
module BaseErrors {
  import opened GoErrors
  import opened Codes
  import opened Exceptions
  import opened Deprecated

  const ErrorInvalidRequest := NewError(CodeInvalidRequest, "Invalid request", [])
  const ErrorValidationFailed := NewError(CodeValidationFailed, "Validation failed", [])
  const ErrorPermissionDenied := NewError(CodePermissionDenied, "Permission denied", [])
  const ErrorNotFound := NewError(CodeNotFound, "Resource not found", [])
  const ErrorAlreadyExists := NewError(CodeAlreadyExists, "Resource already exists", [])
  const ErrorRaceCondition := NewError(CodeRaceCondition, "Race condition", [])
  const ErrorResourceExhausted := NewError(CodeResourceExhausted, "Resource exhausted", [])
  const ErrorUnauthenticated := NewError(CodeUnauthenticated, "Unauthenticated", [])
  const ErrorInternal := NewError(CodeInternal, "Internal server error", [])
  const ErrorUnavailable := NewError(CodeUnavailable, "Service unavailable", [])
  const ErrorDeadlineExceeded := NewError(CodeDeadlineExceeded, "Deadline exceeded", [])
  const ErrorSoftError := NewError(CodeSoftError, "Soft error", [])

  /** The twelve base errors, in declaration order. */
  const All: seq<Exception> := [
    ErrorInvalidRequest, ErrorValidationFailed, ErrorPermissionDenied, ErrorNotFound,
    ErrorAlreadyExists, ErrorRaceCondition, ErrorResourceExhausted, ErrorUnauthenticated,
    ErrorInternal, ErrorUnavailable, ErrorDeadlineExceeded, ErrorSoftError
  ]

  /** Every base error is keyed by its own class, carries an `errors.New(message)`
      cause and, since nothing sets its text, renders as the empty string. */
  lemma BaseErrorsShape()
    ensures forall e <- All :: e.Code() == e.status && e.status in StatusClasses
    ensures forall e <- All :: e.Unwrap() == GoErrors.New(e.Message()) && e.Error() == ""
  {
    forall i | 0 <= i < |All|
      ensures All[i].Code() == All[i].status && All[i].status in StatusClasses
      ensures All[i].Unwrap() == GoErrors.New(All[i].Message()) && All[i].Error() == ""
    {
      var k := [4, 5, 7, 8, 9, 10, 11, 6, 0, 1, 2, 12][i];
      assert All[i].status == StatusClasses[k];
    }
  }

  /** The fixed messages and transport mappings of two base errors. */
  lemma BaseErrorExamples()
    ensures ErrorNotFound.Message() == "Resource not found" && ErrorNotFound.HTTPStatus() == 404
    ensures ErrorSoftError.Message() == "Soft error"
    ensures ErrorSoftError.HTTPStatus() == 200 && ErrorSoftError.GRPCStatus() == "OK"
  {
  }

  /** Where each base error's class sits in `StatusClasses`. */
  const ClassIndex: seq<nat> := [4, 5, 7, 8, 9, 10, 11, 6, 0, 1, 2, 12]

  /** Every base error's class is the one `ClassIndex` points at. */
  lemma ClassesOfAll()
    ensures |All| == |ClassIndex| == 12
    ensures forall i :: 0 <= i < |All| ==> ClassIndex[i] < |StatusClasses| && All[i].status == StatusClasses[ClassIndex[i]]
  {
    forall i | 0 <= i < |All|
      ensures ClassIndex[i] < |StatusClasses| && All[i].status == StatusClasses[ClassIndex[i]]
    {
    }
  }

  /** No base error has class THIRD_PARTY. */
  lemma NoBaseErrorIsThirdParty()
    ensures forall e <- All :: e.status != CodeThirdParty
  {
    StatusClassesDistinct();
    ClassesOfAll();
    forall e <- All ensures e.status != CodeThirdParty {
      var i :| 0 <= i < |All| && All[i] == e;
      assert ClassIndex[i] != 3;
    }
  }

  /** Every class other than THIRD_PARTY has a base error. */
  lemma EveryOtherClassHasBaseError()
    ensures forall c <- StatusClasses :: c != CodeThirdParty ==> exists e <- All :: e.status == c
  {
    ClassesOfAll();
    forall c <- StatusClasses | c != CodeThirdParty ensures exists e <- All :: e.status == c {
      var i :| 0 <= i < |StatusClasses| && StatusClasses[i] == c;
      var k := [8, 9, 10, 0, 0, 1, 7, 2, 3, 4, 5, 6, 11][i];
      assert ClassIndex[k] == i;
      assert All[k].status == c;
    }
  }

  /** THIRD_PARTY is a status class that has no base error, and it is the only one. */
  lemma ThirdPartyHasNoBaseError()
    ensures CodeThirdParty in StatusClasses
    ensures forall e <- All :: e.status != CodeThirdParty
    ensures forall c <- StatusClasses :: c != CodeThirdParty ==> exists e <- All :: e.status == c
  {
    assert StatusClasses[3] == CodeThirdParty;
    NoBaseErrorIsThirdParty();
    EveryOtherClassHasBaseError();
  }
}
