/** How the two revisions of package `exception` relate, for values of the same class. */
module Revisions {
  import opened GoErrors
  import Codes
  import Exceptions
  import Deprecated
  import LegacyError
  import LegacyHttpAdapter
  import LegacyGrpcAdapter

  /** Both revisions declare the same thirteen class strings. */
  lemma SameStatusClasses()
    ensures LegacyError.CodeInternal == Codes.CodeInternal
    ensures LegacyError.CodeThirdParty == Codes.CodeThirdParty
    ensures LegacyError.CodeSoftError == Codes.CodeSoftError
    ensures [LegacyError.CodeInternal, LegacyError.CodeUnavailable, LegacyError.CodeDeadlineExceeded,
             LegacyError.CodeThirdParty, LegacyError.CodeInvalidRequest, LegacyError.CodeValidationFailed,
             LegacyError.CodeUnauthenticated, LegacyError.CodePermissionDenied, LegacyError.CodeNotFound,
             LegacyError.CodeAlreadyExists, LegacyError.CodeRaceCondition, LegacyError.CodeResourceExhausted,
             LegacyError.CodeSoftError] == Codes.StatusClasses
  {
  }

  /** The two HTTP tables agree on every status string. */
  lemma HTTPTablesAgree(older: LegacyError.CodeError, current: Exceptions.Exception)
    requires older.status == current.status
    ensures LegacyHttpAdapter.HTTPCode(older) == current.HTTPStatus()
  {
  }

  /** The two gRPC-style tables agree on every status string. */
  lemma GRPCTablesAgree(older: LegacyError.CodeError, current: Exceptions.Exception)
    requires older.status == current.status
    ensures LegacyGrpcAdapter.GRPCStatus(older) == current.GRPCStatus()
  {
  }

  /** With a nil cause, the older revision wraps the class text, the current one the message;
      the older one renders as that text, the current one as "". */
  lemma NilCauseDiffers(status: string, code: string, message: string)
    ensures LegacyError.NewCustomError(status, code, message, []).Error() == status
    ensures Deprecated.NewCustomError(status, code, message, []).Unwrap()[0].text == message
    ensures Deprecated.NewCustomError(status, code, message, []).Error() == ""
  {
  }
}
