/** The gRPC-style table of the older revision, a method of `codeError`. */
module LegacyGrpcAdapter {
  import opened LegacyError

  /** `codeError.GRPCStatus`: the gRPC-style name of the class; any class the switch does not name gets "UNKNOWN". */
  function GRPCStatus(e: CodeError): (name: string)
    ensures name == "OK" <==> e.status == CodeSoftError
    ensures name == "INVALID_ARGUMENT" <==> e.status == CodeInvalidRequest || e.status == CodeValidationFailed
    ensures name == "ALREADY_EXISTS" <==> e.status == CodeAlreadyExists || e.status == CodeRaceCondition
    ensures e.status == CodeThirdParty ==> name == "UNKNOWN"
  {
    var status := e.status;
    if status == CodeInternal then "INTERNAL"
    else if status == CodeInvalidRequest || status == CodeValidationFailed then "INVALID_ARGUMENT"
    else if status == CodeNotFound then "NOT_FOUND"
    else if status == CodeAlreadyExists || status == CodeRaceCondition then "ALREADY_EXISTS"
    else if status == CodeUnauthenticated then "UNAUTHENTICATED"
    else if status == CodePermissionDenied then "PERMISSION_DENIED"
    else if status == CodeResourceExhausted then "RESOURCE_EXHAUSTED"
    else if status == CodeUnavailable then "UNAVAILABLE"
    else if status == CodeDeadlineExceeded then "DEADLINE_EXCEEDED"
    else if status == CodeSoftError then "OK"
    else "UNKNOWN"
  }
}
