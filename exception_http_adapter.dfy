/** The HTTP table of the older revision, a method of `codeError`. */
module LegacyHttpAdapter {
  import opened LegacyError

  /** `codeError.HTTPCode`: the HTTP status of the class; any class the switch does not name gets 500. */
  function HTTPCode(e: CodeError): (httpCode: int)
    ensures httpCode in {200, 400, 401, 403, 404, 409, 422, 429, 500, 503, 504}
    ensures httpCode == 200 <==> e.status == CodeSoftError
    ensures httpCode == 409 <==> e.status == CodeAlreadyExists || e.status == CodeRaceCondition
    ensures e.status == CodeInvalidRequest ==> httpCode == 400
    ensures e.status == CodeValidationFailed ==> httpCode == 422
  {
    var status := e.status;
    if status == CodeInternal then 500
    else if status == CodeInvalidRequest then 400
    else if status == CodeValidationFailed then 422
    else if status == CodeNotFound then 404
    else if status == CodeAlreadyExists || status == CodeRaceCondition then 409
    else if status == CodeUnauthenticated then 401
    else if status == CodePermissionDenied then 403
    else if status == CodeResourceExhausted then 429
    else if status == CodeUnavailable then 503
    else if status == CodeDeadlineExceeded then 504
    else if status == CodeSoftError then 200
    else 500
  }
}
