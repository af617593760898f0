/** The classified error value of package `exception` (current revision) and its transport tables. */
module Exceptions {
  import opened Wrappers
  import opened GoErrors
  import opened Codes

  /** The HTTP codes a status class can map to. */
  const HttpCodes: set<int> := {200, 400, 401, 403, 404, 409, 422, 429, 500, 503, 504}

  /** The gRPC-style names a status class can map to. */
  const GrpcNames: set<string> := {
    "INTERNAL", "INVALID_ARGUMENT", "NOT_FOUND", "ALREADY_EXISTS", "UNAUTHENTICATED",
    "PERMISSION_DENIED", "RESOURCE_EXHAUSTED", "UNAVAILABLE", "DEADLINE_EXCEEDED", "OK", "UNKNOWN"
  }

  /**
   * `exception`: the rendered text `s`, the wrapped cause (`[]` is nil), the
   * status class, the machine code and the human message.
   */
  datatype Exception = Exception(s: string, cause: Chain, status: string, code: string, message: string)
  {
    function Error(): string { s }

    function Code(): string { code }

    function Message(): string { message }

    function Unwrap(): Chain { cause }

    /** The HTTP status of the class; any class the switch does not name gets 500. */
    function HTTPStatus(): (httpCode: int)
      ensures httpCode in HttpCodes
      ensures httpCode == 200 <==> status == CodeSoftError
      ensures httpCode == 409 <==> status == CodeAlreadyExists || status == CodeRaceCondition
      ensures status !in StatusClasses ==> httpCode == 500
    {
      if status == CodeInternal then 500
      else if status == CodeInvalidRequest then 400
      else if status == CodeValidationFailed then 422
      else if status == CodeNotFound then 404
      else if status == CodeAlreadyExists || status == CodeRaceCondition then 409
      else if status == CodeUnauthenticated then 401
      else if status == CodePermissionDenied then 403
      else if status == CodeResourceExhausted then 429
      else if status == CodeUnavailable then 503
      else if status == CodeDeadlineExceeded then 504
      else if status == CodeSoftError then 200
      else 500
    }

    /** The gRPC-style status name of the class; any class the switch does not name gets "UNKNOWN". */
    function GRPCStatus(): (name: string)
      ensures name in GrpcNames
      ensures name == "OK" <==> status == CodeSoftError
      ensures name == "INVALID_ARGUMENT" <==> status == CodeInvalidRequest || status == CodeValidationFailed
      ensures name == "UNKNOWN" <==> status !in StatusClasses || status == CodeThirdParty
    {
      if status == CodeInternal then "INTERNAL"
      else if status == CodeInvalidRequest || status == CodeValidationFailed then "INVALID_ARGUMENT"
      else if status == CodeNotFound then "NOT_FOUND"
      else if status == CodeAlreadyExists || status == CodeRaceCondition then "ALREADY_EXISTS"
      else if status == CodeUnauthenticated then "UNAUTHENTICATED"
      else if status == CodePermissionDenied then "PERMISSION_DENIED"
      else if status == CodeResourceExhausted then "RESOURCE_EXHAUSTED"
      else if status == CodeUnavailable then "UNAVAILABLE"
      else if status == CodeDeadlineExceeded then "DEADLINE_EXCEEDED"
      else if status == CodeSoftError then "OK"
      else "UNKNOWN"
    }

    /** The value as an `error`: it answers `Error`, `Code`, `Message` and `HTTPStatus`, and unwraps to its cause. */
    function AsChain(): (err: Chain)
      ensures |err| == |cause| + 1 && err[1..] == Unwrap()
      ensures err[0].text == Error()
      ensures err[0].code == Some(Code()) && err[0].message == Some(Message())
      ensures err[0].httpStatus == Some(HTTPStatus())
    {
      [Link(s, Some(code), Some(message), Some(HTTPStatus()))] + cause
    }
  }

  /** The HTTP column of the status table, written as a map from class to code. */
  const HttpTable: map<string, int> := map[
    CodeInternal := 500, CodeInvalidRequest := 400, CodeValidationFailed := 422,
    CodeNotFound := 404, CodeAlreadyExists := 409, CodeRaceCondition := 409,
    CodeUnauthenticated := 401, CodePermissionDenied := 403, CodeResourceExhausted := 429,
    CodeUnavailable := 503, CodeDeadlineExceeded := 504, CodeSoftError := 200
  ]

  /** The gRPC-style column of the status table, written as a map from class to name. */
  const GrpcTable: map<string, string> := map[
    CodeInternal := "INTERNAL", CodeInvalidRequest := "INVALID_ARGUMENT",
    CodeValidationFailed := "INVALID_ARGUMENT", CodeNotFound := "NOT_FOUND",
    CodeAlreadyExists := "ALREADY_EXISTS", CodeRaceCondition := "ALREADY_EXISTS",
    CodeUnauthenticated := "UNAUTHENTICATED", CodePermissionDenied := "PERMISSION_DENIED",
    CodeResourceExhausted := "RESOURCE_EXHAUSTED", CodeUnavailable := "UNAVAILABLE",
    CodeDeadlineExceeded := "DEADLINE_EXCEEDED", CodeSoftError := "OK"
  ]

  /** Both switches agree with the table: a listed class gets its entry, any other string 500 and "UNKNOWN". */
  lemma StatusFollowsTable(e: Exception)
    ensures e.HTTPStatus() == if e.status in HttpTable then HttpTable[e.status] else 500
    ensures e.GRPCStatus() == if e.status in GrpcTable then GrpcTable[e.status] else "UNKNOWN"
  {
    StatusClassesDistinct();
    var c := e.status;
    if c in StatusClasses {
      var i :| 0 <= i < |StatusClasses| && StatusClasses[i] == c;
      if i == 3 {
        assert c !in HttpTable && c !in GrpcTable;
      } else {
        assert c in HttpTable && c in GrpcTable;
      }
    } else {
      assert c !in HttpTable && c !in GrpcTable;
    }
  }

  /** The table lists every class but THIRD_PARTY. */
  lemma TableCoversClasses()
    ensures HttpTable.Keys == GrpcTable.Keys
    ensures forall c <- StatusClasses :: c in HttpTable <==> c != CodeThirdParty
  {
  }

  /** The classes that share a mapping, and SOFT_ERROR as the only success-range class. */
  lemma SharedAndSoftMappings(e: Exception, f: Exception)
    ensures e.status == CodeAlreadyExists && f.status == CodeRaceCondition ==>
      e.HTTPStatus() == f.HTTPStatus() == 409 && e.GRPCStatus() == f.GRPCStatus() == "ALREADY_EXISTS"
    ensures e.status == CodeInvalidRequest && f.status == CodeValidationFailed ==>
      e.GRPCStatus() == f.GRPCStatus() == "INVALID_ARGUMENT" && e.HTTPStatus() == 400 && f.HTTPStatus() == 422
    ensures e.status == CodeThirdParty ==> e.HTTPStatus() == 500 && e.GRPCStatus() == "UNKNOWN"
    ensures e.HTTPStatus() == 200 <==> e.GRPCStatus() == "OK"
  {
  }
}
