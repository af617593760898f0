/**
 * How the two packages meet: which errors `httphelper` recognises as `HTTPError`,
 * and what a client sees end to end for the errors the packages' own tests send.
 */
module Interop {
  import opened Wrappers
  import opened GoErrors
  import opened Codes
  import Exceptions
  import Deprecated
  import ExceptionOptions
  import LegacyError
  import HttpConfig
  import HttpHelper

  /** An `*Exception` has `Code`, `Message` and `HTTPStatus`, so `AsHTTPError` stops at it
      and reports its own status. */
  lemma ExceptionIsHTTPError(e: Exceptions.Exception)
    ensures HttpHelper.AsHTTPError(e.AsChain()) == Some(e.AsChain()[0])
    ensures e.AsChain()[0].httpStatus == Some(e.HTTPStatus())
  {
    assert HttpHelper.IsHTTPError(e.AsChain()[0]);
  }

  /** A legacy `codeError` has no `HTTPStatus` method, so `AsHTTPError` looks straight
      past it into what it wraps. */
  lemma {:induction false} LegacyErrorIsSkipped(e: LegacyError.CodeError)
    requires e.cause != []
    ensures HttpHelper.AsHTTPError(e.AsChain()) == HttpHelper.AsHTTPError(e.Unwrap())
  {
    var chain := e.AsChain();
    assert !HttpHelper.IsHTTPError(chain[0]);
    assert chain[1..] == e.Unwrap();
  }

  /** The configuration the `httphelper` tests install before every case. */
  const TestOptions := [HttpConfig.WithDefaultErrorCode("DEFAULT_ERROR"), HttpConfig.WithDefaultErrorMessage("DEFAULT_MESSAGE")]

  /** A plain `errors.New("some error")` answered through `Error`: 500, the configured
      code and message, and the error's text as the detail. */
  method GenericErrorScenario() returns (status: int, failed: bool, code: string, message: string, detail: string)
    ensures status == 500 && failed
    ensures code == "DEFAULT_ERROR" && message == "DEFAULT_MESSAGE" && detail == "some error"
  {
    var pkg := new HttpConfig.Package();
    pkg.Configure(TestOptions);
    assert TestOptions[..1] == [TestOptions[0]] && [TestOptions[0]][..0] == [];
    var errGeneric := GoErrors.New("some error");
    status, failed, code, message, detail := HttpHelper.ErrorRoundTrip(pkg, errGeneric);
  }

  /** `InvalidRequest("TEST_ERROR", "TEST_MESSAGE", errors.New("some error"))` answered through
      `Error`: 400, and the code, message and (empty) text of the exception itself. */
  method ExceptionErrorScenario() returns (status: int, failed: bool, code: string, message: string, detail: string)
    ensures status == 400 && failed
    ensures code == "TEST_ERROR" && message == "TEST_MESSAGE" && detail == ""
  {
    var pkg := new HttpConfig.Package();
    pkg.Configure(TestOptions);
    assert TestOptions[..1] == [TestOptions[0]] && [TestOptions[0]][..0] == [];
    var errException := Deprecated.InvalidRequest("TEST_ERROR", "TEST_MESSAGE", GoErrors.New("some error"));
    ExceptionIsHTTPError(errException);
    status, failed, code, message, detail := HttpHelper.ErrorRoundTrip(pkg, errException.AsChain());
  }

  /** A legacy `NotFound("USER_NOT_FOUND", ...)` with a nil cause answered through `Error`
      under the built-in configuration: it is not an `HTTPError`, so the client gets 500,
      the configured code, and the status class as the detail. */
  method LegacyErrorScenario() returns (status: int, failed: bool, code: string, message: string, detail: string)
    ensures status == 500 && failed
    ensures code == HttpConfig.InternalServerError && message == HttpConfig.InternalServerMessage
    ensures detail == "NOT_FOUND"
  {
    var pkg := new HttpConfig.Package();
    var legacy := LegacyError.NotFound("USER_NOT_FOUND", "User not found", []);
    LegacyErrorIsSkipped(legacy);
    status, failed, code, message, detail := HttpHelper.ErrorRoundTrip(pkg, legacy.AsChain());
  }

  /** `errors.As(err, &httpErr)` on an exception built by `New` with a status, a code and a
      message: the exception itself is found, and its HTTP status follows the status class. */
  method NewAsHTTPErrorScenario(status: string, sprintf: ExceptionOptions.Sprintf) returns (found: Option<Link>)
    ensures found.Some?
    ensures found.value.code == Some("TEST_CODE") && found.value.message == Some("message")
    ensures found.value.text == "error"
    ensures status == CodeSoftError ==> found.value.httpStatus == Some(200)
    ensures status == CodeInvalidRequest ==> found.value.httpStatus == Some(400)
  {
    var pkg := new ExceptionOptions.Package();
    var opts := [ExceptionOptions.WithStatus(status), ExceptionOptions.WithCode("TEST_CODE"), ExceptionOptions.WithMessage("message")];
    var err := pkg.New("error", opts, sprintf);
    ExceptionOptions.TestOptionsExample(status, sprintf);
    ExceptionIsHTTPError(err);
    found := HttpHelper.AsHTTPError(err.AsChain());
  }
}
