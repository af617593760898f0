# apihelper: error packages and HTTP envelope, in Dafny

This project models the two Go packages of `aeramu/apihelper`:

- `exception` builds errors that carry a **status class** (one of thirteen, such as
  `NOT_FOUND` or `SOFT_ERROR`), a machine-readable **code** and a human-readable
  **message**, and maps the class to an HTTP status and to a gRPC-style name.
  Both revisions are modelled side by side:
  - the current one: `code.go`, `exception.go`, `option.go`, `deprecated.go` and `standard.go`;
  - the older one: `error.go`, `http_adapter.go` and `grpc_adapter.go`.
- `httphelper` writes a JSON **envelope** (`status`, `success`, `data`, `error`) on the
  server (`OK`, `Error`). On the client it reads the envelope back as a `Response`
  (`Err`, `Code`, `Message`, `Error`, `ReadData`), under a process-wide configuration
  (`config.go`, or its twin `options.go`).

A Go `error` is modelled by what the packages observe of it: its unwrap chain
(`GoErrors.Chain`, the empty chain being `nil`). Each element records the text of
`Error()`, and the results of `Code()`, `Message()` and `HTTPStatus()` when its
dynamic type has them. `errors.As` becomes `GoErrors.As`, a search from the
outermost error inwards.

Option closures (`ErrorOption`, `Option`) are modelled as datatypes, with one
`Apply` per option and a left fold over the list. The package variables
`defaultOptions` and `defaultConfig` are fields of a `Package` class. The methods
that loop over options (`New`, `Configure`) are proved against the fold.
`Response` is a class because `Err` rewrites its error block in place. A JSON body
the client can decode is `Some(Envelope)`; an empty or undecodable body is `None`,
which yields the zero response.

Modules, one per source file:

| module | file |
|---|---|
| `Codes`, `BaseErrors` | `code.go` |
| `Exceptions` | `exception.go` |
| `ExceptionOptions` | `option.go` |
| `Deprecated` | `deprecated.go` |
| `Standard` | `standard.go` |
| `LegacyError`, `LegacyHttpAdapter`, `LegacyGrpcAdapter` | `error.go`, `http_adapter.go`, `grpc_adapter.go` |
| `Responses` | `response.go` |
| `HttpConfig`, `HttpOptions` | `config.go`, `options.go` |
| `HttpHelper` | `httphelper.go` |

Three further modules hold shared or cross-cutting material:

- `Revisions` relates the two `exception` revisions.
- `Interop` relates `exception` to `httphelper`. It also holds the end-to-end cases of the packages' tests.
- `GoErrors` and `Wrappers` hold shared definitions.

Where the packages' documented intent and their code differ, the model follows the code:

- `NewCustomError` in `deprecated.go` never sets the exception's text, so its `Error()` is
  `""`. Only the cause holds the message.
- `config.go` and `options.go` declare the same identifiers, so they cannot be built
  together. `HttpHelper.Error` reads the configuration of `config.go`. `HttpOptions`
  models the other file on its own; it differs in the option name `WithErrorDetails` and
  in having no named constants.

## Model

| member | source | states |
|---|---|---|
| GoErrors.As | httphelper/httphelper.go:46-48 | `errors.As`: the index found is the first error of the unwrap chain whose method set fits, none before it fits, and `None` means none fits |
| Codes.StatusClassesDistinct | exception/code.go:4-27 | the thirteen status classes are pairwise distinct strings |
| BaseErrors.BaseErrorsShape | exception/code.go:30-46 | every predefined error has its status class as its code, wraps `errors.New(message)`, and has empty `Error()` text |
| BaseErrors.BaseErrorExamples | exception/code.go:30-46 | `ErrorNotFound` answers 404 with message "Resource not found"; `ErrorSoftError` answers 200 and gRPC "OK" |
| BaseErrors.ClassesOfAll | exception/code.go:30-46 | each of the twelve base errors carries the status class its name says |
| BaseErrors.NoBaseErrorIsThirdParty | exception/code.go:30-46 | no base error has class THIRD_PARTY |
| BaseErrors.EveryOtherClassHasBaseError | exception/code.go:30-46 | every class other than THIRD_PARTY has a base error |
| BaseErrors.ThirdPartyHasNoBaseError | exception/code.go:30-46 | every status class except THIRD_PARTY has a predefined error, and no predefined error is THIRD_PARTY |
| Exceptions.Exception.HTTPStatus | exception/exception.go:35-62 | the status is one of the table's codes; 200 exactly for SOFT_ERROR; 409 exactly for ALREADY_EXISTS and RACE_CONDITION; 500 for an unknown class |
| Exceptions.Exception.GRPCStatus | exception/exception.go:64-89 | the name is one of the table's names; "OK" exactly for SOFT_ERROR; "INVALID_ARGUMENT" exactly for INVALID_REQUEST and VALIDATION_FAILED; "UNKNOWN" exactly for THIRD_PARTY and unknown classes |
| Exceptions.Exception.AsChain | exception/exception.go:7-32 | as an `error`, an exception answers `Error`, `Code` and `Message` with its own fields, has `HTTPStatus`, and unwraps to its cause |
| Exceptions.StatusFollowsTable | exception/exception.go:35-89 | both status methods follow one class-to-status table, with 500 and "UNKNOWN" for classes missing from it |
| Exceptions.TableCoversClasses | exception/exception.go:35-89 | the HTTP and gRPC tables cover the same classes, namely every class but THIRD_PARTY |
| Exceptions.SharedAndSoftMappings | exception/exception.go:35-89 | ALREADY_EXISTS and RACE_CONDITION share 409 and "ALREADY_EXISTS"; INVALID_REQUEST and VALIDATION_FAILED share "INVALID_ARGUMENT" but differ in HTTP (400 and 422) |
| Deprecated.NewCustomError | exception/deprecated.go:6-16 | status, code and message are kept as given; a nil cause becomes `errors.New(message)`, so the cause is never nil; `Error()` is empty |
| Deprecated.NewError | exception/deprecated.go:18-20 | the code is the status class itself; the cause is the one given, or `errors.New(message)` when it is nil; `Error()` is empty |
| Deprecated.InvalidRequest | exception/deprecated.go:22-24 | the status class is INVALID_REQUEST, code and message are the caller's; the cause is the one given, or `errors.New(message)` when it is nil, so it is never nil; `Error()` is empty |
| Deprecated.ValidationFailed | exception/deprecated.go:26-28 | the status class is VALIDATION_FAILED, code and message are the caller's; the cause is the one given, or `errors.New(message)` when it is nil, so it is never nil; `Error()` is empty |
| Deprecated.PermissionDenied | exception/deprecated.go:30-32 | the status class is PERMISSION_DENIED, code and message are the caller's; the cause is the one given, or `errors.New(message)` when it is nil, so it is never nil; `Error()` is empty |
| Deprecated.NotFound | exception/deprecated.go:34-36 | the status class is NOT_FOUND, code and message are the caller's; the cause is the one given, or `errors.New(message)` when it is nil, so it is never nil; `Error()` is empty |
| Deprecated.ThirdParty | exception/deprecated.go:38-40 | the status class is THIRD_PARTY, code and message are the caller's; the cause is the one given, or `errors.New(message)` when it is nil, so it is never nil; `Error()` is empty |
| Deprecated.AlreadyExists | exception/deprecated.go:42-44 | the status class is ALREADY_EXISTS, code and message are the caller's; the cause is the one given, or `errors.New(message)` when it is nil, so it is never nil; `Error()` is empty |
| Deprecated.SoftError | exception/deprecated.go:46-48 | the status class is SOFT_ERROR, code and message are the caller's; the cause is the one given, or `errors.New(message)` when it is nil, so it is never nil; `Error()` is empty |
| Deprecated.RaceCondition | exception/deprecated.go:50-52 | the status class is RACE_CONDITION, code and message are the caller's; the cause is the one given, or `errors.New(message)` when it is nil, so it is never nil; `Error()` is empty |
| Deprecated.ResourceExhausted | exception/deprecated.go:54-56 | the status class is RESOURCE_EXHAUSTED, code and message are the caller's; the cause is the one given, or `errors.New(message)` when it is nil, so it is never nil; `Error()` is empty |
| Deprecated.Unauthenticated | exception/deprecated.go:58-60 | the status class is UNAUTHENTICATED, code and message are the caller's; the cause is the one given, or `errors.New(message)` when it is nil, so it is never nil; `Error()` is empty |
| Deprecated.Internal | exception/deprecated.go:62-64 | the status class is INTERNAL, code and message are the caller's; the cause is the one given, or `errors.New(message)` when it is nil, so it is never nil; `Error()` is empty |
| Deprecated.Unavailable | exception/deprecated.go:66-68 | the status class is UNAVAILABLE, code and message are the caller's; the cause is the one given, or `errors.New(message)` when it is nil, so it is never nil; `Error()` is empty |
| Deprecated.DeadlineExceeded | exception/deprecated.go:70-72 | the status class is DEADLINE_EXCEEDED, code and message are the caller's; the cause is the one given, or `errors.New(message)` when it is nil, so it is never nil; `Error()` is empty |
| ExceptionOptions.Package.constructor | exception/option.go:11-14 | a fresh process starts with the defaults `WithStatus(INTERNAL)`, `WithCode(INTERNAL)` |
| ExceptionOptions.Package.SetDefaultOptions | exception/option.go:17-19 | the default list is replaced, not extended |
| ExceptionOptions.Package.New | exception/option.go:55-75 | `New` runs the defaults, then the caller's options, and then appends ": " and the cause's text when there is a cause |
| ExceptionOptions.OptionChangesOneField | exception/option.go:21-52 | each option sets exactly its own field, to its own argument, and leaves the others; only `WithArgs` rewrites the text; `WithError(nil)` changes nothing |
| ExceptionOptions.LastWriteWins | exception/option.go:55-68 | of several options setting one field, the last one decides its value |
| ExceptionOptions.Untouched | exception/option.go:55-68 | a field no option sets keeps its value through the list |
| ExceptionOptions.NoArgsKeepText | exception/option.go:48-52 | without `WithArgs` the text is never rewritten |
| ExceptionOptions.InstanceOverridesDefault | exception/option.go:55-68 | an option passed to `New` overrides the defaults for its field |
| ExceptionOptions.UnsetStaysEmpty | exception/option.go:55-68 | a field that neither defaults nor options set stays empty |
| ExceptionOptions.BuiltinDefaultsAreInternal | exception/option.go:11-14 | under the built-in defaults, an exception with no status or code option is INTERNAL/INTERNAL |
| ExceptionOptions.RenderedText | exception/option.go:70-72 | without `WithArgs`, `Error()` is the text, followed by ": " and the cause's text when there is a cause |
| ExceptionOptions.NilErrorKeepsCause | exception/option.go:21-28 | a later `WithError(nil)` does not clear a cause set earlier |
| ExceptionOptions.TestOptionsExample | exception/error_test.go:13-43 | `New("error", WithStatus(s), WithCode("TEST_CODE"), WithMessage("message"))` has exactly those fields and text "error"; SOFT_ERROR gives 200 and INVALID_REQUEST gives 400 |
| Standard.AsErrorCode | exception/standard.go:14-24 | the result is the first error of the chain with a `Code` method, and `None` means no error in the chain has one |
| Standard.ExceptionIsErrorCode | exception/standard.go:6-9 | an exception is itself an `ErrorCode`, found at the head of its chain |
| Standard.AsErrorCodeExample | exception/error_test.go:58-70 | the test's exception is found, with code "TEST_CODE" and text "error" |
| LegacyError.CodeError.AsChain | exception/error.go:51-75 | as an `error`, a `codeError` answers with its cause's text, its code and message, has no `HTTPStatus`, and unwraps to its cause |
| LegacyError.NewCustomError | exception/error.go:78-88 | fields are kept as given; a nil cause becomes `errors.New(status)`, so `Error()` is then the status class; otherwise `Error()` is the cause's text |
| LegacyError.NewError | exception/error.go:90-92 | the code is the status class; the cause is the one given, or `errors.New(status)` when it is nil; `Error()` is the cause's text |
| LegacyError.InvalidRequest | exception/error.go:94-96 | the status class is INVALID_REQUEST, code and message are the caller's; the cause is the one given, or `errors.New("INVALID_REQUEST")` when it is nil; `Error()` is the cause's text |
| LegacyError.ValidationFailed | exception/error.go:98-100 | the status class is VALIDATION_FAILED, code and message are the caller's; the cause is the one given, or `errors.New("VALIDATION_FAILED")` when it is nil; `Error()` is the cause's text |
| LegacyError.PermissionDenied | exception/error.go:102-104 | the status class is PERMISSION_DENIED, code and message are the caller's; the cause is the one given, or `errors.New("PERMISSION_DENIED")` when it is nil; `Error()` is the cause's text |
| LegacyError.NotFound | exception/error.go:106-108 | the status class is NOT_FOUND, code and message are the caller's; the cause is the one given, or `errors.New("NOT_FOUND")` when it is nil; `Error()` is the cause's text |
| LegacyError.ThirdParty | exception/error.go:110-112 | the status class is THIRD_PARTY, code and message are the caller's; the cause is the one given, or `errors.New("THIRD_PARTY")` when it is nil; `Error()` is the cause's text |
| LegacyError.AlreadyExists | exception/error.go:114-116 | the status class is ALREADY_EXISTS, code and message are the caller's; the cause is the one given, or `errors.New("ALREADY_EXISTS")` when it is nil; `Error()` is the cause's text |
| LegacyError.SoftError | exception/error.go:118-120 | the status class is SOFT_ERROR, code and message are the caller's; the cause is the one given, or `errors.New("SOFT_ERROR")` when it is nil; `Error()` is the cause's text |
| LegacyError.RaceCondition | exception/error.go:122-124 | the status class is RACE_CONDITION, code and message are the caller's; the cause is the one given, or `errors.New("RACE_CONDITION")` when it is nil; `Error()` is the cause's text |
| LegacyError.ResourceExhausted | exception/error.go:126-128 | the status class is RESOURCE_EXHAUSTED, code and message are the caller's; the cause is the one given, or `errors.New("RESOURCE_EXHAUSTED")` when it is nil; `Error()` is the cause's text |
| LegacyError.Unauthenticated | exception/error.go:130-132 | the status class is UNAUTHENTICATED, code and message are the caller's; the cause is the one given, or `errors.New("UNAUTHENTICATED")` when it is nil; `Error()` is the cause's text |
| LegacyError.Internal | exception/error.go:134-136 | the status class is INTERNAL, code and message are the caller's; the cause is the one given, or `errors.New("INTERNAL")` when it is nil; `Error()` is the cause's text |
| LegacyError.Unavailable | exception/error.go:138-140 | the status class is UNAVAILABLE, code and message are the caller's; the cause is the one given, or `errors.New("UNAVAILABLE")` when it is nil; `Error()` is the cause's text |
| LegacyError.DeadlineExceeded | exception/error.go:142-144 | the status class is DEADLINE_EXCEEDED, code and message are the caller's; the cause is the one given, or `errors.New("DEADLINE_EXCEEDED")` when it is nil; `Error()` is the cause's text |
| LegacyError.BaseErrorsRenderClass | exception/error.go:33-49 | every predefined legacy error has its status class as both its code and its `Error()` text |
| LegacyHttpAdapter.HTTPCode | exception/http_adapter.go:6-33 | the code is one of the table's; 200 exactly for SOFT_ERROR; 409 exactly for ALREADY_EXISTS and RACE_CONDITION; 400 and 422 for the two request classes |
| LegacyGrpcAdapter.GRPCStatus | exception/grpc_adapter.go:3-28 | "OK" exactly for SOFT_ERROR; "INVALID_ARGUMENT" exactly for the two request classes; "ALREADY_EXISTS" exactly for ALREADY_EXISTS and RACE_CONDITION; THIRD_PARTY is "UNKNOWN" |
| Revisions.SameStatusClasses | exception/error.go:8-31 | the older revision declares the same thirteen status classes, in the same order |
| Revisions.HTTPTablesAgree | exception/http_adapter.go:6-33 | for the same status class, the older `HTTPCode` and the current `HTTPStatus` agree |
| Revisions.GRPCTablesAgree | exception/grpc_adapter.go:3-28 | for the same status class, the two revisions' `GRPCStatus` agree |
| Revisions.NilCauseDiffers | exception/error.go:78-88 | with a nil cause, the older revision renders the status class while the current one wraps the message and renders "" |
| Responses.Normalize | httphelper/response.go:92-103 | a block with a code or a detail is kept as it is; a missing block, or one with neither, is replaced by the UNKNOWN_ERROR sentinel |
| Responses.NormalizeIdempotent | httphelper/response.go:80-103 | normalising a normalised block changes nothing, so `Err` may store what it reports |
| Responses.Response.Decoded | httphelper/response.go:14-25 | a decodable body gives its envelope; an empty or undecodable one gives the zero response |
| Responses.Response.Copy | httphelper/httphelper.go:124 | a response passed by value is an equal copy |
| Responses.Response.IsError | httphelper/response.go:44-50 | a response is an error exactly when it is not a success |
| Responses.Response.HTTPStatus | httphelper/response.go:52-54 | the status is the one the body carried |
| Responses.Response.GetError | httphelper/response.go:92-103 | no block on success; on failure a block that is always informative: the one received when informative, else the sentinel |
| Responses.Response.Error | httphelper/response.go:56-62 | empty on success; on failure the normalised block's detail, and never empty together with the code |
| Responses.Response.Code | httphelper/response.go:64-70 | empty on success; on failure the normalised block's code |
| Responses.Response.Message | httphelper/response.go:72-78 | empty on success; on failure the normalised block's message |
| Responses.Response.AsLink | httphelper/response.go:56-78 | as an `error`, a response answers `Error`, `Code`, `Message` and `HTTPStatus` with its accessors |
| Responses.Response.Err | httphelper/response.go:80-90 | nil on success; on failure the response itself as an error, with the normalised block stored back and the accessors unchanged |
| Responses.SuccessHidesErrorInfo | httphelper/response.go:56-78 | a success reports no code, message or detail, whatever block it carries |
| Responses.MissingBlockReportsSentinel | httphelper/response.go:92-103 | a failure with no block, or with neither code nor detail, reports UNKNOWN_ERROR and the unknown-detail text |
| Responses.InformativeBlockReportedVerbatim | httphelper/response.go:92-103 | a failure whose block has a code or a detail reports that block's code, message and detail |
| Responses.MessageOnlyBlockIsLost | httphelper/response.go:92-103 | a block with only a message is dropped: the client sees UNKNOWN_ERROR and an empty message |
| Responses.ZeroResponseReportsUnknown | httphelper/httphelper_test.go:147-153 | an empty or undecodable body is an error with status 0 reporting UNKNOWN_ERROR and the unknown-detail text |
| Responses.ErrTwice | httphelper/response.go:80-90 | calling `Err` again returns the same error and leaves the accessors as they were |
| HttpConfig.Package.constructor | httphelper/config.go:21-25 | a fresh process starts with INTERNAL_SERVER_ERROR, "An internal server error occurred" and details included |
| HttpConfig.Package.Configure | httphelper/config.go:49-55 | the stored configuration is the old one with the options applied in order |
| HttpConfig.OptionChangesOneField | httphelper/config.go:28-46 | each option sets exactly its own field, to its own argument, and leaves the other two |
| HttpConfig.LastWriteWins | httphelper/config.go:49-55 | of several options setting one field, the last one decides |
| HttpConfig.Untouched | httphelper/config.go:49-55 | a field no option sets keeps its value |
| HttpConfig.ConfigureComposes | httphelper/config.go:49-55 | configuring with one list and then another equals configuring with both in order, and an empty list changes nothing |
| HttpConfig.TestConfiguration | httphelper/httphelper_test.go:37-40 | the tests' configuration gives DEFAULT_ERROR, DEFAULT_MESSAGE, details still included |
| HttpOptions.Package.constructor | httphelper/options.go:14-18 | a fresh process starts with INTERNAL_SERVER_ERROR, "An internal server error occurred" and details included |
| HttpOptions.Package.Configure | httphelper/options.go:42-48 | the stored configuration is the old one with the options applied in order |
| HttpOptions.OptionChangesOneField | httphelper/options.go:21-39 | each option sets exactly its own field, to its own argument, and leaves the other two |
| HttpOptions.LastWriteWins | httphelper/options.go:42-48 | of several options setting one field, the last one decides |
| HttpOptions.Untouched | httphelper/options.go:42-48 | a field no option sets keeps its value |
| HttpOptions.ConfigureComposes | httphelper/options.go:42-48 | configuring with one list and then another equals configuring with both in order, and an empty list changes nothing |
| HttpOptions.TestConfiguration | httphelper/httphelper_test.go:37-40 | the tests' configuration gives DEFAULT_ERROR, DEFAULT_MESSAGE, details still included |
| HttpHelper.AsHTTPError | httphelper/httphelper.go:41-51 | nil gives none; otherwise the first error of the chain with `Code`, `Message` and `HTTPStatus`, and none exactly when no error in the chain has all three |
| HttpHelper.OK | httphelper/httphelper.go:59-66 | the body is a success with status 200, the payload, and no error block |
| HttpHelper.ErrorBlock | httphelper/httphelper.go:79-97 | an `HTTPError` in the chain gives its own status, code and message; anything else gives 500 and the configured code and message; the detail is the error's text only when details are included |
| HttpHelper.Error | httphelper/httphelper.go:74-105 | the written status and the body's block are those of `ErrorBlock` under the current configuration; the body is a failure with that status and no payload |
| HttpHelper.ReadData | httphelper/httphelper.go:124-157 | a failed response gives its own error; otherwise a nil payload, a payload that cannot be marshalled, and one that cannot be unmarshalled each give their error, and bytes and text go to the unmarshal as they are |
| HttpHelper.ErrorRoundTrip | httphelper/httphelper.go:74-105 | a client decoding `Error`'s body sees a failure with the same status, and the sent block when informative, else the sentinel |
| HttpHelper.OKRoundTrip | httphelper/httphelper.go:59-66 | a payload `json.Marshal` refuses leaves an empty body, which the client sees as a failure with status 0 reporting UNKNOWN_ERROR; otherwise the client sees 200 and no error, text reaches the unmarshal as it is, bytes as their base64 text, and a structured payload as the client re-marshals its decoded value |
| Interop.ExceptionIsHTTPError | httphelper/httphelper.go:30-51 | an exception is an `HTTPError`, found at the head of its chain with its own HTTP status |
| Interop.LegacyErrorIsSkipped | httphelper/httphelper.go:41-51 | a legacy `codeError` is not an `HTTPError`, so the search continues into its cause |
| Interop.GenericErrorScenario | httphelper/httphelper_test.go:161-168 | `errors.New("some error")` reaches the client as 500, DEFAULT_ERROR, DEFAULT_MESSAGE and detail "some error" |
| Interop.ExceptionErrorScenario | httphelper/httphelper_test.go:169-176 | `InvalidRequest("TEST_ERROR", "TEST_MESSAGE", ...)` reaches the client as 400 with its code and message and its empty text |
| Interop.LegacyErrorScenario | httphelper/httphelper.go:89-97 | a legacy `NotFound` with a nil cause reaches the client as 500 with the configured code and message, and detail NOT_FOUND |
| Interop.NewAsHTTPErrorScenario | exception/error_test.go:13-43 | `errors.As` finds the exception `New` built, with code "TEST_CODE", message "message", text "error", and 200 or 400 for SOFT_ERROR or INVALID_REQUEST |

## Left out

- JSON encoding and decoding, HTTP headers and the `ResponseWriter`: a body is either a decoded `Envelope` or undecodable. `w.WriteHeader` panics on a status outside 100-999, which `HttpHelper.Error` can be handed (for example a client-side `Response` decoded from an empty body, whose `HTTPStatus()` is 0); the model returns that status instead of modelling the panic.
- In `HttpHelper.OKRoundTrip` the wire is modelled for the payload only, through the parameters `base64` and `decodeAny`; strings are assumed to be valid UTF-8 (the encoder would replace invalid bytes), a nil `[]byte` (encoded as `null`) is not told apart from an empty one, and `HttpHelper.ErrorRoundTrip` takes the error block to cross the wire unchanged. The Go types of a decoded payload (maps, numbers) are reduced to `Data`: nil, raw bytes, text, or a value known only by its `json.Marshal` result.
- `json.Unmarshal` into `T` is the function parameter `unmarshal` of `HttpHelper.ReadData`. The zero or partly filled `T` that `ReadData` returns alongside an error is not modelled; only the error is.
- `fmt.Sprintf` in `WithArgs` is the function parameter `sprintf`, because formatting verbs are not modelled.
- `errors.As` follows a single unwrap chain. Multi-error unwrapping (`Unwrap() []error`) and `As` methods on errors are not modelled, because neither package uses them.
- `HttpHelper.Error`: with a nil error and details included, the Go code panics on `err.Error()`. The model excludes that call with a precondition instead of modelling the panic.
- `Responses.Response.Err`: its branch for a failed response with no block is omitted, because `getError` never returns nil on failure and the branch is unreachable.
- `exception.Wrap` and `errors.Is`, exercised by the package's tests, are not part of this model.
- The package variables `defaultOptions` and `defaultConfig` are read and written without synchronisation in Go. Concurrent access is not modelled.
- Error wrapping with `fmt.Errorf("...: %w", err)` in `ReadData` is reduced to the `ReadError` cases. The wrapped marshal and unmarshal errors' texts are not kept.
