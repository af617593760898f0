/** Building envelopes on the server and reading payloads on the client (package `httphelper`). */
module HttpHelper {
  import opened Wrappers
  import opened GoErrors
  import opened Responses
  import HttpConfig

  const StatusOK := 200
  const StatusInternalServerError := 500

  /** `HTTPError` asks for `Error()`, `HTTPStatus()`, `Message()` and `Code()`. */
  predicate IsHTTPError(l: Link) {
    l.code.Some? && l.message.Some? && l.httpStatus.Some?
  }

  /** `AsHTTPError`: the outermost error of the chain that is an `HTTPError`, if any. */
  function AsHTTPError(err: Chain): (r: Option<Link>)
    ensures err == [] ==> r.None?
    ensures r.None? <==> forall j :: 0 <= j < |err| ==> !IsHTTPError(err[j])
    ensures r.Some? ==> IsHTTPError(r.value)
    ensures r.Some? ==> exists k :: 0 <= k < |err| && err[k] == r.value &&
                                    forall j :: 0 <= j < k ==> !IsHTTPError(err[j])
  {
    if err == [] then None
    else match As(err, IsHTTPError)
      case None => None
      case Some(k) => Some(err[k])
  }

  /** The body `OK` encodes: a success at 200 carrying the payload and no error block. */
  function OK(data: Data): (r: Envelope)
    ensures r.status == StatusOK && r.success && r.data == data && r.errorInfo.None?
  {
    Envelope(StatusOK, true, data, None)
  }

  /** The block `Error` sends, and the status it writes, for `err` under configuration `cfg`:
      an `HTTPError` in the chain speaks for itself, anything else gets the configured defaults
      at 500; the detail is the error's text only when details are included. */
  function ErrorBlock(cfg: HttpConfig.Config, err: Chain): (r: (int, ErrorInfo))
    requires err != [] || !cfg.includeDetails
    ensures AsHTTPError(err).Some? ==> r.0 == AsHTTPError(err).value.httpStatus.value
    ensures AsHTTPError(err).Some? ==> r.1.code == AsHTTPError(err).value.code.value
    ensures AsHTTPError(err).Some? ==> r.1.message == AsHTTPError(err).value.message.value
    ensures AsHTTPError(err).Some? && cfg.includeDetails ==> r.1.detail == AsHTTPError(err).value.text
    ensures AsHTTPError(err).None? ==> r.0 == StatusInternalServerError
    ensures AsHTTPError(err).None? ==> r.1.code == cfg.defaultErrorCode && r.1.message == cfg.defaultErrorMessage
    ensures AsHTTPError(err).None? && cfg.includeDetails ==> r.1.detail == err[0].text
    ensures !cfg.includeDetails ==> r.1.detail == ""
    ensures r.1.details == Null
  {
    match AsHTTPError(err)
    case Some(h) =>
      (h.httpStatus.value, ErrorInfo(h.code.value, h.message.value, if cfg.includeDetails then h.text else "", Null))
    case None =>
      (StatusInternalServerError,
       ErrorInfo(cfg.defaultErrorCode, cfg.defaultErrorMessage, if cfg.includeDetails then err[0].text else "", Null))
  }

  /** `Error`: the status written to the header and the body encoded after it, built
      step by step from the package's current configuration. A nil `err` is allowed
      only while details are off, since otherwise its `Error()` would be called. */
  method Error(pkg: HttpConfig.Package, err: Chain) returns (httpStatus: int, body: Envelope)
    requires err != [] || !pkg.defaultConfig.includeDetails
    ensures body.status == httpStatus && !body.success && body.data == Null && body.errorInfo.Some?
    ensures (httpStatus, body.errorInfo.value) == ErrorBlock(pkg.defaultConfig, err)
  {
    var errInfo: ErrorInfo;
    var found := AsHTTPError(err);
    if found.Some? {
      var httpErr := found.value;
      errInfo := ErrorInfo(httpErr.code.value, httpErr.message.value, "", Null);
      if pkg.defaultConfig.includeDetails {
        errInfo := errInfo.(detail := httpErr.text);
      }
      httpStatus := httpErr.httpStatus.value;
    } else {
      errInfo := ErrorInfo(pkg.defaultConfig.defaultErrorCode, pkg.defaultConfig.defaultErrorMessage, "", Null);
      if pkg.defaultConfig.includeDetails {
        errInfo := errInfo.(detail := err[0].text);
      }
      httpStatus := StatusInternalServerError;
    }
    body := Envelope(httpStatus, false, Null, Some(errInfo));
  }

  /** Why `ReadData` gave no value. */
  datatype ReadError =
    | ResponseFailed(err: Link)   // the response's own `Err()`
    | DataNil                     // "response data is nil"
    | MarshalFailed               // "failed to marshal response data"
    | UnmarshalFailed             // "failed to unmarshal response data"

  datatype ReadResult<T> = Read(value: T) | Failed(error: ReadError)

  /** The outcome of the final unmarshal step, given what `unmarshal` made of the bytes. */
  ghost predicate Unmarshalled<T>(res: ReadResult<T>, parsed: Option<T>) {
    if parsed.Some? then res == Read(parsed.value) else res == Failed(UnmarshalFailed)
  }

  /** What `ReadData` makes of the payload of a successful response: a nil payload is an
      error, bytes and text are unmarshalled as they are, and any other payload is
      marshalled first. */
  ghost predicate Extracted<T>(res: ReadResult<T>, data: Data, unmarshal: seq<byte> -> Option<T>) {
    match data
    case Null => res == Failed(DataNil)
    case Bytes(b) => Unmarshalled(res, unmarshal(b))
    case Text(b) => Unmarshalled(res, unmarshal(b))
    case Structured(m) => if m.None? then res == Failed(MarshalFailed) else Unmarshalled(res, unmarshal(m.value))
  }

  /** `ReadData`: first the response's own error, then a nil payload, then raw bytes or
      text used as they are or any other payload marshalled, and finally the unmarshal
      (`unmarshal` stands for `json.Unmarshal` into `T`). The response is passed by value. */
  method ReadData<T>(r: Response, unmarshal: seq<byte> -> Option<T>) returns (res: ReadResult<T>)
    ensures r.IsError() ==> res == Failed(ResponseFailed(r.AsLink()))
    ensures r.IsSuccess() && r.data.Null? ==> res == Failed(DataNil)
    ensures r.IsSuccess() && (r.data.Bytes? || r.data.Text?) ==> Unmarshalled(res, unmarshal(r.data.bytes))
    ensures r.IsSuccess() && r.data.Structured? && r.data.marshalled.None? ==> res == Failed(MarshalFailed)
    ensures r.IsSuccess() && r.data.Structured? && r.data.marshalled.Some? ==> Unmarshalled(res, unmarshal(r.data.marshalled.value))
  {
    var copy := new Response.Copy(r);
    var err := copy.Err();
    if err != [] {
      return Failed(ResponseFailed(err[0]));
    }
    var jsonBytes: seq<byte>;
    match copy.data {
      case Null =>
        return Failed(DataNil);
      case Bytes(b) =>
        jsonBytes := b;
      case Text(b) =>
        jsonBytes := b;
      case Structured(m) =>
        if m.None? {
          return Failed(MarshalFailed);
        }
        jsonBytes := m.value;
    }
    var parsed := unmarshal(jsonBytes);
    if parsed.None? {
      return Failed(UnmarshalFailed);
    }
    res := Read(parsed.value);
  }

  /** What the client makes of a block the server sent: an informative block comes back
      field for field, anything else as the sentinel. */
  predicate Reported(sent: ErrorInfo, code: string, message: string, detail: string) {
    if Informative(sent) then code == sent.code && message == sent.message && detail == sent.detail
    else code == UnknownError && message == "" && detail == UnknownDetail
  }

  /** A server answers `Error(err)`, the body reaches the client intact, and the client calls
      `Err`, `Code`, `Message` and `Error` on what it decoded. */
  method ErrorRoundTrip(pkg: HttpConfig.Package, err: Chain) returns (status: int, failed: bool, code: string, message: string, detail: string)
    requires err != [] || !pkg.defaultConfig.includeDetails
    ensures failed
    ensures status == ErrorBlock(pkg.defaultConfig, err).0
    ensures Reported(ErrorBlock(pkg.defaultConfig, err).1, code, message, detail)
  {
    var body;
    status, body := Error(pkg, err);
    var client := new Response.Decoded(Some(body));
    var clientErr := client.Err();
    failed := clientErr != [];
    code, message, detail := client.Code(), client.Message(), client.Error();
  }

  /** How `json.NewEncoder(w).Encode` and the client's decoder carry the payload of an `OK`
      body, as the client's `Data` sees it. `base64` is the JSON encoding of a `[]byte` as a
      string; `decodeAny(m)` is what decoding the JSON text `m` into an `any` gives. `None`
      means `json.Marshal` refused the payload, so nothing was written and the body is empty. */
  function Transmit(data: Data, base64: seq<byte> -> seq<byte>, decodeAny: seq<byte> -> Data): Option<Data> {
    match data
    case Null => Some(Null)
    case Bytes(b) => Some(Text(base64(b)))
    case Text(b) => Some(Text(b))
    case Structured(m) => if m.None? then None else Some(decodeAny(m.value))
  }

  /** A server answers `OK(data)`, the body crosses the wire, and the client checks `Err` and
      reads the payload. A payload that cannot be marshalled leaves an empty body, which the
      client sees as a failure with status 0 reporting the unknown-error sentinel. Otherwise
      there is no error; text reaches the unmarshal as it is, bytes as their base64 text, and
      any other payload as whatever the client re-marshals from its decoded value. */
  method OKRoundTrip<T>(data: Data, base64: seq<byte> -> seq<byte>, decodeAny: seq<byte> -> Data,
                        unmarshal: seq<byte> -> Option<T>)
      returns (status: int, failed: bool, res: ReadResult<T>)
    ensures data.Structured? && data.marshalled.None? ==>
      status == 0 && failed && res.Failed? && res.error.ResponseFailed? &&
      res.error.err.code == Some(UnknownError) && res.error.err.text == UnknownDetail
    ensures !(data.Structured? && data.marshalled.None?) ==> status == StatusOK && !failed
    ensures data.Null? ==> res == Failed(DataNil)
    ensures data.Text? ==> Unmarshalled(res, unmarshal(data.bytes))
    ensures data.Bytes? ==> Unmarshalled(res, unmarshal(base64(data.bytes)))
    ensures data.Structured? && data.marshalled.Some? ==> Extracted(res, decodeAny(data.marshalled.value), unmarshal)
  {
    var body := OK(data);
    var sent := Transmit(body.data, base64, decodeAny);
    var client := new Response.Decoded(if sent.Some? then Some(body.(data := sent.value)) else None);
    status := client.HTTPStatus();
    res := ReadData(client, unmarshal);
    var clientErr := client.Err();
    failed := clientErr != [];
  }
}
