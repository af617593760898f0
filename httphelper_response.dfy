/** The response envelope of package `httphelper` and its decode-side normalisation. */
module Responses {
  import opened Wrappers
  import opened GoErrors

  newtype byte = x: int | 0 <= x < 256

  /** The code substituted when a failed response carries no usable error block. */
  const UnknownError := "UNKNOWN_ERROR"

  /** The detail substituted alongside `UnknownError`. */
  const UnknownDetail := "Request failed without error details. This may be due to malformed JSON, invalid JSON format, or empty response body"

  /**
   * An untyped `any` slot (`Data`, `Details`): nil, a `[]byte`, a Go string
   * (its bytes), or any other value, which this model knows only by what
   * `json.Marshal` makes of it (`None` when marshalling fails).
   */
  datatype Data = Null | Bytes(bytes: seq<byte>) | Text(bytes: seq<byte>) | Structured(marshalled: Option<seq<byte>>)

  /** `ErrorInfo`: machine code, human message, technical detail and untyped extra details. */
  datatype ErrorInfo = ErrorInfo(code: string, message: string, detail: string, details: Data)

  /** The value of a `Response` struct: what a server encodes and what a client decodes. */
  datatype Envelope = Envelope(status: int, success: bool, data: Data, errorInfo: Option<ErrorInfo>)

  /** The `Response` a client holds after an empty or undecodable body. */
  const ZeroEnvelope := Envelope(0, false, Null, None)

  /** The block `getError` substitutes. */
  const Sentinel := ErrorInfo(UnknownError, "", UnknownDetail, Null)

  /** A block is kept only when it has a code or a detail; a message alone does not count. */
  predicate Informative(info: ErrorInfo) {
    info.code != "" || info.detail != ""
  }

  /** The failure branch of `getError`: an informative block as it is, anything else replaced by the sentinel. */
  function Normalize(info: Option<ErrorInfo>): (r: ErrorInfo)
    ensures Informative(r)
    ensures info.Some? && Informative(info.value) ==> r == info.value
    ensures !(info.Some? && Informative(info.value)) ==> r == Sentinel
  {
    if info.None? || (info.value.code == "" && info.value.detail == "") then Sentinel
    else info.value
  }

  /** Normalising twice is normalising once, so `Err` can write its result back without changing what it reports. */
  lemma NormalizeIdempotent(info: Option<ErrorInfo>)
    ensures Normalize(Some(Normalize(info))) == Normalize(info)
  {
  }

  /** `Response`: a decoded envelope that `Err` may normalise in place. */
  class Response {
    var status: int
    var success: bool
    var data: Data
    var errorInfo: Option<ErrorInfo>

    /** Decoding a body: a decodable one gives its envelope, an empty or undecodable one the zero value. */
    constructor Decoded(body: Option<Envelope>)
      ensures Value() == if body.Some? then body.value else ZeroEnvelope
    {
      var v := if body.Some? then body.value else ZeroEnvelope;
      status, success, data, errorInfo := v.status, v.success, v.data, v.errorInfo;
    }

    /** The copy made when a `Response` is passed by value. */
    constructor Copy(other: Response)
      ensures Value() == other.Value()
    {
      status, success, data, errorInfo := other.status, other.success, other.data, other.errorInfo;
    }

    function Value(): Envelope
      reads this
    {
      Envelope(status, success, data, errorInfo)
    }

    function IsSuccess(): bool
      reads this
    {
      success
    }

    function IsError(): (failed: bool)
      reads this
      ensures failed == !IsSuccess()
    {
      !success
    }

    function HTTPStatus(): (httpStatus: int)
      reads this
      ensures httpStatus == Value().status
    {
      status
    }

    /** `getError`: nothing on success, whatever `ErrorInfo` says; otherwise the normalised block. */
    function GetError(): (info: Option<ErrorInfo>)
      reads this
      ensures info.None? <==> IsSuccess()
      ensures info.Some? ==> Informative(info.value)
      ensures info.Some? && errorInfo.Some? && Informative(errorInfo.value) ==> info == errorInfo
      ensures IsError() && !(errorInfo.Some? && Informative(errorInfo.value)) ==> info == Some(Sentinel)
    {
      if IsSuccess() then None else Some(Normalize(errorInfo))
    }

    /** The detail of the normalised block, or "" on success. */
    function Error(): (detail: string)
      reads this
      ensures IsSuccess() ==> detail == ""
      ensures IsError() ==> detail == Normalize(errorInfo).detail
      ensures IsError() && detail == "" ==> Code() != ""
    {
      var info := GetError();
      if info.None? then "" else info.value.detail
    }

    /** The code of the normalised block, or "" on success. */
    function Code(): (code: string)
      reads this
      ensures IsSuccess() ==> code == ""
      ensures IsError() ==> code == Normalize(errorInfo).code
    {
      var info := GetError();
      if info.None? then "" else info.value.code
    }

    /** The message of the normalised block, or "" on success. */
    function Message(): (message: string)
      reads this
      ensures IsSuccess() ==> message == ""
      ensures IsError() ==> message == Normalize(errorInfo).message
    {
      var info := GetError();
      if info.None? then "" else info.value.message
    }

    /** A `*Response` seen as an `error`: it has `Error`, `Code`, `Message` and `HTTPStatus`. */
    function AsLink(): (l: Link)
      reads this
      ensures l.text == Error() && l.code == Some(Code()) && l.message == Some(Message())
      ensures l.httpStatus == Some(HTTPStatus())
    {
      Link(Error(), Some(Code()), Some(Message()), Some(status))
    }

    /** `Err`: nil on success; otherwise stores the normalised block and returns the response itself. */
    method Err() returns (err: Chain)
      modifies this`errorInfo
      ensures old(success) ==> err == [] && errorInfo == old(errorInfo)
      ensures !old(success) ==> errorInfo == Some(Normalize(old(errorInfo))) && err == [AsLink()]
      ensures Code() == old(Code()) && Message() == old(Message()) && Error() == old(Error())
    {
      if IsSuccess() {
        return [];
      }
      var info := GetError();
      errorInfo := info;
      err := [AsLink()];
    }
  }

  /** On success nothing is reported, however populated `ErrorInfo` is. */
  lemma SuccessHidesErrorInfo(r: Response)
    requires r.success
    ensures r.GetError().None?
    ensures r.Code() == "" && r.Message() == "" && r.Error() == ""
  {
  }

  /** A failed response without a block, or whose block has neither code nor detail, reports the sentinel. */
  lemma MissingBlockReportsSentinel(r: Response)
    requires !r.success
    requires r.errorInfo.None? || (r.errorInfo.value.code == "" && r.errorInfo.value.detail == "")
    ensures r.Code() == UnknownError && r.Error() == UnknownDetail && r.Message() == ""
  {
  }

  /** A failed response whose block has a code or a detail reports that block verbatim. */
  lemma InformativeBlockReportedVerbatim(r: Response)
    requires !r.success && r.errorInfo.Some?
    requires r.errorInfo.value.code != "" || r.errorInfo.value.detail != ""
    ensures r.Code() == r.errorInfo.value.code
    ensures r.Message() == r.errorInfo.value.message
    ensures r.Error() == r.errorInfo.value.detail
  {
  }

  /** A message without code or detail is dropped: the client sees the sentinel's empty message. */
  lemma MessageOnlyBlockIsLost(r: Response, message: string, details: Data)
    requires !r.success && r.errorInfo == Some(ErrorInfo("", message, "", details))
    ensures r.Message() == "" && r.Code() == UnknownError
  {
  }

  /** An empty or undecodable body yields a failure that reports the sentinel. */
  lemma ZeroResponseReportsUnknown(r: Response)
    requires r.Value() == ZeroEnvelope
    ensures r.IsError() && r.HTTPStatus() == 0
    ensures r.Code() == UnknownError && r.Error() == UnknownDetail && r.Message() == ""
  {
  }

  /** Calling `Err` twice: both calls agree, and so do the accessors before and after. */
  method ErrTwice(r: Response) returns (first: Chain, second: Chain)
    modifies r
    ensures first == second
    ensures (first == []) == old(r.success)
    ensures r.Code() == old(r.Code()) && r.Message() == old(r.Message()) && r.Error() == old(r.Error())
  {
    first := r.Err();
    second := r.Err();
  }
}
