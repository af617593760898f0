/** The `ErrorCode` capability of package `exception` and its search along a cause chain. */
module Standard {
  import opened Wrappers
  import opened GoErrors
  import opened Codes
  import opened Exceptions
  import opened ExceptionOptions

  /** `ErrorCode` asks for `Error()` and `Code()`; every error has the first. */
  predicate IsErrorCode(l: Link) {
    l.code.Some?
  }

  /** `AsErrorCode`: the outermost error of the chain that has `Code()`, if any. */
  function AsErrorCode(err: Chain): (r: Option<Link>)
    ensures err == [] ==> r.None?
    ensures r.None? <==> forall j :: 0 <= j < |err| ==> err[j].code.None?
    ensures r.Some? ==> exists k :: 0 <= k < |err| && err[k] == r.value && r.value.code.Some? &&
                                    forall j :: 0 <= j < k ==> err[j].code.None?
  {
    if err == [] then None
    else match As(err, IsErrorCode)
      case None => None
      case Some(k) => Some(err[k])
  }

  /** An `exception` has `Code()`, so it is found at once, whatever it wraps. */
  lemma ExceptionIsErrorCode(e: Exception)
    ensures AsErrorCode(e.AsChain()) == Some(e.AsChain()[0])
    ensures AsErrorCode(e.AsChain()).value.code == Some(e.Code())
    ensures AsErrorCode(e.AsChain()).value.text == e.Error()
  {
  }

  /** The capability example of the package's tests. */
  lemma AsErrorCodeExample(sprintf: Sprintf)
    ensures var e := Build("error", BuiltinDefaults,
                           [WithStatus(CodeSoftError), WithCode("TEST_CODE"), WithMessage("message")], sprintf);
      var r := AsErrorCode(e.AsChain());
      r.Some? && r.value.code == Some("TEST_CODE") && r.value.text == "error"
  {
    TestOptionsExample(CodeSoftError, sprintf);
  }
}
