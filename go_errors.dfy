/**
 * Go's `error` values, as the two packages observe them.
 *
 * An error is seen only through the methods its dynamic type has and through
 * `errors.Unwrap`, so a value of type `error` is modelled as its unwrap chain:
 * the error itself first, then what its `Unwrap` returns, and so on. The empty
 * chain is `nil`.
 */
module GoErrors {
  import opened Wrappers

  /** One error of a chain: the text its `Error()` returns, and the results of
      the optional `Code()`, `Message()` and `HTTPStatus()` methods (`None` when
      its dynamic type has no such method). */
  datatype Link = Link(text: string, code: Option<string>, message: Option<string>, httpStatus: Option<int>)

  type Chain = seq<Link>

  /** `errors.New(text)`: an error that has `Error()` only and wraps nothing. */
  function New(text: string): Chain {
    [Link(text, None, None, None)]
  }

  /** `errors.As`: the position of the first error of the chain, searching from
      the outermost error inwards, whose method set `fits` the target interface. */
  function As(err: Chain, fits: Link -> bool): (r: Option<nat>)
    ensures r.Some? ==> r.value < |err| && fits(err[r.value])
    ensures r.Some? ==> forall j :: 0 <= j < r.value ==> !fits(err[j])
    ensures r.None? ==> forall j :: 0 <= j < |err| ==> !fits(err[j])
  {
    if err == [] then None
    else if fits(err[0]) then Some(0)
    else match As(err[1..], fits)
      case None => None
      case Some(k) => Some(k + 1)
  }
}
