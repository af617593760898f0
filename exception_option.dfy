/** The option pipeline that builds an `exception` (current revision). */
module ExceptionOptions {
  import opened GoErrors
  import opened Codes
  import opened Exceptions

  /** `ErrorOption`: each closure, named by the field it overwrites. */
  datatype ErrorOption =
    | WithError(err: Chain)
    | WithStatus(status: string)
    | WithCode(code: string)
    | WithMessage(message: string)
    | WithArgs(args: seq<string>)

  /** `fmt.Sprintf(format, args...)`, which this model does not interpret. */
  type Sprintf = (string, seq<string>) -> string

  /** Running one option on the value being built. */
  function Apply(e: Exception, opt: ErrorOption, sprintf: Sprintf): Exception {
    match opt
    case WithError(err) => if err == [] then e else e.(cause := err)
    case WithStatus(status) => e.(status := status)
    case WithCode(code) => e.(code := code)
    case WithMessage(message) => e.(message := message)
    case WithArgs(args) => e.(s := sprintf(e.s, args))
  }

  /** Running a list of options in order. */
  function ApplyAll(e: Exception, opts: seq<ErrorOption>, sprintf: Sprintf): Exception
    decreases |opts|
  {
    if opts == [] then e
    else Apply(ApplyAll(e, opts[..|opts| - 1], sprintf), opts[|opts| - 1], sprintf)
  }

  /** The value `New` allocates before any option runs: only the text is set. */
  function Blank(text: string): Exception {
    Exception(text, [], "", "", "")
  }

  /** What `New(text, opts...)` returns under the default list `defaults`. */
  function Build(text: string, defaults: seq<ErrorOption>, opts: seq<ErrorOption>, sprintf: Sprintf): Exception {
    var e := ApplyAll(ApplyAll(Blank(text), defaults, sprintf), opts, sprintf);
    if e.cause != [] then e.(s := e.s + ": " + e.cause[0].text) else e
  }

  /** The default list a fresh process starts with. */
  const BuiltinDefaults := [WithStatus(CodeInternal), WithCode(CodeInternal)]

  /** The package-level state of package `exception`. */
  class Package {
    /** `defaultOptions`: run before the options of every `New`. */
    var defaultOptions: seq<ErrorOption>

    constructor ()
      ensures defaultOptions == BuiltinDefaults
    {
      defaultOptions := BuiltinDefaults;
    }

    /** Replaces the default list; it does not append to it. */
    method SetDefaultOptions(opts: seq<ErrorOption>)
      modifies this
      ensures defaultOptions == opts
    {
      defaultOptions := opts;
    }

    /** `New`: defaults first, then the caller's options, then the cause's text is appended. */
    method New(text: string, opts: seq<ErrorOption>, sprintf: Sprintf) returns (e: Exception)
      ensures e == Build(text, defaultOptions, opts, sprintf)
    {
      e := Exception(text, [], "", "", "");
      for i := 0 to |defaultOptions|
        invariant e == ApplyAll(Blank(text), defaultOptions[..i], sprintf)
      {
        assert defaultOptions[..i + 1][..i] == defaultOptions[..i];
        e := Apply(e, defaultOptions[i], sprintf);
      }
      assert defaultOptions[..|defaultOptions|] == defaultOptions;
      ghost var start := e;
      for i := 0 to |opts|
        invariant e == ApplyAll(start, opts[..i], sprintf)
      {
        assert opts[..i + 1][..i] == opts[..i];
        e := Apply(e, opts[i], sprintf);
      }
      assert opts[..|opts|] == opts;
      if e.cause != [] {
        e := e.(s := e.s + ": " + e.cause[0].text);
      }
    }
  }

  /** The four fields an option can set to a value of its own. */
  datatype Field = CauseField | StatusField | CodeField | MessageField

  /** Whether `opt` sets `f` (a nil `WithError` sets nothing). */
  predicate Sets(opt: ErrorOption, f: Field) {
    match f
    case CauseField => opt.WithError? && opt.err != []
    case StatusField => opt.WithStatus?
    case CodeField => opt.WithCode?
    case MessageField => opt.WithMessage?
  }

  /** `a` and `b` hold the same value in `f`. */
  predicate SameIn(a: Exception, b: Exception, f: Field) {
    match f
    case CauseField => a.cause == b.cause
    case StatusField => a.status == b.status
    case CodeField => a.code == b.code
    case MessageField => a.message == b.message
  }

  /** Each option changes exactly one field: `WithArgs` the text and no other,
      a setter the field it names, to its own argument, and no other, and
      `WithError(nil)` nothing. */
  lemma OptionChangesOneField(e: Exception, opt: ErrorOption, sprintf: Sprintf)
    ensures opt.WithArgs? ==> Apply(e, opt, sprintf) == e.(s := sprintf(e.s, opt.args))
    ensures !opt.WithArgs? ==> Apply(e, opt, sprintf).s == e.s
    ensures opt.WithError? && opt.err != [] ==> Apply(e, opt, sprintf).cause == opt.err
    ensures opt.WithStatus? ==> Apply(e, opt, sprintf).status == opt.status
    ensures opt.WithCode? ==> Apply(e, opt, sprintf).code == opt.code
    ensures opt.WithMessage? ==> Apply(e, opt, sprintf).message == opt.message
    ensures forall f :: !Sets(opt, f) ==> SameIn(Apply(e, opt, sprintf), e, f)
    ensures opt == WithError([]) ==> Apply(e, opt, sprintf) == e
  {
  }

  /** Among several options, the last one that sets a field decides it. */
  lemma {:induction false} LastWriteWins(e: Exception, opts: seq<ErrorOption>, f: Field, k: nat, sprintf: Sprintf)
    requires k < |opts| && Sets(opts[k], f)
    requires forall j :: k < j < |opts| ==> !Sets(opts[j], f)
    ensures SameIn(ApplyAll(e, opts, sprintf), Apply(e, opts[k], sprintf), f)
  {
    var n := |opts| - 1;
    var init := opts[..n];
    if k < n {
      assert forall j :: k < j < |init| ==> init[j] == opts[j];
      LastWriteWins(e, init, f, k, sprintf);
    }
  }

  /** A field that no option sets keeps the value it had. */
  lemma {:induction false} Untouched(e: Exception, opts: seq<ErrorOption>, f: Field, sprintf: Sprintf)
    requires forall j :: 0 <= j < |opts| ==> !Sets(opts[j], f)
    ensures SameIn(ApplyAll(e, opts, sprintf), e, f)
  {
    if opts != [] {
      var init := opts[..|opts| - 1];
      assert forall j :: 0 <= j < |init| ==> init[j] == opts[j];
      Untouched(e, init, f, sprintf);
    }
  }

  /** Without `WithArgs` the options leave the text alone. */
  lemma {:induction false} NoArgsKeepText(e: Exception, opts: seq<ErrorOption>, sprintf: Sprintf)
    requires forall j :: 0 <= j < |opts| ==> !opts[j].WithArgs?
    ensures ApplyAll(e, opts, sprintf).s == e.s
  {
    if opts != [] {
      var init := opts[..|opts| - 1];
      assert forall j :: 0 <= j < |init| ==> init[j] == opts[j];
      NoArgsKeepText(e, init, sprintf);
    }
  }

  /** The last instance option on a field decides it, whatever the defaults set. */
  lemma InstanceOverridesDefault(text: string, defaults: seq<ErrorOption>, opts: seq<ErrorOption>, f: Field, k: nat, sprintf: Sprintf)
    requires k < |opts| && Sets(opts[k], f)
    requires forall j :: k < j < |opts| ==> !Sets(opts[j], f)
    ensures SameIn(Build(text, defaults, opts, sprintf), Apply(Blank(text), opts[k], sprintf), f)
  {
    LastWriteWins(ApplyAll(Blank(text), defaults, sprintf), opts, f, k, sprintf);
  }

  /** A field neither the defaults nor the instance options set stays empty. */
  lemma UnsetStaysEmpty(text: string, defaults: seq<ErrorOption>, opts: seq<ErrorOption>, f: Field, sprintf: Sprintf)
    requires forall j :: 0 <= j < |defaults| ==> !Sets(defaults[j], f)
    requires forall j :: 0 <= j < |opts| ==> !Sets(opts[j], f)
    ensures SameIn(Build(text, defaults, opts, sprintf), Blank(text), f)
  {
    Untouched(Blank(text), defaults, f, sprintf);
    Untouched(ApplyAll(Blank(text), defaults, sprintf), opts, f, sprintf);
  }

  /** With the built-in defaults, a value whose options set no class and no code is INTERNAL on both. */
  lemma BuiltinDefaultsAreInternal(text: string, opts: seq<ErrorOption>, sprintf: Sprintf)
    requires forall j :: 0 <= j < |opts| ==> !opts[j].WithStatus? && !opts[j].WithCode?
    ensures Build(text, BuiltinDefaults, opts, sprintf).status == CodeInternal
    ensures Build(text, BuiltinDefaults, opts, sprintf).code == CodeInternal
  {
    var start := ApplyAll(Blank(text), BuiltinDefaults, sprintf);
    assert BuiltinDefaults[..1] == [WithStatus(CodeInternal)] && [WithStatus(CodeInternal)][..0] == [];
    assert ApplyAll(Blank(text), [WithStatus(CodeInternal)], sprintf) == Blank(text).(status := CodeInternal);
    assert start.status == CodeInternal && start.code == CodeInternal;
    Untouched(start, opts, StatusField, sprintf);
    Untouched(start, opts, CodeField, sprintf);
  }

  /** Without `WithArgs`, the text is the given text, followed by ": " and the
      cause's text exactly when a cause was attached. */
  lemma RenderedText(text: string, defaults: seq<ErrorOption>, opts: seq<ErrorOption>, sprintf: Sprintf)
    requires forall j :: 0 <= j < |defaults| ==> !defaults[j].WithArgs?
    requires forall j :: 0 <= j < |opts| ==> !opts[j].WithArgs?
    ensures var e := Build(text, defaults, opts, sprintf);
      e.Error() == if e.Unwrap() == [] then text else text + ": " + e.Unwrap()[0].text
  {
    NoArgsKeepText(Blank(text), defaults, sprintf);
    NoArgsKeepText(ApplyAll(Blank(text), defaults, sprintf), opts, sprintf);
  }

  /** A nil `WithError` after a real one does not clear the cause. */
  lemma NilErrorKeepsCause(e: Exception, cause: Chain, sprintf: Sprintf)
    requires cause != []
    ensures ApplyAll(e, [WithError(cause), WithError([])], sprintf).cause == cause
  {
    assert [WithError(cause), WithError([])][..1] == [WithError(cause)];
  }

  /** The option list of the package's tests: under the built-in defaults, `New("error", WithStatus(status),
      WithCode("TEST_CODE"), WithMessage("message"))` is exactly that exception, with nothing wrapped;
      a soft error answers HTTP 200 and an invalid request 400. */
  lemma TestOptionsExample(status: string, sprintf: Sprintf)
    ensures var e := Build("error", BuiltinDefaults,
                           [WithStatus(status), WithCode("TEST_CODE"), WithMessage("message")], sprintf);
      e == Exception("error", [], status, "TEST_CODE", "message") &&
      e.Code() == "TEST_CODE" && e.Message() == "message" && e.Error() == "error" && e.Unwrap() == [] &&
      (status == CodeSoftError ==> e.HTTPStatus() == 200) &&
      (status == CodeInvalidRequest ==> e.HTTPStatus() == 400)
  {
    var text := "error";
    var opts := [WithStatus(status), WithCode("TEST_CODE"), WithMessage("message")];
    assert BuiltinDefaults[..1] == [WithStatus(CodeInternal)] && [WithStatus(CodeInternal)][..0] == [];
    assert ApplyAll(Blank(text), [WithStatus(CodeInternal)], sprintf) == Blank(text).(status := CodeInternal);
    var start := ApplyAll(Blank(text), BuiltinDefaults, sprintf);
    assert start == Exception(text, [], CodeInternal, CodeInternal, "");
    assert opts[..2] == [WithStatus(status), WithCode("TEST_CODE")];
    assert opts[..2][..1] == [WithStatus(status)] && opts[..1][..0] == [];
    assert ApplyAll(start, opts[..1], sprintf) == start.(status := status);
    assert ApplyAll(start, opts[..2], sprintf) == Exception(text, [], status, "TEST_CODE", "");
    assert ApplyAll(start, opts, sprintf) == Exception(text, [], status, "TEST_CODE", "message");
  }
}
