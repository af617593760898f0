/** The process-wide configuration of package `httphelper` (the revision with named constants). */
module HttpConfig {

  /** The code given to errors that are not `HTTPError`s, before any configuration. */
  const InternalServerError := "INTERNAL_SERVER_ERROR"

  /** The message given to errors that are not `HTTPError`s, before any configuration. */
  const InternalServerMessage := "An internal server error occurred"

  /** `config`. */
  datatype Config = Config(defaultErrorCode: string, defaultErrorMessage: string, includeDetails: bool)

  /** The configuration a fresh process starts with. */
  const InitialConfig := Config(InternalServerError, InternalServerMessage, true)

  /** `Option`: each closure, named by the field it overwrites. */
  datatype Option = WithDefaultErrorCode(code: string) | WithDefaultErrorMessage(msg: string) | WithIncludeDetails(enabled: bool)

  function Apply(c: Config, opt: Option): Config {
    match opt
    case WithDefaultErrorCode(code) => c.(defaultErrorCode := code)
    case WithDefaultErrorMessage(msg) => c.(defaultErrorMessage := msg)
    case WithIncludeDetails(enabled) => c.(includeDetails := enabled)
  }

  /** Running a list of options in order. */
  function ApplyAll(c: Config, opts: seq<Option>): Config
    decreases |opts|
  {
    if opts == [] then c
    else Apply(ApplyAll(c, opts[..|opts| - 1]), opts[|opts| - 1])
  }

  /** The package-level state of package `httphelper`. */
  class Package {
    /** `defaultConfig`: read by every `Error`. */
    var defaultConfig: Config

    constructor ()
      ensures defaultConfig == InitialConfig
    {
      defaultConfig := InitialConfig;
    }

    /** `Configure`: copies the current configuration, runs the options on the copy, stores it back. */
    method Configure(opts: seq<Option>)
      modifies this
      ensures defaultConfig == ApplyAll(old(defaultConfig), opts)
    {
      var cfg := defaultConfig;
      for i := 0 to |opts|
        invariant cfg == ApplyAll(old(defaultConfig), opts[..i])
      {
        assert opts[..i + 1][..i] == opts[..i];
        cfg := Apply(cfg, opts[i]);
      }
      assert opts[..|opts|] == opts;
      defaultConfig := cfg;
    }
  }

  /** The three fields of a configuration. */
  datatype Field = CodeField | MessageField | DetailsField

  predicate Sets(opt: Option, f: Field) {
    match f
    case CodeField => opt.WithDefaultErrorCode?
    case MessageField => opt.WithDefaultErrorMessage?
    case DetailsField => opt.WithIncludeDetails?
  }

  predicate SameIn(a: Config, b: Config, f: Field) {
    match f
    case CodeField => a.defaultErrorCode == b.defaultErrorCode
    case MessageField => a.defaultErrorMessage == b.defaultErrorMessage
    case DetailsField => a.includeDetails == b.includeDetails
  }

  /** Each option sets the field it names, to its own value, and changes nothing else. */
  lemma OptionChangesOneField(c: Config, opt: Option)
    ensures opt.WithDefaultErrorCode? ==> Apply(c, opt).defaultErrorCode == opt.code
    ensures opt.WithDefaultErrorMessage? ==> Apply(c, opt).defaultErrorMessage == opt.msg
    ensures opt.WithIncludeDetails? ==> Apply(c, opt).includeDetails == opt.enabled
    ensures forall f :: !Sets(opt, f) ==> SameIn(Apply(c, opt), c, f)
  {
  }

  /** The last option that sets a field decides it. */
  lemma {:induction false} LastWriteWins(c: Config, opts: seq<Option>, f: Field, k: nat)
    requires k < |opts| && Sets(opts[k], f)
    requires forall j :: k < j < |opts| ==> !Sets(opts[j], f)
    ensures SameIn(ApplyAll(c, opts), Apply(c, opts[k]), f)
  {
    var n := |opts| - 1;
    var init := opts[..n];
    if k < n {
      assert forall j :: k < j < |init| ==> init[j] == opts[j];
      LastWriteWins(c, init, f, k);
    }
  }

  /** A field no option sets keeps its previous value: `Configure` starts from the current configuration. */
  lemma {:induction false} Untouched(c: Config, opts: seq<Option>, f: Field)
    requires forall j :: 0 <= j < |opts| ==> !Sets(opts[j], f)
    ensures SameIn(ApplyAll(c, opts), c, f)
  {
    if opts != [] {
      var init := opts[..|opts| - 1];
      assert forall j :: 0 <= j < |init| ==> init[j] == opts[j];
      Untouched(c, init, f);
    }
  }

  /** Configuring twice is configuring once with both lists; configuring with none changes nothing. */
  lemma {:induction false} ConfigureComposes(c: Config, first: seq<Option>, second: seq<Option>)
    ensures ApplyAll(c, first + second) == ApplyAll(ApplyAll(c, first), second)
    ensures ApplyAll(c, []) == c
  {
    if second == [] {
      assert first + second == first;
    } else {
      var n := |second| - 1;
      assert (first + second)[..|first + second| - 1] == first + second[..n];
      ConfigureComposes(c, first, second[..n]);
    }
  }

  /** The configuration of the package's tests: new default code and message, details still on. */
  lemma TestConfiguration()
    ensures ApplyAll(InitialConfig, [WithDefaultErrorCode("DEFAULT_ERROR"), WithDefaultErrorMessage("DEFAULT_MESSAGE")])
         == Config("DEFAULT_ERROR", "DEFAULT_MESSAGE", true)
  {
    var opts := [WithDefaultErrorCode("DEFAULT_ERROR"), WithDefaultErrorMessage("DEFAULT_MESSAGE")];
    assert opts[..1] == [WithDefaultErrorCode("DEFAULT_ERROR")] && opts[..1][..0] == [];
  }
}
