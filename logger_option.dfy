/**
 * The option record of the HTTP body-logging middleware
 * (app/middleware/logger/option.go): six settings, each written by one
 * functional option, applied in order to a zero record.
 */
module HttpLoggerOptions {

  /** A snapshot of a logConfig. */
  datatype Settings = Settings(
    enableReqBody: bool,
    enableRespBody: bool,
    maxBodySize: int,
    sensitiveKeys: seq<string>,
    onlyJSONBody: bool,
    guessJSON: bool)

  /** The zero logConfig the middleware starts from: false, 0 and a nil key list. */
  const Zero: Settings := Settings(false, false, 0, [], false, false)

  datatype LogOption =
    | WithEnableReqBody(enableReqBody: bool)
    | WithEnableRespBody(enableRespBody: bool)
    | WithMaxBodySize(maxBodySize: int)
    | WithSensitiveKeys(sensitiveKeys: seq<string>)
    | WithOnlyJSONBody(onlyJSONBody: bool)
    | WithGuessJSON(guessJSON: bool)

  datatype Field = ReqBodyField | RespBodyField | MaxBodySizeField | SensitiveKeysField | OnlyJSONField | GuessJSONField

  function FieldOf(o: LogOption): Field
  {
    match o
    case WithEnableReqBody(_) => ReqBodyField
    case WithEnableRespBody(_) => RespBodyField
    case WithMaxBodySize(_) => MaxBodySizeField
    case WithSensitiveKeys(_) => SensitiveKeysField
    case WithOnlyJSONBody(_) => OnlyJSONField
    case WithGuessJSON(_) => GuessJSONField
  }

  predicate AgreeOn(s: Settings, t: Settings, f: Field)
  {
    match f
    case ReqBodyField => s.enableReqBody == t.enableReqBody
    case RespBodyField => s.enableRespBody == t.enableRespBody
    case MaxBodySizeField => s.maxBodySize == t.maxBodySize
    case SensitiveKeysField => s.sensitiveKeys == t.sensitiveKeys
    case OnlyJSONField => s.onlyJSONBody == t.onlyJSONBody
    case GuessJSONField => s.guessJSON == t.guessJSON
  }

  /** What the closure returned by an option does to a logConfig. */
  function Applied(s: Settings, o: LogOption): Settings
  {
    match o
    case WithEnableReqBody(b) => s.(enableReqBody := b)
    case WithEnableRespBody(b) => s.(enableRespBody := b)
    case WithMaxBodySize(n) => s.(maxBodySize := n)
    case WithSensitiveKeys(ks) => s.(sensitiveKeys := ks)
    case WithOnlyJSONBody(b) => s.(onlyJSONBody := b)
    case WithGuessJSON(b) => s.(guessJSON := b)
  }

  /** The options applied in order. */
  function ApplyAll(s: Settings, opts: seq<LogOption>): Settings
  {
    if opts == [] then s else Applied(ApplyAll(s, opts[..|opts| - 1]), opts[|opts| - 1])
  }

  /** Each option writes its own field, to the value it carries, and leaves every other field as it was. */
  lemma OptionSetsOneField(s: Settings, o: LogOption)
    ensures forall f :: f != FieldOf(o) ==> AgreeOn(Applied(s, o), s, f)
    ensures AgreeOn(Applied(s, o), Applied(Zero, o), FieldOf(o))
  {
  }

  /** An option leaves a field it does not name as it was. */
  lemma OneFieldKept(s: Settings, o: LogOption, f: Field)
    requires FieldOf(o) != f
    ensures AgreeOn(Applied(s, o), s, f)
  {
  }

  /** A field that no option names keeps its starting value. */
  lemma {:induction false} UnnamedFieldKept(s: Settings, opts: seq<LogOption>, f: Field)
    requires forall i :: 0 <= i < |opts| ==> FieldOf(opts[i]) != f
    ensures AgreeOn(ApplyAll(s, opts), s, f)
  {
    if opts != [] {
      UnnamedFieldKept(s, opts[..|opts| - 1], f);
      OneFieldKept(ApplyAll(s, opts[..|opts| - 1]), opts[|opts| - 1], f);
    }
  }

  /** The last option naming a field decides that field. */
  lemma {:induction false} LastOptionWins(s: Settings, opts: seq<LogOption>, j: nat)
    requires j < |opts|
    requires forall i :: j < i < |opts| ==> FieldOf(opts[i]) != FieldOf(opts[j])
    ensures AgreeOn(ApplyAll(s, opts), Applied(s, opts[j]), FieldOf(opts[j]))
  {
    if j == |opts| - 1 {
      OptionSetsOneField(ApplyAll(s, opts[..j]), opts[j]);
      OptionSetsOneField(s, opts[j]);
    } else {
      var init := opts[..|opts| - 1];
      LastOptionWins(s, init, j);
      OneFieldKept(ApplyAll(s, init), opts[|opts| - 1], FieldOf(opts[j]));
    }
  }

  /** The logConfig the options write into. */
  class LogConfig {
    var enableReqBody: bool
    var enableRespBody: bool
    var maxBodySize: int
    var sensitiveKeys: seq<string>
    var onlyJSONBody: bool
    var guessJSON: bool

    function Snapshot(): Settings
      reads this
    {
      Settings(enableReqBody, enableRespBody, maxBodySize, sensitiveKeys, onlyJSONBody, guessJSON)
    }

    /** &logConfig{} */
    constructor ()
      ensures Snapshot() == Zero
    {
      enableReqBody, enableRespBody, maxBodySize := false, false, 0;
      sensitiveKeys, onlyJSONBody, guessJSON := [], false, false;
    }

    /** Runs one option closure on this record. */
    method Apply(o: LogOption)
      modifies this
      ensures Snapshot() == Applied(old(Snapshot()), o)
    {
      match o
      case WithEnableReqBody(b) => enableReqBody := b;
      case WithEnableRespBody(b) => enableRespBody := b;
      case WithMaxBodySize(n) => maxBodySize := n;
      case WithSensitiveKeys(ks) => sensitiveKeys := ks;
      case WithOnlyJSONBody(b) => onlyJSONBody := b;
      case WithGuessJSON(b) => guessJSON := b;
    }
  }

  /** The middleware's set-up: a zero logConfig with every option run on it in order. */
  method BuildConfig(opts: seq<LogOption>) returns (c: LogConfig)
    ensures fresh(c) && c.Snapshot() == ApplyAll(Zero, opts)
  {
    c := new LogConfig();
    for i := 0 to |opts|
      invariant c.Snapshot() == ApplyAll(Zero, opts[..i])
    {
      assert opts[..i + 1][..i] == opts[..i];
      c.Apply(opts[i]);
    }
    assert opts[..|opts|] == opts;
  }
}
