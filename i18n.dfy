/**
 * Message lookup with language fallback (internal/i18n/i18n.go): language
 * tags are normalised, a lookup walks a chain such as zh-cn → zh → the
 * default language, and a code without any translation stands for
 * itself. Translations can be updated one key at a time.
 *
 * The manager is a plain object: its lock and the loading of translation
 * files are left out.
 */
module I18n {
  import opened Text
  import opened GoContext
  import opened Wrappers

  /** The context key of type i18n.ctxKey under which a request's language is kept. */
  const LangKey: Key := Key("i18n.ctxKey", "lang")

  predicate NoUnderscore(s: string) { forall i :: 0 <= i < |s| ==> s[i] != '_' }

  /** normalizeLang: '_' becomes '-' and ASCII letters are lower-cased. */
  function NormalizeLang(lang: string): (r: string)
    ensures |r| == |lang|
    ensures NoUnderscore(r) && NoUpperAscii(r)
  {
    Lower(ReplaceChar(lang, '_', '-'))
  }

  /** A normalised tag is left as it is. */
  lemma NormalizeLangIdempotent(lang: string)
    ensures NormalizeLang(NormalizeLang(lang)) == NormalizeLang(lang)
  {
    var r := NormalizeLang(lang);
    assert ReplaceChar(r, '_', '-') == r;
    LowerIdempotent(ReplaceChar(lang, '_', '-'));
  }

  /** The primary subtag: the part before the first '-'. */
  function PrimaryTag(l: string): (r: string)
    requires Contains(l, "-")
    ensures |r| < |l| && HasPrefix(l, r + "-")
  {
    var i := Index(l, "-");
    assert l[..i] + "-" == l[..i + 1];
    l[..i]
  }

  /** fallbackChain: the normalised tag, its primary subtag if it has one, then the default unless equal. */
  function FallbackChain(lang: string, defLang: string): (chain: seq<string>)
    ensures 1 <= |chain| <= 3
    ensures chain[0] == NormalizeLang(lang)
    ensures Contains(NormalizeLang(lang), "-") ==> |chain| >= 2 && chain[1] == PrimaryTag(NormalizeLang(lang))
    ensures defLang != NormalizeLang(lang) <==>
      (chain[|chain| - 1] == NormalizeLang(defLang) && |chain| == (if Contains(NormalizeLang(lang), "-") then 3 else 2))
  {
    var l := NormalizeLang(lang);
    var head := if Contains(l, "-") then [l, PrimaryTag(l)] else [l];
    if defLang != l then head + [NormalizeLang(defLang)] else head
  }

  /** zh_CN with default en is looked up as zh-cn, then zh, then en. */
  lemma RegionFallsBackToLanguage()
    ensures FallbackChain("zh_CN", "en") == ["zh-cn", "zh", "en"]
  {
    var l := NormalizeLang("zh_CN");
    var r := ReplaceChar("zh_CN", '_', '-');
    assert r[0] == 'z' && r[1] == 'h' && r[2] == '-' && r[3] == 'C' && r[4] == 'N';
    assert l[0] == 'z' && l[1] == 'h' && l[2] == '-' && l[3] == 'c' && l[4] == 'n';
    assert l == "zh-cn";
    assert OccursAt(l, "-", 2) && !OccursAt(l, "-", 0) && !OccursAt(l, "-", 1);
    assert Index(l, "-") == 2;
    assert PrimaryTag(l) == l[..2] == "zh";
    var d := NormalizeLang("en");
    assert d[0] == 'e' && d[1] == 'n';
    assert d == "en";
    assert "en" != l;
  }

  /**
   * The raw default is compared with the normalised tag, so a default that
   * is not normalised is appended again even when the chain already holds it.
   */
  lemma UnnormalisedDefaultRepeats()
    ensures FallbackChain("en_US", "en_US") == ["en-us", "en", "en-us"]
  {
    var l := NormalizeLang("en_US");
    var r := ReplaceChar("en_US", '_', '-');
    assert r[0] == 'e' && r[1] == 'n' && r[2] == '-' && r[3] == 'U' && r[4] == 'S';
    assert l[0] == 'e' && l[1] == 'n' && l[2] == '-' && l[3] == 'u' && l[4] == 's';
    assert l == "en-us";
    assert OccursAt(l, "-", 2) && !OccursAt(l, "-", 0) && !OccursAt(l, "-", 1);
    assert Index(l, "-") == 2;
    assert PrimaryTag(l) == l[..2] == "en";
    assert "en_US" != l;
  }

  /** A normalised default equal to the tag is not repeated. */
  lemma NormalisedDefaultNotRepeated(lang: string)
    ensures FallbackChain(lang, NormalizeLang(lang)) ==
      if Contains(NormalizeLang(lang), "-") then [NormalizeLang(lang), PrimaryTag(NormalizeLang(lang))]
      else [NormalizeLang(lang)]
  {
  }

  /** The message of the first language of the chain that has the code, or the code itself. */
  function Lookup(messages: map<string, map<string, string>>, chain: seq<string>, code: string): string
  {
    if chain == [] then code
    else if chain[0] in messages && code in messages[chain[0]] then messages[chain[0]][code]
    else Lookup(messages, chain[1..], code)
  }

  predicate Has(messages: map<string, map<string, string>>, l: string, code: string)
  {
    l in messages && code in messages[l]
  }

  /**
   * Lookup returns the translation held by the first language of the chain
   * that has the code, and the code itself when none has it.
   */
  lemma {:induction false} LookupFirstHit(messages: map<string, map<string, string>>, chain: seq<string>, code: string)
    ensures (forall i :: 0 <= i < |chain| ==> !Has(messages, chain[i], code)) ==> Lookup(messages, chain, code) == code
    ensures forall i ::
      (0 <= i < |chain| && Has(messages, chain[i], code) && (forall j :: 0 <= j < i ==> !Has(messages, chain[j], code)))
      ==> Lookup(messages, chain, code) == messages[chain[i]][code]
  {
    if chain != [] {
      LookupFirstHit(messages, chain[1..], code);
      forall i | 0 <= i < |chain| && Has(messages, chain[i], code) &&
        (forall j :: 0 <= j < i ==> !Has(messages, chain[j], code))
        ensures Lookup(messages, chain, code) == messages[chain[i]][code]
      {
        if i > 0 {
          assert chain[1..][i - 1] == chain[i];
          forall j | 0 <= j < i - 1
            ensures !Has(messages, chain[1..][j], code)
          {
            assert chain[1..][j] == chain[j + 1];
          }
        }
      }
      if forall i :: 0 <= i < |chain| ==> !Has(messages, chain[i], code) {
        forall j | 0 <= j < |chain| - 1
          ensures !Has(messages, chain[1..][j], code)
        {
          assert chain[1..][j] == chain[j + 1];
        }
      }
    }
  }

  /** The messages after Update(lang, key, value). */
  function Updated(messages: map<string, map<string, string>>, lang: string, key: string, value: string): map<string, map<string, string>>
  {
    var l := NormalizeLang(lang);
    var inner := if l in messages then messages[l] else map[];
    messages[l := inner[key := value]]
  }

  /** Update sets exactly one translation: every other language and key keeps its entry. */
  lemma UpdateSetsOneEntry(messages: map<string, map<string, string>>, lang: string, key: string, value: string)
    ensures var m2 := Updated(messages, lang, key, value);
      && Has(m2, NormalizeLang(lang), key) && m2[NormalizeLang(lang)][key] == value
      && (forall l, k :: (l != NormalizeLang(lang) || k != key) ==>
           (Has(m2, l, k) <==> Has(messages, l, k)) &&
           (Has(messages, l, k) ==> m2[l][k] == messages[l][k]))
      && (forall l :: l in messages ==> l in m2)
  {
  }

  /** getLangFromContext: a non-empty string under LangKey, else the given default; normalised either way. */
  function LangFromContext(ctx: Context, defaultLang: string): (r: string)
    ensures NormalizeLang(r) == r
  {
    var v := Value(ctx, LangKey);
    var picked := if v != Nil && v.Str? && v.s != "" then v.s else defaultLang;
    NormalizeLangIdempotent(picked);
    NormalizeLang(picked)
  }

  /** WithCtxLang: a child context carrying the normalised language. */
  function WithCtxLang(ctx: Context, lang: string): Context
  {
    WithValue(ctx, LangKey, Str(NormalizeLang(lang)))
  }

  /** A language stored with WithCtxLang is read back, unless it is empty; then the default applies. */
  lemma ContextLangRoundTrip(ctx: Context, lang: string, defaultLang: string)
    ensures lang != "" ==> LangFromContext(WithCtxLang(ctx, lang), defaultLang) == NormalizeLang(lang)
    ensures lang == "" ==> LangFromContext(WithCtxLang(ctx, lang), defaultLang) == NormalizeLang(defaultLang)
  {
    NormalizeLangIdempotent(lang);
  }

  /** A context without a usable language gives the normalised default. */
  lemma ContextWithoutLang(ctx: Context, defaultLang: string)
    requires !Value(ctx, LangKey).Str? || Value(ctx, LangKey).s == ""
    ensures LangFromContext(ctx, defaultLang) == NormalizeLang(defaultLang)
  {
  }

  class Manager {
    var messages: map<string, map<string, string>>
    var defLang: string
    var supported: seq<string>
    /** The language chosen by WithLang; empty until then. */
    var lang: string

    /** The language GetMessage starts from: lang when set, else the default. */
    function CurrentLang(): string
      reads this
    {
      if lang == "" then defLang else lang
    }

    /** The singleton GetManager creates: no messages, default "en", supporting ["en"]. */
    constructor ()
      ensures messages == map[] && defLang == "en" && supported == ["en"] && lang == ""
    {
      messages := map[];
      defLang := "en";
      supported := ["en"];
      lang := "";
    }

    /** GetMessage: the first translation along the fallback chain, or the code itself. */
    method GetMessage(code: string) returns (msg: string)
      ensures msg == Lookup(messages, FallbackChain(CurrentLang(), defLang), code)
    {
      var l := lang;
      if l == "" {
        l := defLang;
      }
      var chain := FallbackChain(l, defLang);
      for i := 0 to |chain|
        invariant Lookup(messages, chain, code) == Lookup(messages, chain[i..], code)
      {
        assert chain[i..][1..] == chain[i + 1..];
        if chain[i] in messages && code in messages[chain[i]] {
          return messages[chain[i]][code];
        }
      }
      assert chain[|chain|..] == [];
      return code;
    }

    /** Update: sets one translation, creating the language's table when absent. */
    method Update(lang: string, key: string, value: string)
      modifies this
      ensures messages == Updated(old(messages), lang, key, value)
      ensures defLang == old(defLang) && supported == old(supported) && this.lang == old(this.lang)
    {
      var l := NormalizeLang(lang);
      if l !in messages {
        messages := messages[l := map[]];
      }
      messages := messages[l := messages[l][key := value]];
    }

    /** WithLang: picks the language (from the context when there is one), stores it normalised, returns the manager. */
    method WithLang(ctx: Option<Context>, lang: string) returns (self: Manager)
      modifies this
      ensures self == this
      ensures this.lang == if ctx.Some? then LangFromContext(ctx.value, lang) else NormalizeLang(lang)
      ensures messages == old(messages) && defLang == old(defLang) && supported == old(supported)
    {
      var l := lang;
      if ctx.Some? {
        l := LangFromContext(ctx.value, l);
      }
      this.lang := NormalizeLang(l);
      NormalizeLangIdempotent(lang);
      return this;
    }
  }

  /** A manager's message never fails: it is a translation of some chain language, or the code. */
  lemma MessageIsTranslationOrCode(messages: map<string, map<string, string>>, chain: seq<string>, code: string)
    ensures var msg := Lookup(messages, chain, code);
      msg == code || exists i :: 0 <= i < |chain| && Has(messages, chain[i], code) && msg == messages[chain[i]][code]
  {
    LookupFirstHit(messages, chain, code);
    if exists i :: 0 <= i < |chain| && Has(messages, chain[i], code) {
      var i := FirstHit(messages, chain, code);
    }
  }

  /** The position of the first language of the chain that has the code. */
  function FirstHit(messages: map<string, map<string, string>>, chain: seq<string>, code: string): (i: nat)
    requires exists i :: 0 <= i < |chain| && Has(messages, chain[i], code)
    ensures i < |chain| && Has(messages, chain[i], code)
    ensures forall j :: 0 <= j < i ==> !Has(messages, chain[j], code)
  {
    if Has(messages, chain[0], code) then 0
    else
      var i' := FirstHit(messages, chain[1..], code);
      assert forall j :: 0 <= j < i' ==> chain[1..][j] == chain[j + 1];
      i' + 1
  }
}
