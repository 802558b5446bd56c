/**
 * The body-logging helpers of the HTTP middleware
 * (app/middleware/logger/logger.go): the capped response-body capture,
 * content-type and body sniffing, the decision to log a body, the
 * truncation of a logged body and the masking of sensitive JSON keys.
 *
 * Bodies are byte sequences. JSON decoding and encoding are oracles; a
 * decoded document is a JSON value tree.
 */
module HttpLogger {
  import opened Wrappers
  import opened Text
  import opened HttpLoggerOptions

  newtype byte = b: int | 0 <= b < 256

  // ---------------------------------------------------------------- capture

  /** What a writer capped at `max` bytes holds after `written` went through it. */
  function Captured(written: seq<byte>, max: int): (r: seq<byte>)
    ensures |r| <= |written| && r == written[..|r|]
    ensures max >= 0 ==> |r| <= max
    ensures max >= 0 && |written| >= max ==> |r| == max
    ensures max <= 0 ==> r == []
  {
    if max <= 0 then [] else if |written| <= max then written else written[..max]
  }

  /** The part of a new write that a capture at `held` of `max` bytes keeps. */
  lemma CapturedAppend(written: seq<byte>, b: seq<byte>, max: int)
    ensures var held := Captured(written, max);
      Captured(written + b, max) ==
        if |held| < max then
          (if |b| > max - |held| then held + b[..max - |held|] else held + b)
        else held
  {
    var held := Captured(written, max);
    if |held| < max {
      assert held == written;
      if |b| > max - |held| {
        assert (written + b)[..max] == written + b[..max - |written|];
      }
    } else if max > 0 {
      assert (written + b)[..max] == written[..max];
    }
  }

  /**
   * The response writer wrapper: it forwards every write to the wrapped
   * writer and keeps the first maxBodyLen bytes for the log.
   */
  class BodyLogWriter {
    var body: seq<byte>
    var maxBodyLen: int
    /** What the wrapped ResponseWriter received. */
    var forwarded: seq<byte>
    /** Everything ever passed to Write, in order. */
    ghost var written: seq<byte>

    ghost predicate Valid()
      reads this
    {
      body == Captured(written, maxBodyLen) && forwarded == written
    }

    constructor (maxBodyLen: int)
      ensures Valid() && this.maxBodyLen == maxBodyLen && written == []
    {
      body := [];
      this.maxBodyLen := maxBodyLen;
      forwarded := [];
      written := [];
    }

    /** Write: keeps what still fits under maxBodyLen and forwards the whole slice. */
    method Write(b: seq<byte>) returns (n: int)
      requires Valid()
      modifies this
      ensures Valid()
      ensures written == old(written) + b && maxBodyLen == old(maxBodyLen)
      ensures n == |b|
    {
      CapturedAppend(written, b, maxBodyLen);
      if |body| < maxBodyLen {
        var remain := maxBodyLen - |body|;
        if |b| > remain {
          body := body + b[..remain];
        } else {
          body := body + b;
        }
      }
      written := written + b;
      forwarded := forwarded + b;
      n := |b|;
    }
  }

  /** Whatever was written, the captured body is a prefix of it no longer than maxBodyLen. */
  lemma CaptureBounded(w: BodyLogWriter)
    requires w.Valid()
    ensures |w.body| <= |w.written| && w.body == w.written[..|w.body|]
    ensures w.maxBodyLen >= 0 ==> |w.body| <= w.maxBodyLen
    ensures w.forwarded == w.written
  {
  }

  // ---------------------------------------------------------------- masking

  /** A value as encoding/json decodes it into interface{}. */
  datatype Json =
    | JNull
    | JBool(b: bool)
    | JNumber(text: string)
    | JString(s: string)
    | JArray(items: seq<Json>)
    | JObject(members: map<string, Json>)

  const Masked: Json := JString("***")

  /** isSensitive: the key equals one of the sensitive keys, ignoring case. */
  predicate Sensitive(key: string, keys: seq<string>)
  {
    exists i :: 0 <= i < |keys| && Lower(key) == Lower(keys[i])
  }

  /** isSensitive, as the early-return scan over the key list. */
  method IsSensitive(key: string, keys: seq<string>) returns (r: bool)
    ensures r == Sensitive(key, keys)
  {
    var keyLower := Lower(key);
    for i := 0 to |keys|
      invariant forall j :: 0 <= j < i ==> keyLower != Lower(keys[j])
    {
      if keyLower == Lower(keys[i]) {
        return true;
      }
    }
    return false;
  }

  /** maskMap: every member under a sensitive key becomes "***"; everything else is walked. */
  function Mask(v: Json, keys: seq<string>): Json
    decreases v
  {
    match v
    case JArray(items) => JArray(seq(|items|, i requires 0 <= i < |items| => Mask(items[i], keys)))
    case JObject(m) => JObject(map k | k in m :: if Sensitive(k, keys) then Masked else Mask(m[k], keys))
    case _ => v
  }

  /** Masking keeps the shape: scalars stay, arrays keep their length, objects their keys. */
  lemma MaskKeepsShape(v: Json, keys: seq<string>)
    ensures !v.JArray? && !v.JObject? ==> Mask(v, keys) == v
    ensures v.JArray? ==> Mask(v, keys).JArray? && |Mask(v, keys).items| == |v.items|
    ensures v.JObject? ==> Mask(v, keys).JObject? && Mask(v, keys).members.Keys == v.members.Keys
  {
  }

  /** Members under sensitive keys hold "***", and the others hold their masked value. */
  lemma MaskMembers(m: map<string, Json>, keys: seq<string>, k: string)
    requires k in m
    ensures Sensitive(k, keys) ==> Mask(JObject(m), keys).members[k] == Masked
    ensures !Sensitive(k, keys) ==> Mask(JObject(m), keys).members[k] == Mask(m[k], keys)
  {
  }

  /** No sensitive key, at any depth, holds anything but "***" after masking. */
  ghost predicate FullyMasked(v: Json, keys: seq<string>)
    decreases v
  {
    match v
    case JArray(items) => forall i :: 0 <= i < |items| ==> FullyMasked(items[i], keys)
    case JObject(m) => forall k :: k in m ==> (if Sensitive(k, keys) then m[k] == Masked else FullyMasked(m[k], keys))
    case _ => true
  }

  lemma {:induction false} MaskHidesAll(v: Json, keys: seq<string>)
    ensures FullyMasked(Mask(v, keys), keys)
    decreases v
  {
    match v
    case JArray(items) =>
      forall i | 0 <= i < |items|
        ensures FullyMasked(Mask(v, keys).items[i], keys)
      {
        MaskHidesAll(items[i], keys);
      }
    case JObject(m) =>
      forall k | k in m && !Sensitive(k, keys)
        ensures FullyMasked(Mask(v, keys).members[k], keys)
      {
        MaskHidesAll(m[k], keys);
      }
    case _ =>
  }

  /** Masking a masked value changes nothing. */
  lemma {:induction false} MaskIdempotent(v: Json, keys: seq<string>)
    ensures Mask(Mask(v, keys), keys) == Mask(v, keys)
    decreases v
  {
    match v
    case JArray(items) =>
      var once := Mask(v, keys).items;
      forall i | 0 <= i < |items|
        ensures Mask(once[i], keys) == once[i]
      {
        MaskIdempotent(items[i], keys);
      }
      assert Mask(Mask(v, keys), keys).items == once;
    case JObject(m) =>
      var once := Mask(v, keys).members;
      forall k | k in m && !Sensitive(k, keys)
        ensures Mask(once[k], keys) == once[k]
      {
        MaskIdempotent(m[k], keys);
      }
      assert Mask(Mask(v, keys), keys).members == once;
    case _ =>
  }

  /** json.Unmarshal into interface{} (None on a syntax error) and json.Marshal. */
  datatype Codec = Codec(unmarshal: string -> Option<Json>, marshal: Json -> string)

  /** maskSensitive: empty and non-JSON text come back as they are; JSON is masked and marshalled again. */
  function MaskSensitive(text: string, keys: seq<string>, codec: Codec): (r: string)
    ensures text == "" ==> r == text
    ensures codec.unmarshal(text).None? ==> r == text
  {
    if |text| == 0 then text
    else match codec.unmarshal(text)
      case None => text
      case Some(v) => codec.marshal(Mask(v, keys))
  }

  /** With a marshaller whose output unmarshals back, masking a logged body a second time changes nothing. */
  lemma MaskSensitiveIdempotent(text: string, keys: seq<string>, codec: Codec)
    requires forall v :: codec.unmarshal(codec.marshal(v)) == Some(v) && codec.marshal(v) != ""
    ensures MaskSensitive(MaskSensitive(text, keys, codec), keys, codec) == MaskSensitive(text, keys, codec)
  {
    if |text| > 0 && codec.unmarshal(text).Some? {
      var v := codec.unmarshal(text).value;
      MaskIdempotent(v, keys);
    }
  }

  // ---------------------------------------------------------------- sniffing

  /** The media type: lower-cased, trimmed, and cut before the first ';' and trimmed again. */
  function MediaType(ct: string): string
  {
    var t := Lower(TrimSpace(ct));
    var i := Index(t, ";");
    if i >= 0 then TrimSpace(t[..i]) else t
  }

  /** The media types isJSONContentType accepts, as it tests them. */
  predicate AcceptedMediaType(mt: string)
  {
    mt == "application/json" || mt == "text/json" ||
    (HasPrefix(mt, "application/") && HasSuffix(mt, "+json"))
  }

  /** isJSONContentType */
  predicate IsJSONContentType(ct: string)
  {
    ct != "" && AcceptedMediaType(MediaType(ct))
  }

  /**
   * The JSON media types: application/json, text/json, and any
   * application/ subtype with the "+json" structured syntax suffix of
   * section 3.1 of RFC 6839.
   */
  ghost predicate JSONMediaType(mt: string)
  {
    mt == "application/json" || mt == "text/json" ||
    exists sub :: mt == "application/" + sub + "+json"
  }

  /** The prefix and suffix tests accept exactly the JSON media types. */
  lemma AcceptedMediaTypeIff(mt: string)
    ensures AcceptedMediaType(mt) <==> JSONMediaType(mt)
  {
    var pre := "application/";
    var suf := "+json";
    if HasPrefix(mt, pre) && HasSuffix(mt, suf) {
      // the '+' of the suffix cannot fall inside "application/", which has none
      var k := |mt| - |suf|;
      assert mt[k] == '+' by {
        assert mt[k..][0] == mt[k];
      }
      forall j | 0 <= j < |pre|
        ensures mt[j] != '+'
      {
        assert mt[..|pre|][j] == mt[j];
      }
      var sub := mt[|pre|..|mt| - |suf|];
      assert mt == pre + sub + suf by {
        assert mt == mt[..|pre|] + mt[|pre|..|mt| - |suf|] + mt[|mt| - |suf|..];
      }
    }
    if exists sub :: mt == pre + sub + suf {
      var sub :| mt == pre + sub + suf;
      assert mt[..|pre|] == pre;
      assert mt[|mt| - |suf|..] == suf;
    }
  }

  lemma {:induction false} LowerTrimLeft(s: string)
    ensures Lower(TrimLeftSpace(s)) == TrimLeftSpace(Lower(s))
  {
    if s != [] {
      var l := Lower(s);
      LowerCharSpace(s[0]);
      assert l[1..] == Lower(s[1..]);
      LowerTrimLeft(s[1..]);
      if IsSpace(s[0]) {
        assert TrimLeftSpace(l) == TrimLeftSpace(l[1..]);
      } else {
        assert TrimLeftSpace(l) == l;
      }
    }
  }

  /** Lower-casing never makes a space or removes one. */
  lemma LowerCharSpace(c: char)
    ensures IsSpace(LowerChar(c)) == IsSpace(c)
  {
  }

  lemma {:induction false} LowerTrimRight(s: string)
    ensures Lower(TrimRightSpace(s)) == TrimRightSpace(Lower(s))
  {
    if s != [] {
      var l := Lower(s);
      LowerCharSpace(s[|s| - 1]);
      assert l[..|s| - 1] == Lower(s[..|s| - 1]);
      LowerTrimRight(s[..|s| - 1]);
      if IsSpace(s[|s| - 1]) {
        assert TrimRightSpace(l) == TrimRightSpace(l[..|s| - 1]);
      } else {
        assert TrimRightSpace(l) == l;
      }
    }
  }

  /** Lower-casing and trimming commute: no letter is a space and no space is a letter. */
  lemma LowerTrim(s: string)
    ensures Lower(TrimSpace(s)) == TrimSpace(Lower(s))
  {
    LowerTrimLeft(s);
    LowerTrimRight(TrimLeftSpace(s));
  }

  /** Content types equal up to ASCII case have the same media type. */
  lemma MediaTypeCaseInsensitive(ct1: string, ct2: string)
    requires Lower(ct1) == Lower(ct2)
    ensures MediaType(ct1) == MediaType(ct2)
  {
    LowerTrim(ct1);
    LowerTrim(ct2);
    assert Lower(TrimSpace(ct1)) == Lower(TrimSpace(ct2));
  }

  /** The verdict ignores ASCII case. */
  lemma JSONContentTypeCaseInsensitive(ct1: string, ct2: string)
    requires Lower(ct1) == Lower(ct2)
    ensures IsJSONContentType(ct1) == IsJSONContentType(ct2)
  {
    MediaTypeCaseInsensitive(ct1, ct2);
    assert |ct1| == |Lower(ct1)| == |Lower(ct2)| == |ct2|;
  }

  lemma {:induction false} TrimRightKeepsNonSpace(a: string, b: string)
    requires a != [] && !IsSpace(a[|a| - 1])
    ensures TrimRightSpace(a + b) == a + TrimRightSpace(b)
  {
    if b == [] {
      assert a + b == a;
    } else if IsSpace(b[|b| - 1]) {
      assert (a + b)[..|a + b| - 1] == a + b[..|b| - 1];
      TrimRightKeepsNonSpace(a, b[..|b| - 1]);
    }
  }

  lemma TrimSpaceNoop(x: string)
    requires x != [] && !IsSpace(x[0]) && !IsSpace(x[|x| - 1])
    ensures TrimSpace(x) == x
  {
  }

  /** Lower-casing keeps a string's first and last characters non-space and adds no ';'. */
  lemma LowerKeepsEnds(x: string)
    requires x != [] && !IsSpace(x[0]) && !IsSpace(x[|x| - 1])
    requires forall i :: 0 <= i < |x| ==> x[i] != ';'
    ensures Lower(x) != [] && !IsSpace(Lower(x)[0]) && !IsSpace(Lower(x)[|x| - 1])
    ensures forall i :: 0 <= i < |x| ==> Lower(x)[i] != ';'
  {
  }

  lemma {:induction false} IndexOfFirst(t: string, a: string, c: char)
    requires |t| > |a| && t[..|a|] == a && t[|a|] == c
    requires forall i :: 0 <= i < |a| ==> a[i] != c
    ensures Index(t, [c]) == |a|
  {
    assert OccursAt(t, [c], |a|) by {
      assert t[|a|..|a| + 1] == [c];
    }
    forall j | 0 <= j < |a|
      ensures !OccursAt(t, [c], j)
    {
      assert t[j..j + 1][0] == a[j];
    }
  }

  lemma {:induction false} NoOccurrence(t: string, c: char)
    requires forall i :: 0 <= i < |t| ==> t[i] != c
    ensures Index(t, [c]) == -1
  {
    forall j | 0 <= j <= |t|
      ensures !OccursAt(t, [c], j)
    {
      if j + 1 <= |t| {
        assert t[j..j + 1][0] == t[j];
      }
    }
  }

  /** A bare media type (no ';', no surrounding space) is its own media type, lower-cased. */
  lemma BareMediaType(mt: string)
    requires mt != [] && !IsSpace(mt[0]) && !IsSpace(mt[|mt| - 1])
    requires forall i :: 0 <= i < |mt| ==> mt[i] != ';'
    ensures MediaType(mt) == Lower(mt)
  {
    TrimSpaceNoop(mt);
    LowerKeepsEnds(mt);
    NoOccurrence(Lower(mt), ';');
  }

  /** With parameters appended, the media type is still the bare type, lower-cased. */
  lemma ParameterisedMediaType(mt: string, params: string)
    requires mt != [] && !IsSpace(mt[0]) && !IsSpace(mt[|mt| - 1])
    requires forall i :: 0 <= i < |mt| ==> mt[i] != ';'
    ensures MediaType(mt + ";" + params) == Lower(mt)
  {
    var rest := TrimRightSpace(params);
    TrimParameters(mt, params);
    LowerUpToSemicolon(mt, rest);
    MediaTypeSplit(mt + ";" + params, mt, rest);
    LowerTrimmed(mt);
  }

  /** The media type is the trimmed text before the first ';' once the whole is trimmed and lower-cased. */
  lemma MediaTypeSplit(ct: string, mt: string, rest: string)
    requires TrimSpace(ct) == mt + ";" + rest
    requires var lt := Lower(mt + ";" + rest); Index(lt, ";") == |mt| && lt[..|mt|] == Lower(mt)
    ensures MediaType(ct) == TrimSpace(Lower(mt))
  {
  }

  /** A media type without outer space is its own trim once lower-cased. */
  lemma LowerTrimmed(mt: string)
    requires mt != [] && !IsSpace(mt[0]) && !IsSpace(mt[|mt| - 1])
    requires forall i :: 0 <= i < |mt| ==> mt[i] != ';'
    ensures TrimSpace(Lower(mt)) == Lower(mt)
  {
    LowerKeepsEnds(mt);
    TrimSpaceNoop(Lower(mt));
  }

  /** Trimming a content type whose media type has no outer space trims only the parameters' end. */
  lemma TrimParameters(mt: string, params: string)
    requires mt != [] && !IsSpace(mt[0])
    ensures TrimSpace(mt + ";" + params) == mt + ";" + TrimRightSpace(params)
  {
    var mtc := mt + ";";
    TrimRightKeepsNonSpace(mtc, params);
    assert mt + ";" + params == mtc + params;
    var t := mtc + TrimRightSpace(params);
    assert t[0] == mt[0];
  }

  /** After lower-casing, the first ';' is still the one that ends the media type. */
  lemma LowerUpToSemicolon(mt: string, rest: string)
    requires forall i :: 0 <= i < |mt| ==> mt[i] != ';'
    ensures var lt := Lower(mt + ";" + rest);
      Index(lt, ";") == |mt| && lt[..|mt|] == Lower(mt)
  {
    var lt := Lower(mt + ";" + rest);
    assert forall i :: 0 <= i < |mt| ==> Lower(mt)[i] != ';';
    assert lt[..|mt|] == Lower(mt);
    assert lt[|mt|] == ';';
    IndexOfFirst(lt, Lower(mt), ';');
  }

  /**
   * Parameters after ';' do not change the verdict: a bare media type is
   * judged the same with any parameter list appended.
   */
  lemma ParametersIgnored(mt: string, params: string)
    requires mt != [] && !IsSpace(mt[0]) && !IsSpace(mt[|mt| - 1])
    requires forall i :: 0 <= i < |mt| ==> mt[i] != ';'
    ensures IsJSONContentType(mt + ";" + params) == IsJSONContentType(mt)
  {
    BareMediaType(mt);
    ParameterisedMediaType(mt, params);
  }

  /** unicode.IsSpace of a byte read as a rune: '\t' … '\r', ' ', 0x85 and 0xA0. */
  predicate IsSpaceByte(ch: byte)
  {
    (9 <= ch <= 13) || ch == 32 || ch == 0x85 || ch == 0xA0
  }

  /** The first byte that is not a space is '{' or '['. */
  predicate LooksLikeJSON(b: seq<byte>)
  {
    exists i :: 0 <= i < |b| && (forall j :: 0 <= j < i ==> IsSpaceByte(b[j])) && !IsSpaceByte(b[i])
      && (b[i] == 123 || b[i] == 91)
  }

  /** looksLikeJSONBody, as the scan that skips spaces and decides on the first other byte. */
  method LooksLikeJSONBody(b: seq<byte>) returns (r: bool)
    ensures r == LooksLikeJSON(b)
  {
    for i := 0 to |b|
      invariant forall j :: 0 <= j < i ==> IsSpaceByte(b[j])
    {
      if IsSpaceByte(b[i]) {
        continue;
      }
      return b[i] == 123 || b[i] == 91;
    }
    return false;
  }

  /** Empty and all-space bodies never look like JSON. */
  lemma AllSpaceNotJSON(b: seq<byte>)
    requires forall j :: 0 <= j < |b| ==> IsSpaceByte(b[j])
    ensures !LooksLikeJSON(b)
  {
  }

  /** Leading spaces do not matter: only the first other byte decides. */
  lemma LeadingSpaceIgnored(spaces: seq<byte>, b: seq<byte>)
    requires forall j :: 0 <= j < |spaces| ==> IsSpaceByte(spaces[j])
    ensures LooksLikeJSON(spaces + b) == LooksLikeJSON(b)
  {
    var sb := spaces + b;
    if LooksLikeJSON(b) {
      var i :| 0 <= i < |b| && (forall j :: 0 <= j < i ==> IsSpaceByte(b[j])) && !IsSpaceByte(b[i])
        && (b[i] == 123 || b[i] == 91);
      assert sb[|spaces| + i] == b[i];
      forall j | 0 <= j < |spaces| + i
        ensures IsSpaceByte(sb[j])
      {
        if j >= |spaces| {
          assert sb[j] == b[j - |spaces|];
        }
      }
    }
    if LooksLikeJSON(sb) {
      var i :| 0 <= i < |sb| && (forall j :: 0 <= j < i ==> IsSpaceByte(sb[j])) && !IsSpaceByte(sb[i])
        && (sb[i] == 123 || sb[i] == 91);
      assert i >= |spaces|;
      assert sb[i] == b[i - |spaces|];
      forall j | 0 <= j < i - |spaces|
        ensures IsSpaceByte(b[j])
      {
        assert b[j] == sb[j + |spaces|];
      }
    }
  }

  /** shouldLogReqBody: everything unless onlyJSONBody; then a JSON content type, or a guess from the body. */
  predicate ShouldLogReqBody(cfg: Settings, contentType: string, peek: seq<byte>)
  {
    if !cfg.onlyJSONBody then true
    else if IsJSONContentType(contentType) then true
    else if cfg.guessJSON && |peek| > 0 then LooksLikeJSON(peek)
    else false
  }

  /** The response-side decision, written out separately in the handler. */
  predicate ShouldLogResp(cfg: Settings, contentType: string, peek: seq<byte>)
  {
    var byHeader := !cfg.onlyJSONBody || IsJSONContentType(contentType);
    if !byHeader && cfg.guessJSON && |peek| > 0 then LooksLikeJSON(peek) else byHeader
  }

  /** Requests and responses are judged by the same rule. */
  lemma SameDecision(cfg: Settings, contentType: string, peek: seq<byte>)
    ensures ShouldLogResp(cfg, contentType, peek) == ShouldLogReqBody(cfg, contentType, peek)
  {
  }

  /** The decision, case by case: a body is logged exactly in these three situations. */
  lemma ShouldLogCases(cfg: Settings, contentType: string, peek: seq<byte>)
    ensures ShouldLogReqBody(cfg, contentType, peek) <==>
      || !cfg.onlyJSONBody
      || IsJSONContentType(contentType)
      || (cfg.guessJSON && LooksLikeJSON(peek))
  {
  }

  // ---------------------------------------------------------------- truncation

  /** "...(truncated)" */
  const TruncatedMark: seq<byte> := [46, 46, 46, 40, 116, 114, 117, 110, 99, 97, 116, 101, 100, 41]

  /** io.ReadAll(io.LimitReader(body, n)) */
  function ReadLimited(body: seq<byte>, n: int): (r: seq<byte>)
    ensures |r| <= |body| && r == body[..|r|]
    ensures n >= 0 ==> |r| == if |body| <= n then |body| else n
  {
    if n <= 0 then [] else if |body| <= n then body else body[..n]
  }

  /** A logged body longer than max is cut to max bytes and marked; a shorter one is logged whole. */
  function Truncate(b: seq<byte>, max: int): seq<byte>
    requires max >= 0
  {
    if |b| > max then b[..max] + TruncatedMark else b
  }

  /**
   * The request body as logged (before masking): max+1 bytes are read so
   * that a body longer than max is detected and marked.
   */
  function RequestLogged(body: seq<byte>, max: int): (r: seq<byte>)
    requires max >= 0
  {
    Truncate(ReadLimited(body, max + 1), max)
  }

  lemma RequestTruncation(body: seq<byte>, max: int)
    requires max >= 0
    ensures |body| > max ==> RequestLogged(body, max) == body[..max] + TruncatedMark
    ensures |body| <= max ==> RequestLogged(body, max) == body
  {
    var read := ReadLimited(body, max + 1);
    if |body| > max {
      assert read[..max] == body[..max];
    }
  }

  /**
   * The response body as logged (before masking), as written: the
   * capture holds at most maxBodySize bytes, so the length check that
   * should add the mark never fires.
   */
  function ResponseLoggedAsWritten(written: seq<byte>, max: int): seq<byte>
    requires max >= 0
  {
    Truncate(Captured(written, max), max)
  }

  /** A response longer than the limit is cut silently: no mark is ever added. */
  lemma ResponseNeverMarked(written: seq<byte>, max: int)
    requires max >= 0
    ensures ResponseLoggedAsWritten(written, max) == Captured(written, max)
    ensures |written| > max ==> ResponseLoggedAsWritten(written, max) == written[..max]
  {
  }

  /** Concretely: three bytes through a two-byte limit are logged as the first two, unmarked. */
  lemma ResponseMarkMissing()
    ensures ResponseLoggedAsWritten([97, 98, 99], 2) == [97, 98]
    ensures RequestLogged([97, 98, 99], 2) == [97, 98] + TruncatedMark
  {
    var abc: seq<byte> := [97, 98, 99];
    RequestTruncation(abc, 2);
    assert abc[..2] == [97, 98];
  }

  /**
   * The response body as the request side logs its body: the writer keeps
   * maxBodySize + 1 bytes, so a longer response is detected and marked.
   */
  function ResponseLogged(written: seq<byte>, max: int): seq<byte>
    requires max >= 0
  {
    Truncate(Captured(written, max + 1), max)
  }

  lemma ResponseTruncation(written: seq<byte>, max: int)
    requires max >= 0
    ensures |written| > max ==> ResponseLogged(written, max) == written[..max] + TruncatedMark
    ensures |written| <= max ==> ResponseLogged(written, max) == written
    ensures ResponseLogged(written, max) == RequestLogged(written, max)
  {
    var held := Captured(written, max + 1);
    if |written| > max {
      assert held[..max] == written[..max];
    }
    RequestTruncation(written, max);
  }
}
