/**
 * The request helpers of the API handlers (app/handler/api/common/api.go):
 * page-size and offset normalisation through two integer pointers, the
 * flexible error code of a response, the accumulation of binding errors,
 * the header defaults, and the replacement of nil response data.
 */
module ApiCommon {
  import opened Wrappers
  import opened Text
  import opened GoInt
  import Environment

  /** defaultSize: the page size used when the requested one is out of range. */
  const DefaultSize: int := 20

  // ---------------------------------------------------------------- pagination

  /** The page size pagination stores: the requested size when it lies in 1..20, else 20. */
  function FinalSize(size: int): (r: int)
    ensures 1 <= r <= DefaultSize
  {
    if size <= 0 || size > DefaultSize then DefaultSize else size
  }

  /**
   * The offset pagination stores in place of a 1-based page index: Go
   * computes (index-1)*size in its 64-bit int, so the product wraps.
   */
  function Offset(index: int, size: int): (r: int)
    requires size >= 1
    ensures InInt64(r)
    ensures index <= 1 ==> r == 0
    ensures (index - 1) * size <= MaxInt64 ==> r >= 0
  {
    if index > 1 then WrapInt64((index - 1) * size) else 0
  }

  /** A size in range is kept, any other becomes the default; so normalising twice changes nothing. */
  lemma FinalSizeSpec(size: int)
    ensures 1 <= size <= DefaultSize <==> FinalSize(size) == size
    ensures FinalSize(FinalSize(size)) == FinalSize(size)
  {
  }

  ghost predicate MultipleOf(r: int, size: int)
  {
    exists k: nat :: r == k * size
  }

  /**
   * While (index-1)*size fits in an int, the offset is the number of rows on
   * the pages before the requested one, pages counting from 1: a
   * non-negative multiple of the size.
   */
  lemma OffsetSpec(index: int, size: int)
    requires size >= 1
    ensures (index - 1) * size <= MaxInt64 ==> MultipleOf(Offset(index, size), size)
  {
    if (index - 1) * size <= MaxInt64 {
      var k: nat := if index > 1 then index - 1 else 0;
      assert Offset(index, size) == k * size;
    }
  }

  /**
   * A page index past MaxInt64/size wraps: index 461168601842738792 with
   * size 20 gives a negative offset rather than the row count.
   */
  lemma OffsetWrapsNegative()
    ensures Offset(461168601842738792, 20) == -9223372036854775796
  {
    assert (461168601842738792 - 1) * 20 == 9223372036854775820;
  }

  /** A Go *int. */
  class IntRef {
    var v: int

    constructor (v: int)
      ensures this.v == v
    {
      this.v := v;
    }
  }

  /**
   * pagination: with both pointers non-nil, the size is normalised first and
   * the index is then replaced by the offset. When both pointers name the
   * same integer, the index read sees the size just written.
   */
  method Pagination(size: IntRef?, index: IntRef?)
    modifies size, index
    ensures size == null || index == null ==>
      (size != null ==> size.v == old(size.v)) && (index != null ==> index.v == old(index.v))
    ensures size != null && index != null && size != index ==>
      size.v == FinalSize(old(size.v)) && index.v == Offset(old(index.v), FinalSize(old(size.v)))
    ensures size != null && size == index ==>
      size.v == Offset(FinalSize(old(size.v)), FinalSize(old(size.v)))
  {
    if size == null || index == null {
      return;
    }
    var finalSize := size.v;
    if finalSize <= 0 || finalSize > DefaultSize {
      finalSize := DefaultSize;
    }
    size.v := finalSize;
    var finalOffset := 0;
    if index.v > 1 {
      finalOffset := WrapInt64((index.v - 1) * finalSize);
    }
    index.v := finalOffset;
  }

  // ---------------------------------------------------------------- error codes

  predicate IsDigit(c: char) { '0' <= c <= '9' }

  predicate AllDigits(s: string) { forall i :: 0 <= i < |s| ==> IsDigit(s[i]) }

  /** The value of a string of decimal digits. */
  function DigitsValue(s: string): (n: nat)
    requires AllDigits(s)
  {
    if s == [] then 0 else DigitsValue(s[..|s| - 1]) * 10 + (s[|s| - 1] as int - '0' as int)
  }

  /** The decimal digits of n, without leading zeros. */
  function Digits(n: nat): (s: string)
    ensures |s| >= 1 && AllDigits(s)
    ensures s[0] == '0' ==> n == 0
  {
    if n < 10 then [('0' as int + n) as char]
    else Digits(n / 10) + [('0' as int + n % 10) as char]
  }

  /** strconv.Itoa */
  function FormatInt(n: int): string
  {
    if n < 0 then "-" + Digits(-n) else Digits(n)
  }

  /**
   * strconv.Atoi on a 64-bit platform: an optional sign, at least one ASCII
   * digit and nothing else, with a value that fits the int; otherwise an error.
   */
  function Atoi(s: string): (r: Option<int>)
    ensures r.Some? ==> MinInt64 <= r.value <= MaxInt64
  {
    if s == "" then None
    else
      var signed := s[0] == '+' || s[0] == '-';
      var body := if signed then s[1..] else s;
      if body == "" || !AllDigits(body) then None
      else
        var n: int := DigitsValue(body);
        var v := if s[0] == '-' then -n else n;
        if MinInt64 <= v <= MaxInt64 then Some(v) else None
  }

  /** The code a response carries: a number when the code parses, else the code text. */
  datatype Code = Numeric(n: int) | Text(s: string)

  /** parseErrorCodeFlexible */
  function ParseErrorCodeFlexible(code: string): (r: Code)
    ensures r.Numeric? <==> Atoi(code).Some?
    ensures r.Text? ==> r.s == code
  {
    match Atoi(code)
    case Some(n) => Numeric(n)
    case None => Text(code)
  }

  lemma {:induction false} DigitsRoundTrip(n: nat)
    ensures DigitsValue(Digits(n)) == n
  {
    if n >= 10 {
      DigitsRoundTrip(n / 10);
      var s := Digits(n);
      assert s[..|s| - 1] == Digits(n / 10);
    }
  }

  /** Every 64-bit integer, printed in decimal, is parsed back as that number. */
  lemma FormattedCodeParses(n: int)
    requires MinInt64 <= n <= MaxInt64
    ensures ParseErrorCodeFlexible(FormatInt(n)) == Numeric(n)
  {
    var s := FormatInt(n);
    if n < 0 {
      var d := Digits(-n);
      DigitsRoundTrip(-n);
      assert s[0] == '-' && s[1..] == d;
      assert Atoi(s) == Some(n);
    } else {
      var d := Digits(n);
      DigitsRoundTrip(n);
      assert s == d && IsDigit(s[0]);
      assert Atoi(s) == Some(n);
    }
  }

  /** A code with a character other than a digit after an optional sign stays text. */
  lemma NonNumericCodeKept(code: string, i: nat)
    requires i < |code| && !IsDigit(code[i]) && !(i == 0 && (code[0] == '+' || code[0] == '-'))
    ensures ParseErrorCodeFlexible(code) == Text(code)
  {
    if code[0] == '+' || code[0] == '-' {
      assert code[1..][i - 1] == code[i];
    }
  }

  /** A numeral too large for a 64-bit int stays text as well. */
  lemma OutOfRangeCodeKept(code: string)
    requires code != "" && AllDigits(code) && DigitsValue(code) > MaxInt64
    ensures ParseErrorCodeFlexible(code) == Text(code)
  {
  }

  // ---------------------------------------------------------------- errors

  /** A Go error: a message, or what errors.Join builds from several errors. */
  datatype Err = Leaf(msg: string) | Joined(errs: seq<Err>)

  /** The messages of the plain errors in e, in order. */
  function Leaves(e: Err): seq<string>
    decreases e
  {
    match e
    case Leaf(m) => [m]
    case Joined(es) => LeavesAll(es)
  }

  function LeavesAll(es: seq<Err>): seq<string>
    decreases es
  {
    if es == [] then [] else Leaves(es[0]) + LeavesAll(es[1..])
  }

  /** Error(): a joined error prints its parts one per line. */
  function Message(e: Err): string
    decreases e
  {
    match e
    case Leaf(m) => m
    case Joined(es) => Join(Messages(es), "\n")
  }

  function Messages(es: seq<Err>): (r: seq<string>)
    ensures |r| == |es|
    decreases es
  {
    if es == [] then [] else [Message(es[0])] + Messages(es[1..])
  }

  /** errors.Join(prev, e) with e non-nil: the non-nil errors, in order, wrapped together. */
  function JoinErr(prev: Option<Err>, e: Err): (r: Err)
  {
    Joined(if prev.Some? then [prev.value, e] else [e])
  }

  /** Every joined error holds at least one error, as errors.Join never wraps none. */
  predicate WellFormed(e: Err)
    decreases e
  {
    match e
    case Leaf(_) => true
    case Joined(es) => es != [] && forall i :: 0 <= i < |es| ==> WellFormed(es[i])
  }

  /** AddError keeps every earlier error and adds the new one after them. */
  lemma JoinErrKeepsEarlier(prev: Option<Err>, e: Err)
    ensures Leaves(JoinErr(prev, e)) == (if prev.Some? then Leaves(prev.value) else []) + Leaves(e)
    ensures prev.Some? ==> Message(JoinErr(prev, e)) == Message(prev.value) + "\n" + Message(e)
    ensures prev.None? ==> Message(JoinErr(prev, e)) == Message(e)
    ensures (prev.None? || WellFormed(prev.value)) && WellFormed(e) ==> WellFormed(JoinErr(prev, e))
  {
    if prev.Some? {
      var es := [prev.value, e];
      assert es[1..] == [e] && es[1..][1..] == [];
      assert LeavesAll([e]) == Leaves(e) + LeavesAll([]);
      assert LeavesAll(es) == Leaves(prev.value) + LeavesAll([e]);
      assert Messages([e]) == [Message(e)] + Messages([]);
      assert Messages(es) == [Message(prev.value), Message(e)];
      assert Join([Message(prev.value), Message(e)], "\n") == Message(prev.value) + "\n" + Join([Message(e)], "\n");
    } else {
      assert [e][1..] == [];
      assert LeavesAll([e]) == Leaves(e) + LeavesAll([]);
      assert Messages([e]) == [Message(e)] + Messages([]);
    }
  }

  lemma {:induction false} LeavesNonEmpty(e: Err)
    requires WellFormed(e)
    ensures Leaves(e) != []
    decreases e
  {
    match e
    case Leaf(_) =>
    case Joined(es) =>
      LeavesNonEmpty(es[0]);
  }

  lemma {:induction false} JoinAppend(xs: seq<string>, ys: seq<string>, sep: string)
    requires xs != [] && ys != []
    ensures Join(xs + ys, sep) == Join(xs, sep) + sep + Join(ys, sep)
  {
    if |xs| == 1 {
      assert (xs + ys)[1..] == ys;
    } else {
      JoinAppend(xs[1..], ys, sep);
      assert (xs + ys)[1..] == xs[1..] + ys;
    }
  }

  /** The printed message of a well-formed error is its plain messages, one per line. */
  lemma {:induction false} MessageIsLeavesPerLine(e: Err)
    requires WellFormed(e)
    ensures Message(e) == Join(Leaves(e), "\n")
    decreases e
  {
    match e
    case Leaf(m) =>
    case Joined(es) =>
      MessagesArePerLine(es);
  }

  lemma {:induction false} MessagesArePerLine(es: seq<Err>)
    requires es != [] && forall i :: 0 <= i < |es| ==> WellFormed(es[i])
    ensures Join(Messages(es), "\n") == Join(LeavesAll(es), "\n")
    ensures LeavesAll(es) != []
    decreases es
  {
    MessageIsLeavesPerLine(es[0]);
    LeavesNonEmpty(es[0]);
    var rest := es[1..];
    assert LeavesAll(es) == Leaves(es[0]) + LeavesAll(rest);
    if rest == [] {
      assert LeavesAll(es) == Leaves(es[0]);
      assert Messages(es) == [Message(es[0])];
    } else {
      assert forall i :: 0 <= i < |rest| ==> rest[i] == es[i + 1];
      MessagesArePerLine(rest);
      JoinAppend(Leaves(es[0]), LeavesAll(rest), "\n");
      assert Messages(es) == [Message(es[0])] + Messages(rest);
      assert Messages(es)[1..] == Messages(rest);
    }
  }

  /** The part of an Api handler that AddError updates. */
  class Api {
    /** Errors: nil until a first error is added. */
    var errors: Option<Err>

    constructor ()
      ensures errors == None
    {
      errors := None;
    }

    /** AddError: a nil error changes nothing; any other is joined after the earlier ones. */
    method AddError(err: Option<Err>)
      modifies this
      ensures err.None? ==> errors == old(errors)
      ensures err.Some? ==> errors == Some(JoinErr(old(errors), err.value))
    {
      if err.None? {
        return;
      }
      errors := Some(JoinErr(errors, err.value));
    }
  }

  // ---------------------------------------------------------------- headers

  /** i18n.En, the language of a request without a language header. */
  const En: string := "en"

  /** constant.Test, the environment of a request without an env header. */
  const TestEnv: string := Environment.Test

  /** defaultLanguage: the language header, or English when it is empty. */
  function DefaultLanguage(header: string): (r: string)
    ensures r != ""
    ensures header != "" ==> r == header
    ensures header == "" ==> r == En
  {
    if header == "" then En else header
  }

  /** defaultEnv: the env header, or "test" when it is empty. */
  function DefaultEnv(header: string): (r: string)
    ensures r != ""
    ensures header != "" ==> r == header
    ensures header == "" ==> r == TestEnv
  {
    if header == "" then TestEnv else header
  }

  /** Applying a header default to its own result changes nothing. */
  lemma HeaderDefaultsIdempotent(header: string)
    ensures DefaultLanguage(DefaultLanguage(header)) == DefaultLanguage(header)
    ensures DefaultEnv(DefaultEnv(header)) == DefaultEnv(header)
  {
  }

  // ---------------------------------------------------------------- responses

  /** The reflect.Kind classes sendResponse distinguishes. */
  datatype Kind = SliceKind | PtrKind | MapKind | InterfaceKind | StructKind | OtherKind

  /** Response data: a nil interface, or a value of some kind that may itself be a nil slice, pointer, map or interface. */
  datatype Data =
    | NilData
    | Value(kind: Kind, isNil: bool, repr: string)
    | EmptyStruct
    | EmptySlice

  predicate IsNil(d: Data)
  {
    d.NilData? || (d.Value? && d.isNil && d.kind in {SliceKind, PtrKind, MapKind, InterfaceKind})
  }

  /** The data sendResponse puts in the response: nil slices become [], other nils {}. */
  function NormalizeData(d: Data): (r: Data)
    ensures !IsNil(r)
    ensures !IsNil(d) ==> r == d
    ensures d.NilData? ==> r == EmptyStruct
    ensures d.Value? && d.isNil && d.kind == SliceKind ==> r == EmptySlice
    ensures d.Value? && d.isNil && d.kind in {PtrKind, MapKind, InterfaceKind} ==> r == EmptyStruct
  {
    var d1 := if d.NilData? then EmptyStruct else d;
    if d1.Value? && d1.isNil then
      match d1.kind
      case SliceKind => EmptySlice
      case PtrKind => EmptyStruct
      case MapKind => EmptyStruct
      case InterfaceKind => EmptyStruct
      case _ => d1
    else d1
  }

  /** Normalising data that is already normalised changes nothing. */
  lemma NormalizeDataIdempotent(d: Data)
    ensures NormalizeData(NormalizeData(d)) == NormalizeData(d)
  {
  }

  datatype Response = Response(code: Code, msg: string, data: Data)

  /** The response sendResponse writes: the code, the message and the normalised data. */
  function SendResponse(code: Code, msg: string, data: Data): (r: Response)
    ensures r.code == code && r.msg == msg && !IsNil(r.data)
  {
    Response(code, msg, NormalizeData(data))
  }

  /** ErrorWithMsg: the code parsed flexibly, the given message, empty data. */
  function ErrorWithMsg(code: string, msg: string): (r: Response)
    ensures r.data == EmptyStruct && r.msg == msg
    ensures r.code.Text? ==> r.code.s == code
  {
    SendResponse(ParseErrorCodeFlexible(code), msg, EmptyStruct)
  }
}
