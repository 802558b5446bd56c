/**
 * The generic query builder of app/dao/dao/dao.go: an immutable chain of
 * builders that clone the receiver and append, the key and operator
 * parsing of WhereMap, and the renderer that turns a tree of conditions
 * into a SQL fingerprint and its argument list.
 *
 * The gorm and Redis handles are left out; a query's outcome is a
 * parameter. A condition value (Go's `any`) is nil, a scalar or a slice.
 */
module Dao {
  import opened Wrappers
  import opened Text
  import opened StrOrder
  import opened GoInt

  /** A condition value: nil, a non-slice value (by its text) or a slice/array. */
  datatype Value = Null | Scalar(text: string) | List(items: seq<Value>)

  datatype Condition = Condition(field: string, op: string, value: Value)

  /**
   * An element of a condition list: a Condition, a ConditionGroup, or a
   * value of any other type, which the renderer skips.
   */
  datatype CondItem =
    | Cond(c: Condition)
    | Group(ands: seq<CondItem>, ors: seq<CondItem>)
    | Unsupported

  datatype JoinSpec = JoinSpec(table: string, on: string, kind: string)

  datatype DbError = DbError(msg: string)

  /** The outcome of a COUNT query. */
  datatype CountOutcome = Counted(n: int) | CountFailed(e: DbError)

  /** A snapshot of a DAO's query state. */
  datatype Query = Query(
    conds: seq<CondItem>,
    selects: seq<string>,
    orderBy: seq<string>,
    joins: seq<JoinSpec>,
    limit: int,
    offset: int,
    unscoped: bool,
    err: Option<DbError>)

  const EmptyQuery: Query := Query([], [], [], [], 0, 0, false, None)

  // ---------------------------------------------------------------- operators

  /** Key-suffix spellings and the SQL operators they stand for. */
  const OpMap: map<string, string> := map[
    "eq" := "=", "ne" := "!=", "gt" := ">", "lt" := "<",
    "gte" := ">=", "lte" := "<=", "like" := "LIKE", "in" := "IN"]

  predicate NoLowerAscii(s: string) { forall i :: 0 <= i < |s| ==> !IsLowerAscii(s[i]) }

  /** A spelled-out operator (any case) maps through OpMap; any other is upper-cased. */
  function NormalizeOp(op: string): (r: string)
    ensures NoLowerAscii(r)
    ensures Lower(op) in OpMap ==> r == OpMap[Lower(op)]
    ensures Lower(op) !in OpMap ==> r == Upper(op)
  {
    if Lower(op) in OpMap then OpMap[Lower(op)] else Upper(op)
  }

  /** Normalising an operator twice gives what normalising it once does. */
  lemma NormalizeOpIdempotent(op: string)
    ensures NormalizeOp(NormalizeOp(op)) == NormalizeOp(op)
  {
    var r := NormalizeOp(op);
    if Lower(op) in OpMap {
      assert Lower("LIKE") == "like";
      assert Lower("IN") == "in";
      assert Lower("=") == "=" && Lower("!=") == "!=" && Lower(">") == ">";
      assert Lower("<") == "<" && Lower(">=") == ">=" && Lower("<=") == "<=";
      assert Upper("=") == "=" && Upper("!=") == "!=" && Upper(">") == ">";
      assert Upper("<") == "<" && Upper(">=") == ">=" && Upper("<=") == "<=";
    } else {
      LowerOfUpper(op);
      UpperIdempotent(op);
    }
  }

  /** The key of WhereMap: `field` alone, or `field__op` with further `__` segments ignored. */
  function ParseKey(k: string): (string, string)
  {
    var i := Index(k, "__");
    if i == -1 then (k, "=")
    else
      var rest := k[i + 2..];
      var j := Index(rest, "__");
      var part := if j == -1 then rest else rest[..j];
      (k[..i], if Lower(part) in OpMap then OpMap[Lower(part)] else NormalizeOp(part))
  }

  /**
   * A key without "__" is the field itself with `=`; otherwise the field is
   * the part before the first "__" and contains no "__".
   */
  lemma ParseKeyField(k: string)
    ensures !Contains(k, "__") ==> ParseKey(k) == (k, "=")
    ensures Contains(k, "__") ==> HasPrefix(k, ParseKey(k).0 + "__") && !Contains(ParseKey(k).0, "__")
  {
    var i := Index(k, "__");
    if i != -1 {
      assert k[..i] + "__" == k[..i + 2];
      PrefixHasNoEarlierOccurrence(k, "__", i);
    }
  }

  /** A prefix of `s` that ends before its first occurrence of `sub` does not contain `sub`. */
  lemma PrefixHasNoEarlierOccurrence(s: string, sub: string, i: nat)
    requires |sub| > 0
    requires i <= |s| && forall j :: 0 <= j < i ==> !OccursAt(s, sub, j)
    ensures !Contains(s[..i], sub)
  {
    var p := s[..i];
    forall j | 0 <= j <= |p|
      ensures !OccursAt(p, sub, j)
    {
      if j + |sub| <= |p| {
        assert p[j..j + |sub|] == s[j..j + |sub|];
        assert !OccursAt(s, sub, j);
      }
    }
  }

  /**
   * The segments after the operator are ignored: field + "__" + op + "__" +
   * tail parses to the field and the normalised operator, for a field and
   * an operator with no "__" and no trailing '_'.
   */
  lemma ParseKeyOperator(f: string, op: string, tail: string)
    requires !Contains(f, "__") && (f == [] || f[|f| - 1] != '_')
    requires !Contains(op, "__") && (op == [] || op[|op| - 1] != '_')
    ensures ParseKey(f + "__" + (op + "__" + tail)) == (f, NormalizeOp(op))
  {
    var rest := op + "__" + tail;
    FirstSeparator(f, rest);
    FirstSeparator(op, tail);
    assert rest[..|op|] == op;
    ParseKeySplit(f, rest, op);
  }

  /**
   * A key built as field + "__" + op parses back to the field and the
   * normalised operator, when the field has no "__" and does not end in
   * '_' and the operator has no "__".
   */
  lemma ParseKeyRoundTrip(f: string, op: string)
    requires !Contains(f, "__") && (f == [] || f[|f| - 1] != '_')
    requires !Contains(op, "__")
    ensures ParseKey(f + "__" + op) == (f, NormalizeOp(op))
  {
    FirstSeparator(f, op);
    ParseKeySplit(f, op, op);
  }

  /** ParseKey on a key whose first "__" follows f: the field f and the operator taken from the rest. */
  lemma ParseKeySplit(f: string, rest: string, part: string)
    requires Index(f + "__" + rest, "__") == |f|
    requires var j := Index(rest, "__"); part == (if j == -1 then rest else rest[..j])
    ensures ParseKey(f + "__" + rest) == (f, NormalizeOp(part))
  {
    var k := f + "__" + rest;
    assert k[..|f|] == f && k[|f| + 2..] == rest;
  }

  /** The first "__" of f + "__" + tail is the one after f, when f has none and does not end in '_'. */
  lemma {:induction false} FirstSeparator(f: string, tail: string)
    requires !Contains(f, "__") && (f == [] || f[|f| - 1] != '_')
    ensures Index(f + "__" + tail, "__") == |f|
  {
    var k := f + "__" + tail;
    assert OccursAt(k, "__", |f|) by {
      assert k[|f|..|f| + 2] == "__";
    }
    assert Index(f, "__") == -1;
    forall j | 0 <= j < |f|
      ensures !OccursAt(k, "__", j)
    {
      if j + 2 <= |f| {
        assert k[j..j + 2] == f[j..j + 2];
        assert !OccursAt(f, "__", j);
      } else {
        assert k[j] == f[|f| - 1];
        assert k[j..j + 2][0] == k[j];
      }
    }
  }

  // ---------------------------------------------------------------- rendering

  /** flattenSlice: the elements of a slice, or the value itself as a singleton (nil included). */
  function Flatten(v: Value): (r: seq<Value>)
    ensures v.List? ==> r == v.items
    ensures !v.List? ==> r == [v]
  {
    if v.List? then v.items else [v]
  }

  /** n comma-separated placeholders: strings.TrimRight(strings.Repeat("?,", n), ","). */
  function Placeholders(n: nat): string
  {
    TrimRightChar(Repeat("?,", n), ',')
  }

  datatype Rendered = Rendered(sql: string, args: seq<Value>)

  predicate Unmarked(s: string) { CountChar(s, '?') == 0 }

  /**
   * renderCond: an empty IN matches nothing ("1=0"); IN lists one
   * placeholder per element; a nil value compares with NULL (IS NULL for
   * `=`, IS NOT NULL for `!=`) and binds nothing; any other value binds one
   * placeholder.
   */
  function RenderCond(c: Condition): (r: Rendered)
    ensures Upper(c.op) == "IN" && Flatten(c.value) == [] ==> r == Rendered("1=0", [])
    ensures Upper(c.op) == "IN" && Flatten(c.value) != [] ==>
      r == Rendered(c.field + " IN (" + Placeholders(|Flatten(c.value)|) + ")", Flatten(c.value))
    ensures Upper(c.op) == "=" && c.value.Null? ==> r == Rendered(c.field + " IS NULL", [])
    ensures Upper(c.op) == "!=" && c.value.Null? ==> r == Rendered(c.field + " IS NOT NULL", [])
    ensures Upper(c.op) !in {"IN", "=", "!="} && c.value.Null? ==>
      r == Rendered(c.field + " " + Upper(c.op) + " NULL", [])
    ensures Upper(c.op) != "IN" && !c.value.Null? ==> r == Rendered(c.field + " " + Upper(c.op) + " ?", [c.value])
  {
    var op := Upper(c.op);
    if op == "IN" then
      var vs := Flatten(c.value);
      if |vs| == 0 then Rendered("1=0", [])
      else Rendered(c.field + " IN (" + Placeholders(|vs|) + ")", vs)
    else if c.value.Null? then
      if op == "=" then Rendered(c.field + " IS NULL", [])
      else if op == "!=" then Rendered(c.field + " IS NOT NULL", [])
      else Rendered(c.field + " " + op + " NULL", [])
    else Rendered(c.field + " " + op + " ?", [c.value])
  }

  /** A rendered condition has one '?' per argument when its field and operator have none. */
  lemma RenderCondPlaceholders(c: Condition)
    requires Unmarked(c.field) && Unmarked(c.op)
    ensures CountChar(RenderCond(c).sql, '?') == |RenderCond(c).args|
  {
    var op := Upper(c.op);
    UpperKeepsMarks(c.op);
    if op == "IN" {
      var vs := Flatten(c.value);
      if |vs| == 0 {
        CountCharAbsent("1=0", '?');
      } else {
        InMarks(c.field, |vs|);
      }
    } else if c.value.Null? {
      NullMarks(c.field, op);
    } else {
      ScalarMarks(c.field, op);
    }
  }

  lemma InMarks(field: string, n: nat)
    requires Unmarked(field) && n >= 1
    ensures CountChar(field + " IN (" + Placeholders(n) + ")", '?') == n
  {
    PlaceholdersCount(n);
    CountCharAbsent(" IN (", '?');
    CountCharAbsent(")", '?');
    CountCharAppend(field, " IN (", '?');
    CountCharAppend(field + " IN (", Placeholders(n), '?');
    CountCharAppend(field + " IN (" + Placeholders(n), ")", '?');
  }

  lemma NullMarks(field: string, op: string)
    requires Unmarked(field) && Unmarked(op)
    ensures Unmarked(field + " IS NULL") && Unmarked(field + " IS NOT NULL")
    ensures Unmarked(field + " " + op + " NULL")
  {
    IsNullUnmarked();
    IsNotNullUnmarked();
    NullUnmarked();
    UnmarkedAppend(field, " IS NULL");
    UnmarkedAppend(field, " IS NOT NULL");
    UnmarkedAppend(field, " ");
    UnmarkedAppend(field + " ", op);
    UnmarkedAppend(field + " " + op, " NULL");
  }

  /** The keywords renderCond puts around a NULL comparison hold no placeholder. */
  lemma IsNullUnmarked()
    ensures Unmarked(" IS NULL")
  {
    CountCharAbsent(" IS NULL", '?');
  }

  lemma IsNotNullUnmarked()
    ensures Unmarked(" IS NOT NULL")
  {
    CountCharAbsent(" IS NOT NULL", '?');
  }

  lemma NullUnmarked()
    ensures Unmarked(" NULL") && Unmarked(" ")
  {
    CountCharAbsent(" NULL", '?');
    CountCharAbsent(" ", '?');
  }

  lemma UnmarkedAppend(a: string, b: string)
    requires Unmarked(a) && Unmarked(b)
    ensures Unmarked(a + b)
  {
    CountCharAppend(a, b, '?');
  }

  lemma ScalarMarks(field: string, op: string)
    requires Unmarked(field) && Unmarked(op)
    ensures CountChar(field + " " + op + " ?", '?') == 1
  {
    CountCharAbsent(" ", '?');
    CountCharAppend(field, " ", '?');
    CountCharAppend(field + " ", op, '?');
    CountCharAppend(field + " " + op, " ?", '?');
    assert CountChar(" ?", '?') == 1;
  }

  lemma {:induction false} UpperKeepsMarks(s: string)
    ensures CountChar(Upper(s), '?') == CountChar(s, '?')
  {
    if s != [] {
      assert Upper(s)[1..] == Upper(s[1..]);
      UpperKeepsMarks(s[1..]);
    }
  }

  lemma {:induction false} RepeatSnoc(s: string, n: nat)
    ensures Repeat(s, n + 1) == Repeat(s, n) + s
  {
    if n > 0 {
      RepeatSnoc(s, n - 1);
    }
  }

  lemma {:induction false} RepeatMarks(n: nat)
    ensures CountChar(Repeat("?,", n), '?') == n
  {
    if n > 0 {
      RepeatMarks(n - 1);
      CountCharAppend("?,", Repeat("?,", n - 1), '?');
      assert CountChar("?,", '?') == 1;
    }
  }

  /** n >= 1 placeholders are "?,?,…,?": exactly n marks, the trailing comma removed. */
  lemma PlaceholdersCount(n: nat)
    requires n >= 1
    ensures Placeholders(n) == Repeat("?,", n - 1) + "?"
    ensures CountChar(Placeholders(n), '?') == n
  {
    var x := Repeat("?,", n - 1);
    RepeatSnoc("?,", n - 1);
    assert Repeat("?,", n) == x + "?,";
    TrimLastComma(x);
    RepeatMarks(n - 1);
    CountCharAppend(x, "?", '?');
  }

  /** Trimming the commas off "…?," removes exactly the last one. */
  lemma TrimLastComma(x: string)
    ensures TrimRightChar(x + "?,", ',') == x + "?"
  {
    assert (x + "?,")[..|x| + 1] == x + "?";
    assert TrimRightChar(x + "?,", ',') == TrimRightChar(x + "?", ',');
  }

  datatype Parts = Parts(parts: seq<string>, args: seq<Value>)

  /** The parts and arguments of one level of renderConds' loop, in order. */
  function RenderParts(items: seq<CondItem>): Parts
    decreases items, 0
  {
    if items == [] then Parts([], [])
    else
      var rest := RenderParts(items[1..]);
      match items[0]
      case Cond(c) =>
        var r := RenderCond(c);
        Parts([r.sql] + rest.parts, r.args + rest.args)
      case Group(a, o) =>
        var sect := Section(a, "AND") + Section(o, "OR");
        if sect == [] then rest
        else Parts(["(" + Join(Sqls(sect), " OR ") + ")"] + rest.parts, AllArgs(sect) + rest.args)
      case Unsupported => rest
  }

  /** A non-empty sub-list rendered in parentheses; an empty one contributes nothing. */
  function Section(items: seq<CondItem>, joiner: string): seq<Rendered>
    decreases items, 2
  {
    if |items| > 0 then
      var r := RenderConds(items, joiner);
      [Rendered("(" + r.sql + ")", r.args)]
    else []
  }

  function Sqls(rs: seq<Rendered>): seq<string>
  {
    if rs == [] then [] else [rs[0].sql] + Sqls(rs[1..])
  }

  function AllArgs(rs: seq<Rendered>): seq<Value>
  {
    if rs == [] then [] else rs[0].args + AllArgs(rs[1..])
  }

  /** renderConds: the parts joined by " AND " or " OR ", with their arguments in order. */
  function RenderConds(items: seq<CondItem>, joiner: string): Rendered
    decreases items, 1
  {
    var ps := RenderParts(items);
    Rendered(Join(ps.parts, " " + joiner + " "), ps.args)
  }

  /** No field and no operator anywhere in the tree contains a '?'. */
  predicate ItemsUnmarked(items: seq<CondItem>)
    decreases items
  {
    items == [] ||
    (&& (match items[0]
         case Cond(c) => Unmarked(c.field) && Unmarked(c.op)
         case Group(a, o) => ItemsUnmarked(a) && ItemsUnmarked(o)
         case Unsupported => true)
     && ItemsUnmarked(items[1..]))
  }

  /** Every argument has its own '?' in the rendered parts. */
  lemma {:induction false} PartsPlaceholders(items: seq<CondItem>)
    requires ItemsUnmarked(items)
    ensures SumCount(RenderParts(items).parts, '?') == |RenderParts(items).args|
    decreases items, 0
  {
    if items != [] {
      var rest := RenderParts(items[1..]);
      PartsPlaceholders(items[1..]);
      match items[0]
      case Cond(c) =>
        var r := RenderCond(c);
        RenderCondPlaceholders(c);
        assert ([r.sql] + rest.parts)[1..] == rest.parts;
      case Group(a, o) =>
        var sect := Section(a, "AND") + Section(o, "OR");
        if sect != [] {
          SectionPlaceholders(a, "AND");
          SectionPlaceholders(o, "OR");
          SumCountAppend(Sqls(Section(a, "AND")), Sqls(Section(o, "OR")), '?');
          SqlsAppend(Section(a, "AND"), Section(o, "OR"));
          AllArgsAppend(Section(a, "AND"), Section(o, "OR"));
          CountCharAbsent(" OR ", '?');
          CountCharJoin(Sqls(sect), " OR ", '?');
          var g := "(" + Join(Sqls(sect), " OR ") + ")";
          CountCharAbsent("(", '?');
          CountCharAbsent(")", '?');
          CountCharAppend("(", Join(Sqls(sect), " OR "), '?');
          CountCharAppend("(" + Join(Sqls(sect), " OR "), ")", '?');
          assert ([g] + rest.parts)[1..] == rest.parts;
        }
      case Unsupported =>
    }
  }

  lemma {:induction false} SectionPlaceholders(items: seq<CondItem>, joiner: string)
    requires ItemsUnmarked(items) && Unmarked(joiner)
    ensures SumCount(Sqls(Section(items, joiner)), '?') == |AllArgs(Section(items, joiner))|
    decreases items, 2
  {
    if |items| > 0 {
      var r := RenderConds(items, joiner);
      CondsPlaceholders(items, joiner);
      CountCharAbsent("(", '?');
      CountCharAbsent(")", '?');
      CountCharAppend("(", r.sql, '?');
      CountCharAppend("(" + r.sql, ")", '?');
      assert Sqls(Section(items, joiner)) == ["(" + r.sql + ")"];
      assert AllArgs(Section(items, joiner)) == r.args + [];
    }
  }

  /**
   * The number of '?' marks in a rendered fingerprint equals the number of
   * arguments, provided no field or operator contains a '?'.
   */
  lemma {:induction false} CondsPlaceholders(items: seq<CondItem>, joiner: string)
    requires ItemsUnmarked(items) && Unmarked(joiner)
    ensures CountChar(RenderConds(items, joiner).sql, '?') == |RenderConds(items, joiner).args|
    decreases items, 1
  {
    PartsPlaceholders(items);
    var sep := " " + joiner + " ";
    CountCharAbsent(" ", '?');
    CountCharAppend(" ", joiner, '?');
    CountCharAppend(" " + joiner, " ", '?');
    CountCharJoin(RenderParts(items).parts, sep, '?');
  }

  lemma {:induction false} SqlsAppend(a: seq<Rendered>, b: seq<Rendered>)
    ensures Sqls(a + b) == Sqls(a) + Sqls(b)
  {
    if a != [] {
      assert (a + b)[1..] == a[1..] + b;
      SqlsAppend(a[1..], b);
    } else {
      assert a + b == b;
    }
  }

  lemma {:induction false} AllArgsAppend(a: seq<Rendered>, b: seq<Rendered>)
    ensures AllArgs(a + b) == AllArgs(a) + AllArgs(b)
  {
    if a != [] {
      assert (a + b)[1..] == a[1..] + b;
      AllArgsAppend(a[1..], b);
    } else {
      assert a + b == b;
    }
  }

  /** A group with neither AND nor OR members is skipped; any other group yields one part. */
  lemma EmptyGroupSkipped(a: seq<CondItem>, o: seq<CondItem>, rest: seq<CondItem>)
    ensures RenderParts([Group(a, o)] + rest) == (if a == [] && o == [] then RenderParts(rest) else
      var sect := Section(a, "AND") + Section(o, "OR");
      Parts(["(" + Join(Sqls(sect), " OR ") + ")"] + RenderParts(rest).parts, AllArgs(sect) + RenderParts(rest).args))
  {
    assert ([Group(a, o)] + rest)[1..] == rest;
  }

  /** Only a group that is empty itself is skipped: an AND list holding just an empty group renders "(())". */
  lemma NestedEmptyGroupKept()
    ensures RenderConds([Group([Group([], [])], [])], "AND").sql == "(())"
  {
    assert RenderParts([Group([], [])]) == Parts([], []) by {
      EmptyGroupSkipped([], [], []);
    }
    assert RenderConds([Group([], [])], "AND") == Rendered("", []);
    assert "(" + "" + ")" == "()";
    assert Section([Group([], [])], "AND") == [Rendered("()", [])];
    assert Section([], "OR") == [];
    assert Sqls([Rendered("()", [])]) == ["()"];
    EmptyGroupSkipped([Group([], [])], [], []);
  }

  // ---------------------------------------------------------------- pagination

  /**
   * Paginate's new (limit, offset): a pageIndex <= 0 counts as page 1; a
   * positive pageSize sets limit = pageSize and offset = (pageIndex-1) *
   * pageSize, wrapped like Go's int; otherwise limit and offset stay as
   * they were.
   */
  function PageWindow(pageIndex: int, pageSize: int, limit: int, offset: int): (r: (int, int))
    ensures pageSize <= 0 ==> r == (limit, offset)
    ensures pageSize > 0 ==> r.0 == pageSize && InInt64(r.1)
    ensures pageSize > 0 && pageIndex <= 1 ==> r.1 == 0
    ensures pageSize > 0 && pageIndex >= 1 && (pageIndex - 1) * pageSize <= MaxInt64 ==>
      r.1 == (pageIndex - 1) * pageSize
  {
    var page := if pageIndex <= 0 then 1 else pageIndex;
    if pageSize > 0 then (pageSize, WrapInt64((page - 1) * pageSize))
    else (limit, offset)
  }

  /** PaginateWithCache's defaults: a page <= 0 becomes 1 and a page size <= 0 becomes 10. */
  function CachePage(page: int, pageSize: int): (r: (int, int))
    ensures r.0 >= 1 && r.1 >= 1
    ensures page >= 1 ==> r.0 == page
    ensures pageSize >= 1 ==> r.1 == pageSize
    ensures page <= 0 ==> r.0 == 1
    ensures pageSize <= 0 ==> r.1 == 10
  {
    (if page <= 0 then 1 else page, if pageSize <= 0 then 10 else pageSize)
  }

  /**
   * The page PaginateWithCache fetches always has a positive limit; while
   * (page-1)*size fits in an int its offset is that non-negative product.
   */
  lemma CachePageWindow(page: int, pageSize: int, limit: int, offset: int)
    ensures var (p, s) := CachePage(page, pageSize);
      var w := PageWindow(p, s, limit, offset);
      && w.0 == s >= 1
      && ((p - 1) * s <= MaxInt64 ==> w.1 == (p - 1) * s >= 0)
  {
  }

  // ---------------------------------------------------------------- WhereMap

  /** The condition WhereMap adds for key `k`: field and operator from ParseKey, value m[k] (nil when absent). */
  function KeyCond(m: map<string, Value>, k: string): CondItem
  {
    Cond(Condition(ParseKey(k).0, ParseKey(k).1, if k in m then m[k] else Null))
  }

  /** One condition per key, in the order given. */
  function MapConds(m: map<string, Value>, keys: seq<string>): (r: seq<CondItem>)
    ensures |r| == |keys|
    ensures forall i :: 0 <= i < |keys| ==> r[i] == KeyCond(m, keys[i])
  {
    if keys == [] then [] else [KeyCond(m, keys[0])] + MapConds(m, keys[1..])
  }

  lemma {:induction false} MapCondsAppend(m: map<string, Value>, a: seq<string>, b: seq<string>)
    ensures MapConds(m, a + b) == MapConds(m, a) + MapConds(m, b)
  {
    if a == [] {
      assert a + b == b;
    } else {
      assert (a + b)[1..] == a[1..] + b;
      MapCondsAppend(m, a[1..], b);
    }
  }

  /** One step of WhereMap's loop: the least remaining key is the next in order. */
  lemma WhereMapStep(m: map<string, Value>, done: seq<string>, rest: set<string>, k: string)
    requires IsLeast(k, rest)
    requires SortedKeys(m.Keys) == done + SortedKeys(rest)
    ensures SortedKeys(m.Keys) == (done + [k]) + SortedKeys(rest - {k})
    ensures MapConds(m, done + [k]) == MapConds(m, done) + [KeyCond(m, k)]
  {
    SortedKeysStep(rest, k);
    var tail := SortedKeys(rest - {k});
    assert done + ([k] + tail) == (done + [k]) + tail;
    MapCondsAppend(m, done, [k]);
  }

  /**
   * WhereMap adds exactly one condition per key of the map, the keys taken
   * in strictly ascending order.
   */
  lemma WhereMapOnePerKey(m: map<string, Value>)
    ensures var ks := SortedKeys(m.Keys);
      && |MapConds(m, ks)| == |m.Keys|
      && StrictlyAscending(ks)
      && (forall k :: k in ks <==> k in m)
  {
    SortedKeysSpec(m.Keys);
  }

  // ---------------------------------------------------------------- the DAO

  class DAO {
    var conds: seq<CondItem>
    var selects: seq<string>
    var orderBy: seq<string>
    var joins: seq<JoinSpec>
    var limit: int
    var offset: int
    var unscoped: bool
    var err: Option<DbError>

    function State(): Query
      reads this
    {
      Query(conds, selects, orderBy, joins, limit, offset, unscoped, err)
    }

    /** NewDAO: an empty query over the given database handle. */
    constructor ()
      ensures State() == EmptyQuery
    {
      conds, selects, orderBy, joins := [], [], [], [];
      limit, offset, unscoped, err := 0, 0, false, None;
    }

    /** clone: a fresh DAO with copies of every field. */
    method Clone() returns (nd: DAO)
      ensures fresh(nd) && nd.State() == State()
    {
      nd := new DAO();
      nd.conds, nd.selects, nd.orderBy, nd.joins := conds, selects, orderBy, joins;
      nd.limit, nd.offset, nd.unscoped, nd.err := limit, offset, unscoped, err;
    }

    method Select(fields: seq<string>) returns (nd: DAO)
      ensures fresh(nd) && nd.State() == State().(selects := selects + fields)
    {
      nd := Clone();
      nd.selects := nd.selects + fields;
    }

    method OrderBy(order: string) returns (nd: DAO)
      ensures fresh(nd) && nd.State() == State().(orderBy := orderBy + [order])
    {
      nd := Clone();
      nd.orderBy := nd.orderBy + [order];
    }

    method Paginate(pageIndex: int, pageSize: int) returns (nd: DAO)
      ensures fresh(nd)
      ensures var w := PageWindow(pageIndex, pageSize, limit, offset);
        nd.State() == State().(limit := w.0, offset := w.1)
    {
      nd := Clone();
      var page := pageIndex;
      if page <= 0 {
        page := 1;
      }
      if pageSize > 0 {
        nd.limit := pageSize;
        nd.offset := WrapInt64((page - 1) * pageSize);
      }
    }

    method WithDeleted() returns (nd: DAO)
      ensures fresh(nd) && nd.State() == State().(unscoped := true)
    {
      nd := Clone();
      nd.unscoped := true;
    }

    method Where(field: string, op: string, value: Value) returns (nd: DAO)
      ensures fresh(nd)
      ensures nd.State() == State().(conds := conds + [Cond(Condition(field, NormalizeOp(op), value))])
    {
      nd := Clone();
      nd.conds := nd.conds + [Cond(Condition(field, NormalizeOp(op), value))];
    }

    /** WhereMap: one condition per key, in ascending key order, as ParseKey reads the key. */
    method WhereMap(m: map<string, Value>) returns (nd: DAO)
      ensures fresh(nd)
      ensures nd.State() == State().(conds := conds + MapConds(m, SortedKeys(m.Keys)))
    {
      var rest := m.Keys;
      var added: seq<CondItem> := [];
      ghost var done: seq<string> := [];
      while rest != {}
        invariant rest <= m.Keys
        invariant SortedKeys(m.Keys) == done + SortedKeys(rest)
        invariant added == MapConds(m, done)
        decreases |rest|
      {
        LeastExists(rest);
        var k :| IsLeast(k, rest);
        WhereMapStep(m, done, rest, k);
        var (f, op) := ParseKey(k);
        added := added + [Cond(Condition(f, op, m[k]))];
        done := done + [k];
        rest := rest - {k};
      }
      assert SortedKeys(rest) == [] && done + [] == done;
      nd := Clone();
      nd.conds := nd.conds + added;
    }

    method AndGroup(items: seq<CondItem>) returns (nd: DAO)
      ensures fresh(nd) && nd.State() == State().(conds := conds + [Group(items, [])])
    {
      nd := Clone();
      nd.conds := nd.conds + [Group(items, [])];
    }

    method OrGroup(items: seq<CondItem>) returns (nd: DAO)
      ensures fresh(nd) && nd.State() == State().(conds := conds + [Group([], items)])
    {
      nd := Clone();
      nd.conds := nd.conds + [Group([], items)];
    }

    method Join(kind: string, table: string, on: string) returns (nd: DAO)
      ensures fresh(nd) && nd.State() == State().(joins := joins + [JoinSpec(table, on, kind)])
    {
      nd := Clone();
      nd.joins := nd.joins + [JoinSpec(table, on, kind)];
    }

    method InnerJoin(table: string, on: string) returns (nd: DAO)
      ensures fresh(nd) && nd.State() == State().(joins := joins + [JoinSpec(table, on, "INNER JOIN")])
    {
      nd := Join("INNER JOIN", table, on);
    }

    method LeftJoin(table: string, on: string) returns (nd: DAO)
      ensures fresh(nd) && nd.State() == State().(joins := joins + [JoinSpec(table, on, "LEFT JOIN")])
    {
      nd := Join("LEFT JOIN", table, on);
    }

    /** Eq, Ne, Gt, Gte, Lt, Lte, Like and In: Where with a fixed operator. */
    method Eq(field: string, v: Value) returns (nd: DAO)
      ensures fresh(nd) && nd.State() == State().(conds := conds + [Cond(Condition(field, "=", v))])
    {
      assert Lower("=") == "=" && Upper("=") == "=";
      nd := Where(field, "=", v);
    }

    method Ne(field: string, v: Value) returns (nd: DAO)
      ensures fresh(nd) && nd.State() == State().(conds := conds + [Cond(Condition(field, "!=", v))])
    {
      assert Lower("!=") == "!=" && Upper("!=") == "!=";
      nd := Where(field, "!=", v);
    }

    method Gt(field: string, v: Value) returns (nd: DAO)
      ensures fresh(nd) && nd.State() == State().(conds := conds + [Cond(Condition(field, ">", v))])
    {
      assert Lower(">") == ">" && Upper(">") == ">";
      nd := Where(field, ">", v);
    }

    method Gte(field: string, v: Value) returns (nd: DAO)
      ensures fresh(nd) && nd.State() == State().(conds := conds + [Cond(Condition(field, ">=", v))])
    {
      assert Lower(">=") == ">=" && Upper(">=") == ">=";
      nd := Where(field, ">=", v);
    }

    method Lt(field: string, v: Value) returns (nd: DAO)
      ensures fresh(nd) && nd.State() == State().(conds := conds + [Cond(Condition(field, "<", v))])
    {
      assert Lower("<") == "<" && Upper("<") == "<";
      nd := Where(field, "<", v);
    }

    method Lte(field: string, v: Value) returns (nd: DAO)
      ensures fresh(nd) && nd.State() == State().(conds := conds + [Cond(Condition(field, "<=", v))])
    {
      assert Lower("<=") == "<=" && Upper("<=") == "<=";
      nd := Where(field, "<=", v);
    }

    method Like(field: string, pat: string) returns (nd: DAO)
      ensures fresh(nd) && nd.State() == State().(conds := conds + [Cond(Condition(field, "LIKE", Scalar(pat)))])
    {
      assert Lower("LIKE") == "like";
      nd := Where(field, "LIKE", Scalar(pat));
    }

    method In(field: string, list: Value) returns (nd: DAO)
      ensures fresh(nd) && nd.State() == State().(conds := conds + [Cond(Condition(field, "IN", list))])
    {
      assert Lower("IN") == "in";
      nd := Where(field, "IN", list);
    }

    /**
     * Count, which does not clone: with an error already recorded nothing
     * happens and the count is not written; a failed query records its
     * error; otherwise the count is written.
     */
    method Count(outcome: CountOutcome) returns (self: DAO, written: Option<int>)
      modifies this
      ensures self == this
      ensures old(err).Some? ==> written == None && State() == old(State())
      ensures old(err).None? && outcome.CountFailed? ==>
        written == None && State() == old(State()).(err := Some(outcome.e))
      ensures old(err).None? && outcome.Counted? ==>
        written == Some(outcome.n) && State() == old(State())
    {
      self := this;
      if err.Some? {
        return this, None;
      }
      match outcome
      case CountFailed(e) =>
        err := Some(e);
        written := None;
      case Counted(n) =>
        written := Some(n);
    }

    /**
     * Find and First: a recorded error is returned without querying;
     * otherwise the query runs and its error (if any) is returned.
     */
    method Find(queryErr: Option<DbError>) returns (e: Option<DbError>, queried: bool)
      ensures queried <==> err.None?
      ensures err.Some? ==> e == err
      ensures err.None? ==> e == queryErr
    {
      if err.Some? {
        return err, false;
      }
      return queryErr, true;
    }

    /** count: (0, err) for a recorded error, else the outcome of the query. */
    method CountTotal(outcome: CountOutcome) returns (n: int, e: Option<DbError>)
      ensures err.Some? ==> n == 0 && e == err
      ensures err.None? && outcome.Counted? ==> n == outcome.n && e == None
      ensures err.None? && outcome.CountFailed? ==> n == 0 && e == Some(outcome.e)
    {
      if err.Some? {
        return 0, err;
      }
      match outcome
      case Counted(c) => return c, None;
      case CountFailed(x) => return 0, Some(x);
    }

    /** renderWhereFingerprint: the conditions rendered with AND at the top level. */
    function Fingerprint(): (r: Rendered)
      reads this
      ensures ItemsUnmarked(conds) ==> CountChar(r.sql, '?') == |r.args|
    {
      var r := RenderConds(conds, "AND");
      assert ItemsUnmarked(conds) ==> CountChar(r.sql, '?') == |r.args| by {
        if ItemsUnmarked(conds) {
          CondsPlaceholders(conds, "AND");
        }
      }
      r
    }
  }
}
