/** The static-analysis helpers of `CodeHelper` that read values out of a
    parsed PHP expression: class references, string/number literals,
    variables, array literals and constant fetches, plus the rendering of a
    declared type. The expression nodes are the parser's output, given as
    data. */
module CodeHelper {
  import opened Wrappers
  import opened OrderedMaps
  import Text

  /** The class part of `X::name`: a plain name or some other expression. */
  datatype ClassRef = ClassName(name: string) | ClassExpression

  /** Parsed expressions, as far as the helpers look into them. A float
      literal is kept as its source token. */
  datatype Expr =
    | StringLit(value: string)
    | IntLit(number: int)
    | FloatLit(token: string)
    | ConstFetch(name: string)
    | ClassConstFetch(cls: ClassRef, member: string)
    | Variable(name: string)
    | ArrayExpr(items: seq<Option<ArrayItem>>)
    | MethodCall(target: Expr, callee: string, args: seq<Expr>)
    | OtherExpr

  /** One `key => value` element of an array literal; `None` stands for a
      skipped slot such as `[, $x]`. */
  datatype ArrayItem = ArrayItem(key: Option<Expr>, value: Expr)

  /** A PHP scalar value read from the code. */
  datatype Literal = LitString(s: string) | LitInt(i: int) | LitFloat(token: string)

  predicate IsScalarNode(e: Expr)
  {
    e.StringLit? || e.IntLit? || e.FloatLit? || e.ConstFetch?
  }

  /** `extractScalarValue`: the value of a string, integer or float literal,
      the name of a constant, and nothing for anything else. */
  function ExtractScalarValue(e: Expr): (r: Option<Literal>)
    ensures r.Some? <==> IsScalarNode(e)
    ensures e.ConstFetch? ==> r == Some(LitString(e.name))
  {
    match e
    case StringLit(v) => Some(LitString(v))
    case IntLit(v) => Some(LitInt(v))
    case FloatLit(t) => Some(LitFloat(t))
    case ConstFetch(n) => Some(LitString(n))
    case _ => None
  }

  /** `extractStringValue`: the value of a string literal, else nothing. */
  function ExtractStringValue(e: Expr): (r: Option<string>)
    ensures r.Some? <==> e.StringLit?
  {
    if e.StringLit? then Some(e.value) else None
  }

  /** `extractArgumentValue`: `X` for `X::class`, the value of a string or
      integer literal, `$name` for a variable, `unknown` for anything else. */
  function ExtractArgumentValue(e: Expr): (r: Literal)
    ensures r.LitInt? <==> e.IntLit?
    ensures e.Variable? ==> r == LitString("$" + e.name)
    ensures e.ClassConstFetch? && e.cls.ClassName? && e.member == "class" ==> r == LitString(e.cls.name)
    ensures e.StringLit? ==> r == LitString(e.value)
    ensures !(e.StringLit? || e.IntLit? || e.Variable? ||
              (e.ClassConstFetch? && e.cls.ClassName? && e.member == "class")) ==>
            r == LitString("unknown")
  {
    match e
    case ClassConstFetch(ClassName(n), "class") => LitString(n)
    case StringLit(v) => LitString(v)
    case IntLit(v) => LitInt(v)
    case Variable(n) => LitString("$" + n)
    case _ => LitString("unknown")
  }

  /** The three readers agree wherever their domains overlap: a string
      literal reads the same through each, and an integer literal reads the
      same as argument and as scalar. */
  lemma ReadersAgree(e: Expr)
    ensures ExtractStringValue(e).Some? ==>
      ExtractScalarValue(e) == Some(LitString(ExtractStringValue(e).value)) &&
      ExtractArgumentValue(e) == LitString(ExtractStringValue(e).value)
    ensures e.IntLit? ==> ExtractScalarValue(e) == Some(ExtractArgumentValue(e))
  {
  }

  /** The string values of the string-literal elements, in order. */
  function StringItems(items: seq<Option<ArrayItem>>): seq<string>
  {
    if items == [] then []
    else
      var rest := StringItems(items[1..]);
      if items[0].Some? && items[0].value.value.StringLit? then [items[0].value.value.value] + rest else rest
  }

  /** What `extractArrayValues` returns for `e`. */
  function ArrayValues(e: Expr): seq<string>
  {
    if e.ArrayExpr? then StringItems(e.items) else []
  }

  /** `extractArrayValues` */
  method ExtractArrayValues(e: Expr) returns (values: seq<string>)
    ensures values == ArrayValues(e)
  {
    if !e.ArrayExpr? {
      return [];
    }
    values := [];
    var i := 0;
    while i < |e.items|
      invariant 0 <= i <= |e.items|
      invariant values + StringItems(e.items[i..]) == StringItems(e.items)
    {
      assert e.items[i..][1..] == e.items[i + 1..];
      var item := e.items[i];
      if item.Some? && item.value.value.StringLit? {
        values := values + [item.value.value.value];
      }
      i := i + 1;
    }
    assert e.items[i..] == [];
  }

  /** The extracted strings are exactly the string-literal elements: a
      value is extracted if and only if some element is a string literal
      with that value, and no more values come out than there are
      elements. */
  lemma {:induction false} StringItemsExact(items: seq<Option<ArrayItem>>, v: string)
    ensures v in StringItems(items) <==>
      exists i | 0 <= i < |items| :: items[i].Some? && items[i].value.value == StringLit(v)
    ensures |StringItems(items)| <= |items|
  {
    if items != [] {
      StringItemsExact(items[1..], v);
      if exists i | 0 <= i < |items| :: items[i].Some? && items[i].value.value == StringLit(v) {
        var i :| 0 <= i < |items| && items[i].Some? && items[i].value.value == StringLit(v);
        if i > 0 {
          assert items[1..][i - 1] == items[i];
        }
      }
      if v in StringItems(items[1..]) {
        var j :| 0 <= j < |items[1..]| && items[1..][j].Some? && items[1..][j].value.value == StringLit(v);
        assert items[j + 1] == items[1..][j];
      }
    }
  }

  /** Folding `$values[$key] = $value` over the elements whose key reads as
      a scalar; a value that is not a scalar is stored as `None` (PHP null). */
  function AssocEntries(acc: seq<(Literal, Option<Literal>)>, items: seq<Option<ArrayItem>>): seq<(Literal, Option<Literal>)>
    decreases |items|
  {
    if items == [] then acc
    else
      var next :=
        if items[0].Some? && items[0].value.key.Some? && ExtractScalarValue(items[0].value.key.value).Some?
        then Put(acc, ExtractScalarValue(items[0].value.key.value).value, ExtractScalarValue(items[0].value.value))
        else acc;
      AssocEntries(next, items[1..])
  }

  /** What `extractAssocArrayValues` returns for `e`. */
  function AssocArrayValues(e: Expr): seq<(Literal, Option<Literal>)>
  {
    if e.ArrayExpr? then AssocEntries([], e.items) else []
  }

  /** `extractAssocArrayValues` */
  method ExtractAssocArrayValues(e: Expr) returns (values: seq<(Literal, Option<Literal>)>)
    ensures values == AssocArrayValues(e)
  {
    if !e.ArrayExpr? {
      return [];
    }
    values := [];
    var i := 0;
    while i < |e.items|
      invariant 0 <= i <= |e.items|
      invariant AssocEntries(values, e.items[i..]) == AssocEntries([], e.items)
    {
      assert e.items[i..][1..] == e.items[i + 1..];
      var item := e.items[i];
      if item.Some? && item.value.key.Some? {
        var key := ExtractScalarValue(item.value.key.value);
        var value := ExtractScalarValue(item.value.value);
        if key.Some? {
          values := Put(values, key.value, value);
        }
      }
      i := i + 1;
    }
  }

  /** The value the last element with scalar key `k` carries, if any. */
  function LastValueFor(items: seq<Option<ArrayItem>>, k: Literal): Option<Option<Literal>>
  {
    if items == [] then None
    else
      var last := items[|items| - 1];
      if last.Some? && last.value.key.Some? && ExtractScalarValue(last.value.key.value) == Some(k)
      then Some(ExtractScalarValue(last.value.value))
      else LastValueFor(items[..|items| - 1], k)
  }

  /** Each key reads back the value of the last element carrying it: a
      later duplicate key wins. */
  lemma {:induction false} AssocLastWins(items: seq<Option<ArrayItem>>, k: Literal)
    ensures Get(AssocEntries([], items), k) == LastValueFor(items, k)
  {
    AssocLastWinsFrom([], items, k);
  }

  lemma {:induction false} AssocLastWinsFrom(acc: seq<(Literal, Option<Literal>)>, items: seq<Option<ArrayItem>>, k: Literal)
    ensures Get(AssocEntries(acc, items), k) ==
      if LastValueFor(items, k).Some? then LastValueFor(items, k) else Get(acc, k)
    decreases |items|
  {
    if items != [] {
      var init := items[..|items| - 1];
      var last := items[|items| - 1];
      assert items == init + [last];
      AssocSnoc(acc, init, last);
      AssocLastWinsFrom(acc, init, k);
      var mid := AssocEntries(acc, init);
      assert [last][1..] == [];
      if last.Some? && last.value.key.Some? && ExtractScalarValue(last.value.key.value).Some? {
        GetPut(mid, ExtractScalarValue(last.value.key.value).value, ExtractScalarValue(last.value.value), k);
      }
    }
  }

  lemma {:induction false} AssocSnoc(acc: seq<(Literal, Option<Literal>)>, init: seq<Option<ArrayItem>>, last: Option<ArrayItem>)
    ensures AssocEntries(acc, init + [last]) == AssocEntries(AssocEntries(acc, init), [last])
    decreases |init|
  {
    if init != [] {
      assert (init + [last])[1..] == init[1..] + [last];
      var next :=
        if init[0].Some? && init[0].value.key.Some? && ExtractScalarValue(init[0].value.key.value).Some?
        then Put(acc, ExtractScalarValue(init[0].value.key.value).value, ExtractScalarValue(init[0].value.value))
        else acc;
      AssocSnoc(next, init[1..], last);
    } else {
      assert init + [last] == [last];
    }
  }

  // ---------------------------------------------------------------------
  // getTypeString

  /** Declared-type nodes. `ParserUnion` is the parser's union-type node;
      `AnalyserUnion` is the static analyser's union type, the class the
      source's union branch tests for. */
  datatype TypeNode =
    | NameType(name: string)
    | IdentifierType(name: string)
    | AnalyserUnion(members: seq<TypeNode>)
    | ParserUnion(members: seq<TypeNode>)
    | NullableType(inner: TypeNode)
    | OtherType

  /** `getTypeString` as written: a parser union node matches none of the
      branches and renders as `unknown`. */
  function TypeStringAsWritten(t: TypeNode): (r: string)
    ensures t.NameType? || t.IdentifierType? ==> r == t.name
    ensures t.ParserUnion? || t.OtherType? ==> r == "unknown"
    ensures t.NullableType? ==> |r| >= 5 && r[|r| - 5..] == "|null"
  {
    match t
    case NameType(n) => n
    case IdentifierType(n) => n
    case AnalyserUnion(ms) => Text.Join(seq(|ms|, i requires 0 <= i < |ms| => TypeStringAsWritten(ms[i])), "|")
    case NullableType(inner) => TypeStringAsWritten(inner) + "|null"
    case _ => "unknown"
  }

  /** The declared union `int|string` renders as `unknown`. */
  lemma ParserUnionRendersUnknown()
    ensures TypeStringAsWritten(ParserUnion([IdentifierType("int"), IdentifierType("string")])) == "unknown"
  {
  }

  /** `getTypeString` with the parser's union node joined like the
      analyser's: each member rendered, joined by `|`. */
  function TypeString(t: TypeNode): (r: string)
    ensures t.NameType? || t.IdentifierType? ==> r == t.name
    ensures t.OtherType? ==> r == "unknown"
    ensures t.NullableType? ==> |r| >= 5 && r[|r| - 5..] == "|null"
  {
    match t
    case NameType(n) => n
    case IdentifierType(n) => n
    case AnalyserUnion(ms) => Text.Join(seq(|ms|, i requires 0 <= i < |ms| => TypeString(ms[i])), "|")
    case ParserUnion(ms) => Text.Join(seq(|ms|, i requires 0 <= i < |ms| => TypeString(ms[i])), "|")
    case NullableType(inner) => TypeString(inner) + "|null"
    case _ => "unknown"
  }

  /** A type node holding no parser union anywhere. */
  predicate NoParserUnion(t: TypeNode)
  {
    match t
    case ParserUnion(_) => false
    case AnalyserUnion(ms) => forall i | 0 <= i < |ms| :: NoParserUnion(ms[i])
    case NullableType(inner) => NoParserUnion(inner)
    case _ => true
  }

  /** The rendering as written and the corrected one differ only on
      parser unions: without one anywhere in the node they agree. */
  lemma {:induction false} RenderingsAgree(t: TypeNode)
    requires NoParserUnion(t)
    ensures TypeStringAsWritten(t) == TypeString(t)
  {
    match t
    case AnalyserUnion(ms) =>
      forall i | 0 <= i < |ms| ensures TypeStringAsWritten(ms[i]) == TypeString(ms[i]) {
        RenderingsAgree(ms[i]);
      }
      assert seq(|ms|, i requires 0 <= i < |ms| => TypeStringAsWritten(ms[i])) ==
             seq(|ms|, i requires 0 <= i < |ms| => TypeString(ms[i]));
    case NullableType(inner) => RenderingsAgree(inner);
    case _ =>
  }

  /** Reading a rendered union of plain names back by splitting on `|`
      yields the member names, in order. */
  lemma UnionRoundTrip(names: seq<string>)
    requires names != []
    requires forall i | 0 <= i < |names| :: '|' !in names[i]
    ensures Text.Split(TypeString(ParserUnion(seq(|names|, i requires 0 <= i < |names| => IdentifierType(names[i])))), '|') == names
  {
    var ms := seq(|names|, i requires 0 <= i < |names| => IdentifierType(names[i]));
    var rendered := seq(|ms|, i requires 0 <= i < |ms| => TypeString(ms[i]));
    assert rendered == names;
    assert TypeString(ParserUnion(ms)) == Text.Join(names, "|");
    Text.SplitJoin(names, '|');
  }

  /** A nullable name reads back as the name and `null`. */
  lemma NullableRoundTrip(name: string)
    requires '|' !in name
    ensures Text.Split(TypeString(NullableType(NameType(name))), '|') == [name, "null"]
  {
    var parts := [name, "null"];
    assert TypeString(NullableType(NameType(name))) == Text.Join(parts, "|") by {
      assert Text.Join(parts[1..], "|") == "null";
    }
    assert forall i | 0 <= i < |parts| :: '|' !in parts[i];
    Text.SplitJoin(parts, '|');
  }
}
