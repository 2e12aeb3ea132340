/** What the TypeScript writer's output means: the type each kind of node
    becomes, which references conversion can meet, when an operation
    writes nothing, and the shape of an id made from a path. */
module InertiaLemmas {
  import opened Wrappers
  import opened Schemas
  import opened Inertia
  import Text
  import UseImports
  import Command
  import CommandLemmas

  // ---------------------------------------------------------------------
  // Types of nodes

  /** A reference to a named component is written as that name, with
      ` | null` when nullable, and is the one reference conversion meets. */
  lemma RefType(name: string, nullable: bool)
    requires name != [] && '/' !in name
    ensures TsType(RefSchema(name, nullable)) == name + (if nullable then " | null" else "")
    ensures TsRefs(RefSchema(name, nullable)) == [name]
    ensures References(RefSchema(name, nullable)) == [name]
  {
    RefNameRoundTrip(name, nullable);
  }

  /** An array of a node is that node's type followed by `[]`. */
  lemma ArrayType(items: Schema, nullable: bool)
    ensures TsType(ArraySchema(items, nullable)) == TsType(items) + "[]" + (if nullable then " | null" else "")
    ensures TsRefs(ArraySchema(items, nullable)) == TsRefs(items)
  {
    var s := ArraySchema(items, nullable);
    assert s.ref.None? && s.oneOf == NoVariants by {
      assert "$ref" !in Fields(s) && "oneOf" !in Fields(s);
    }
  }

  /** The built-in return types of a controller become these TypeScript
      types: `int` and `float` a number, `string` a string, `bool` a
      boolean, `object` and `mixed` a record, `array` and `iterable` an
      array of anything. */
  lemma BuiltinTypes(name: string)
    requires Command.TypeMapFields(name).Some?
    ensures var t := TsType(CustomSchema(Command.TypeMapFields(name).value));
      (name == "int" || name == "float" ==> t == "number") &&
      (name == "string" ==> t == "string") &&
      (name == "bool" ==> t == "boolean") &&
      (name == "object" || name == "mixed" ==> t == "Record<string, any>") &&
      (name == "array" || name == "iterable" ==> t == "any[]")
    ensures TsRefs(CustomSchema(Command.TypeMapFields(name).value)) == []
  {
    var m := Command.TypeMapFields(name).value;
    var s := CustomSchema(m);
    if name == "array" || name == "iterable" {
      CommandLemmas.TypeMapArray(name);
      assert s.ref.None? && s.oneOf == NoVariants by {
        assert "$ref" !in Fields(s) && "oneOf" !in Fields(s);
      }
      assert TsType(s.items.value) == "any";
    } else {
      assert s == CustomSchema(m[..|m| - 1]).(typ := Some(m[|m| - 1].1.s)) ||
             s == CustomSchema(m[..|m| - 1]).(format := Some(m[|m| - 1].1.s));
      if |m| == 2 {
        assert m[..1][..0] == [];
        assert s == Blank.(typ := Some(m[0].1.s), format := Some(m[1].1.s));
      } else {
        assert m[..0] == [];
        assert s == Blank.(typ := Some(m[0].1.s));
      }
    }
  }

  // ---------------------------------------------------------------------
  // Conversion and dependencies

  /** Every reference conversion meets is one `findReferences` reports, so
      every component conversion can queue is a dependency that
      `canGenerateSchema` waits for. */
  lemma {:induction false} TsRefsAreReferences(s: Schema)
    ensures forall r | r in TsRefs(s) :: r in References(s)
    decreases s, 2
  {
    if s.literal || s.ref.Some? {
    } else if s.oneOf.Variants? {
      VariantTsRefsAreReferences(s, |s.oneOf.list|);
    } else if s.typ == Some("array") {
      if s.items.Some? {
        TsRefsAreReferences(s.items.value);
      }
    } else if s.typ == Some("object") && s.properties.Properties? {
      FieldTsRefsAreReferences(s, |s.properties.entries|);
    }
  }

  lemma {:induction false} VariantTsRefsAreReferences(s: Schema, n: nat)
    requires s.oneOf.Variants? && n <= |s.oneOf.list|
    ensures forall r | r in VariantTsRefs(s, n) :: r in VariantReferences(s, n)
    decreases s, 1, n
  {
    if n > 0 {
      VariantTsRefsAreReferences(s, n - 1);
      TsRefsAreReferences(s.oneOf.list[n - 1]);
    }
  }

  lemma {:induction false} FieldTsRefsAreReferences(s: Schema, n: nat)
    requires s.properties.Properties? && n <= |s.properties.entries|
    ensures forall r | r in FieldTsRefs(s, n) :: r in PropertyReferences(s, n)
    decreases s, 1, n
  {
    if n > 0 {
      FieldTsRefsAreReferences(s, n - 1);
      TsRefsAreReferences(s.properties.entries[n - 1].1);
    }
  }

  /** The references met writing the first `n` properties of a node are
      among those `findReferences` reports for it. */
  lemma {:induction false} EntryRefsAreReferences(s: Schema, n: nat)
    requires !s.literal && s.ref.None? && s.properties.Properties? && n <= |s.properties.entries|
    ensures forall r | r in EntryRefs(s.properties.entries[..n]) :: r in PropertyReferences(s, n)
  {
    if n > 0 {
      EntryRefsAreReferences(s, n - 1);
      assert s.properties.entries[..n][..n - 1] == s.properties.entries[..n - 1];
      TsRefsAreReferences(s.properties.entries[n - 1].1);
    }
  }

  /** Writing the interface of a generable component (one without a
      `$ref` of its own) meets only components already written or itself:
      it can never queue a new one. */
  lemma GenerableQueuesNothing(schemas: Option<seq<(string, Schema)>>, processed: seq<string>, name: string)
    requires Generable(schemas, processed, name) && SchemaOf(schemas, name).ref.None?
    ensures forall r | r in EntryRefs(Entries(SchemaOf(schemas, name))) :: r in processed || r == name
  {
    var s := SchemaOf(schemas, name);
    if !s.literal && s.properties.Properties? {
      var n := |s.properties.entries|;
      EntryRefsAreReferences(s, n);
      assert s.properties.entries[..n] == s.properties.entries;
    } else {
      assert Entries(s) == [];
    }
  }

  // ---------------------------------------------------------------------
  // Responses

  /** Only a 200 response writes anything: an operation without one writes
      no type, no route constant and meets no reference. */
  lemma {:induction false} NoSuccessWritesNothing(operationId: string, os: seq<Outcome>)
    requires forall i | 0 <= i < |os| :: os[i].status != "200"
    ensures OutcomeLines(operationId, os) == ""
    ensures OutcomeRefs(os) == []
  {
    if os != [] {
      NoSuccessWritesNothing(operationId, os[..|os| - 1]);
    }
  }

  /** A single 200 response with JSON content writes the converted type
      and the route constant, both under the dotless type name. */
  lemma SuccessWritesTypeAndRoute(operationId: string, description: string, s: Schema)
    ensures var content := [("application/json", Definitions.MediaType(s, None))];
      OutcomeLines(operationId, [Outcome("200", description, content)]) ==
        "export type " + TypeName(operationId) + " = " + TsType(s) + ";" + " // " + description + "\n" +
        "export const route_" + TypeName(operationId) + " = '" + operationId + "';" + " // " + description + "\n"
  {
    var content := [("application/json", Definitions.MediaType(s, None))];
    var os := [Outcome("200", description, content)];
    assert os[..0] == [];
    assert JsonSchema(content) == Some(s);
  }

  // ---------------------------------------------------------------------
  // Operation ids from paths

  /** A path without `{` has no placeholder to expand. */
  lemma {:induction false} NoPlaceholders(s: string)
    requires '{' !in s
    ensures ExpandPlaceholders(s) == s
    decreases |s|
  {
    if s != [] {
      NoPlaceholders(s[1..]);
    }
  }

  /** A placeholder is spelled `By` and its name. */
  lemma Placeholder(name: string, rest: string)
    requires name != [] && '}' !in name
    ensures ExpandPlaceholders("{" + name + "}" + rest) == "By" + name + ExpandPlaceholders(rest)
  {
    var s := "{" + name + "}" + rest;
    assert s[1..] == name + "}" + rest;
    assert s[1..][|name|] == '}';
    assert s[1..][..|name|] == name;
    Text.IndexOfAt(s[1..], '}', |name|);
    assert s[|name| + 2..] == rest;
  }

  /** Trimming keeps only characters of the string. */
  lemma TrimCharWithin(s: string, c: char)
    ensures forall x | x in Text.TrimChar(s, c) :: x in s
  {
    var k :| 0 <= k <= |s| && Text.TrimStart(s, c) == s[k..] && forall i | 0 <= i < k :: s[i] == c;
    var t := Text.TrimStart(s, c);
    assert Text.TrimEnd(t, c) <= t;
    forall x | x in Text.TrimChar(s, c) ensures x in s {
      var i :| 0 <= i < |Text.TrimChar(s, c)| && Text.TrimChar(s, c)[i] == x;
      assert s[k + i] == x;
    }
  }

  /** Capitalising words keeps every character or makes it an upper-case
      letter. */
  lemma UcWordsWithin(s: string)
    ensures forall x | x in UcWords(s) :: x in s || 'A' <= x <= 'Z'
  {
    forall x | x in UcWords(s) ensures x in s || 'A' <= x <= 'Z' {
      var i :| 0 <= i < |s| && UcWords(s)[i] == x;
      assert s[i] in s;
    }
  }

  /** After both replacements no `/` or `-` is left. */
  lemma SeparatorsReplaced(s: string)
    ensures var u := Text.ReplaceChar(Text.ReplaceChar(s, '/', '_'), '-', '_');
      '/' !in u && '-' !in u
  {
    var u := Text.ReplaceChar(Text.ReplaceChar(s, '/', '_'), '-', '_');
    forall i | 0 <= i < |u| ensures u[i] != '/' && u[i] != '-' { }
  }

  /** Capitalising the words of a text without `/` or `-` and dropping its
      `_` leaves none of the three. */
  lemma WordsJoined(t: string)
    requires '/' !in t && '-' !in t
    ensures var rest := UcFirst(RemoveChar(UcWords(t), '_'));
      '_' !in rest && '/' !in rest && '-' !in rest
  {
    UcWordsWithin(t);
    var joined := RemoveChar(UcWords(t), '_');
    var rest := UcFirst(joined);
    forall i | 0 <= i < |rest| ensures rest[i] != '_' && rest[i] != '/' && rest[i] != '-' {
      assert joined[i] in joined;
    }
  }

  /** An id made from a path starts with the lower-cased method; what
      follows has no `_`, `/` or `-` left. */
  lemma OperationIdShape(path: string, verb: string)
    ensures var id := PathToOperationId(path, verb);
      |id| >= |verb| && id[..|verb|] == Command.LowerCase(verb) &&
      var rest := id[|verb|..];
      '_' !in rest && '/' !in rest && '-' !in rest
  {
    var underscored := Text.ReplaceChar(Text.ReplaceChar(ExpandPlaceholders(path), '/', '_'), '-', '_');
    SeparatorsReplaced(ExpandPlaceholders(path));
    var trimmed := Text.TrimChar(underscored, '_');
    TrimCharWithin(underscored, '_');
    WordsJoined(trimmed);
    var rest := UcFirst(RemoveChar(UcWords(trimmed), '_'));
    var id := PathToOperationId(path, verb);
    assert id == Command.LowerCase(verb) + rest;
    assert id[|verb|..] == rest;
  }

  /** Text before any `{` is copied unchanged. */
  lemma {:induction false} ExpandPrefix(a: string, b: string)
    requires '{' !in a
    ensures ExpandPlaceholders(a + b) == a + ExpandPlaceholders(b)
    decreases |a|
  {
    if a != [] {
      assert (a + b)[1..] == a[1..] + b;
      ExpandPrefix(a[1..], b);
    } else {
      assert a + b == b;
    }
  }
}
