/** The parts of `ModelHelper::parseModel` that do not classify docblock
    types: the settings read from the model's code (`$table`,
    `$connection`, `$hidden`, `$casts`), the mapping of database columns to
    schemas, and the relation tables. */
module ModelHelper {
  import opened Wrappers
  import opened OrderedMaps
  import opened Schemas
  import opened CodeHelper
  import opened Reflection
  import opened ClassNames
  import Text
  import UseImports

  // ---------------------------------------------------------------------
  // Relation tables

  datatype RelationKind = Single | Multiple

  /** `RELATION_TYPE`: relation class -> how many models it yields. */
  const RelationTypes: seq<(string, RelationKind)> := [
    ("Illuminate\\Database\\Eloquent\\Relations\\HasOne", Single),
    ("Illuminate\\Database\\Eloquent\\Relations\\BelongsTo", Single),
    ("Illuminate\\Database\\Eloquent\\Relations\\MorphTo", Single),
    ("Illuminate\\Database\\Eloquent\\Relations\\MorphOne", Single),
    ("Illuminate\\Database\\Eloquent\\Relations\\HasOneThrough", Single),
    ("Illuminate\\Database\\Eloquent\\Relations\\HasMany", Multiple),
    ("Illuminate\\Database\\Eloquent\\Relations\\BelongsToMany", Multiple),
    ("Illuminate\\Database\\Eloquent\\Relations\\HasManyThrough", Multiple),
    ("Illuminate\\Database\\Eloquent\\Relations\\MorphMany", Multiple)]

  /** `RELATION_CALL_NAME`: relation method of a model -> relation class. */
  const RelationCallNames: seq<(string, string)> := [
    ("hasOne", "Illuminate\\Database\\Eloquent\\Relations\\HasOne"),
    ("hasMany", "Illuminate\\Database\\Eloquent\\Relations\\HasMany"),
    ("belongsTo", "Illuminate\\Database\\Eloquent\\Relations\\BelongsTo"),
    ("belongsToMany", "Illuminate\\Database\\Eloquent\\Relations\\BelongsToMany"),
    ("morphOne", "Illuminate\\Database\\Eloquent\\Relations\\MorphOne"),
    ("morphMany", "Illuminate\\Database\\Eloquent\\Relations\\MorphMany"),
    ("morphTo", "Illuminate\\Database\\Eloquent\\Relations\\MorphTo"),
    ("morphToMany", "Illuminate\\Database\\Eloquent\\Relations\\MorphToMany"),
    ("morphedByMany", "Illuminate\\Database\\Eloquent\\Relations\\MorphedByMany"),
    ("hasManyThrough", "Illuminate\\Database\\Eloquent\\Relations\\HasManyThrough"),
    ("hasOneThrough", "Illuminate\\Database\\Eloquent\\Relations\\HasOneThrough")]

  // ---------------------------------------------------------------------
  // Settings read from the model's code

  datatype Settings = Settings(
    table: Option<string>,
    connection: Option<string>,
    hidden: seq<string>,
    casts: seq<(Literal, Option<Literal>)>)

  const NoSettings := Settings(None, None, [], [])

  /** The property callback for one declared property and its default. */
  function ReadProp(s: Settings, name: string, default: Expr): Settings
  {
    if name == "connection" then s.(connection := ExtractStringValue(default))
    else if name == "table" then s.(table := ExtractStringValue(default))
    else if name == "hidden" then s.(hidden := s.hidden + ArrayValues(default))
    else if name == "casts" then s.(casts := Merge(s.casts, AssocArrayValues(default)))
    else s
  }

  function ReadProps(s: Settings, props: seq<(string, Expr)>): Settings
    decreases |props|
  {
    if props == [] then s else ReadProps(ReadProp(s, props[0].0, props[0].1), props[1..])
  }

  function ReadPropertyNodes(s: Settings, ps: seq<PropertyNode>): Settings
    decreases |ps|
  {
    if ps == [] then s else ReadPropertyNodes(ReadProps(s, ps[0].props), ps[1..])
  }

  /** The methods whose `return` statements are read for settings. */
  const SettingMethods: seq<string> := ["casts", "hidden", "getCasts", "getHidden", "getTable", "getConnectionName"]

  /** The method callback for one `return` expression of method `name`. */
  function ReadReturn(s: Settings, name: string, e: Expr): Settings
  {
    if name == "getCasts" || name == "casts" then s.(casts := Merge(s.casts, AssocArrayValues(e)))
    else if name == "getHidden" || name == "hidden" then s.(hidden := s.hidden + ArrayValues(e))
    else if name == "getTable" then s.(table := ExtractStringValue(e))
    else if name == "getConnectionName" then s.(connection := ExtractStringValue(e))
    else s
  }

  function ReadReturns(s: Settings, name: string, es: seq<Expr>): Settings
    decreases |es|
  {
    if es == [] then s else ReadReturns(ReadReturn(s, name, es[0]), name, es[1..])
  }

  /** Static, private and other methods are not read. */
  predicate IsSettingMethod(m: MethodNode)
  {
    !m.isStatic && !m.isPrivate && m.name in SettingMethods
  }

  function ReadMethods(s: Settings, ms: seq<MethodNode>): Settings
    decreases |ms|
  {
    if ms == [] then s
    else ReadMethods(if IsSettingMethod(ms[0]) then ReadReturns(s, ms[0].name, ms[0].returned) else s, ms[1..])
  }

  /** The first pass over the class declarations: per declaration, its
      properties and then its methods. */
  function ReadNodes(s: Settings, nodes: seq<ClassNode>): Settings
    decreases |nodes|
  {
    if nodes == [] then s
    else ReadNodes(ReadMethods(ReadPropertyNodes(s, nodes[0].properties), nodes[0].methods), nodes[1..])
  }

  /** The settings of a model, read from its class declarations. */
  method ScanSettings(nodes: seq<ClassNode>) returns (s: Settings)
    ensures s == ReadNodes(NoSettings, nodes)
  {
    s := NoSettings;
    var i := 0;
    while i < |nodes|
      invariant 0 <= i <= |nodes|
      invariant ReadNodes(s, nodes[i..]) == ReadNodes(NoSettings, nodes)
    {
      assert nodes[i..][1..] == nodes[i + 1..];
      s := ScanProperties(s, nodes[i].properties);
      s := ScanMethods(s, nodes[i].methods);
      i := i + 1;
    }
  }

  /** The property callback over a declaration's properties. */
  method ScanProperties(s0: Settings, ps: seq<PropertyNode>) returns (s: Settings)
    ensures s == ReadPropertyNodes(s0, ps)
  {
    s := s0;
    var i := 0;
    while i < |ps|
      invariant 0 <= i <= |ps|
      invariant ReadPropertyNodes(s, ps[i..]) == ReadPropertyNodes(s0, ps)
    {
      assert ps[i..][1..] == ps[i + 1..];
      var props := ps[i].props;
      ghost var before := s;
      var j := 0;
      while j < |props|
        invariant 0 <= j <= |props|
        invariant ReadProps(s, props[j..]) == ReadProps(before, props)
      {
        assert props[j..][1..] == props[j + 1..];
        var (name, default) := props[j];
        if name == "connection" {
          s := s.(connection := ExtractStringValue(default));
        } else if name == "table" {
          s := s.(table := ExtractStringValue(default));
        } else if name == "hidden" {
          var values := ExtractArrayValues(default);
          s := s.(hidden := s.hidden + values);
        } else if name == "casts" {
          var values := ExtractAssocArrayValues(default);
          s := s.(casts := Merge(s.casts, values));
        }
        j := j + 1;
      }
      i := i + 1;
    }
  }

  /** The method callback over a declaration's methods. */
  method ScanMethods(s0: Settings, ms: seq<MethodNode>) returns (s: Settings)
    ensures s == ReadMethods(s0, ms)
  {
    s := s0;
    var i := 0;
    while i < |ms|
      invariant 0 <= i <= |ms|
      invariant ReadMethods(s, ms[i..]) == ReadMethods(s0, ms)
    {
      assert ms[i..][1..] == ms[i + 1..];
      var m := ms[i];
      if IsSettingMethod(m) {
        ghost var before := s;
        var j := 0;
        while j < |m.returned|
          invariant 0 <= j <= |m.returned|
          invariant ReadReturns(s, m.name, m.returned[j..]) == ReadReturns(before, m.name, m.returned)
        {
          assert m.returned[j..][1..] == m.returned[j + 1..];
          var e := m.returned[j];
          if m.name == "getCasts" || m.name == "casts" {
            var values := ExtractAssocArrayValues(e);
            s := s.(casts := Merge(s.casts, values));
          } else if m.name == "getHidden" || m.name == "hidden" {
            var values := ExtractArrayValues(e);
            s := s.(hidden := s.hidden + values);
          } else if m.name == "getTable" {
            s := s.(table := ExtractStringValue(e));
          } else if m.name == "getConnectionName" {
            s := s.(connection := ExtractStringValue(e));
          }
          j := j + 1;
        }
      }
      i := i + 1;
    }
  }

  /** Hidden names only accumulate: reading more code never un-hides a
      name. */
  lemma {:induction false} HiddenGrows(s: Settings, nodes: seq<ClassNode>)
    ensures s.hidden <= ReadNodes(s, nodes).hidden
    decreases |nodes|
  {
    if nodes != [] {
      var s1 := ReadPropertyNodes(s, nodes[0].properties);
      HiddenGrowsProperties(s, nodes[0].properties);
      HiddenGrowsMethods(s1, nodes[0].methods);
      HiddenGrows(ReadMethods(s1, nodes[0].methods), nodes[1..]);
    }
  }

  lemma {:induction false} HiddenGrowsProperties(s: Settings, ps: seq<PropertyNode>)
    ensures s.hidden <= ReadPropertyNodes(s, ps).hidden
    decreases |ps|
  {
    if ps != [] {
      HiddenGrowsProps(s, ps[0].props);
      HiddenGrowsProperties(ReadProps(s, ps[0].props), ps[1..]);
    }
  }

  lemma {:induction false} HiddenGrowsProps(s: Settings, props: seq<(string, Expr)>)
    ensures s.hidden <= ReadProps(s, props).hidden
    decreases |props|
  {
    if props != [] {
      HiddenGrowsProps(ReadProp(s, props[0].0, props[0].1), props[1..]);
    }
  }

  lemma {:induction false} HiddenGrowsMethods(s: Settings, ms: seq<MethodNode>)
    ensures s.hidden <= ReadMethods(s, ms).hidden
    decreases |ms|
  {
    if ms != [] {
      var s1 := if IsSettingMethod(ms[0]) then ReadReturns(s, ms[0].name, ms[0].returned) else s;
      if IsSettingMethod(ms[0]) {
        HiddenGrowsReturns(s, ms[0].name, ms[0].returned);
      }
      HiddenGrowsMethods(s1, ms[1..]);
    }
  }

  lemma {:induction false} HiddenGrowsReturns(s: Settings, name: string, es: seq<Expr>)
    ensures s.hidden <= ReadReturns(s, name, es).hidden
    decreases |es|
  {
    if es != [] {
      HiddenGrowsReturns(ReadReturn(s, name, es[0]), name, es[1..]);
    }
  }

  /** A `$hidden` property whose default lists string literals hides each
      of them, whatever else the model declares. */
  lemma HiddenPropertyHides(before: seq<ClassNode>, props: seq<PropertyNode>, names: seq<Expr>, after: seq<ClassNode>, methods: seq<MethodNode>)
    requires props != [] && props[0] == PropertyNode([("hidden", ArrayExpr(seq(|names|, i requires 0 <= i < |names| => Some(ArrayItem(None, names[i])))))])
    ensures forall i | 0 <= i < |names| && names[i].StringLit? ::
      names[i].value in ReadNodes(NoSettings, before + [ClassNode(props, methods)] + after).hidden
  {
    var items := seq(|names|, i requires 0 <= i < |names| => Some(ArrayItem(None, names[i])));
    var s0 := ReadNodes(NoSettings, before);
    ReadNodesAppend(NoSettings, before, [ClassNode(props, methods)] + after);
    assert before + [ClassNode(props, methods)] + after == before + ([ClassNode(props, methods)] + after);
    var s1 := ReadProp(s0, "hidden", ArrayExpr(items));
    assert ReadProps(s0, props[0].props) == s1;
    forall i | 0 <= i < |names| && names[i].StringLit?
      ensures names[i].value in s1.hidden
    {
      StringItemsExact(items, names[i].value);
      assert items[i] == Some(ArrayItem(None, StringLit(names[i].value)));
    }
    HiddenGrowsProperties(s1, props[1..]);
    var s2 := ReadPropertyNodes(s0, props);
    HiddenGrowsMethods(s2, methods);
    HiddenGrows(ReadMethods(s2, methods), after);
    assert ([ClassNode(props, methods)] + after)[1..] == after;
  }

  lemma {:induction false} ReadNodesAppend(s: Settings, a: seq<ClassNode>, b: seq<ClassNode>)
    ensures ReadNodes(s, a + b) == ReadNodes(ReadNodes(s, a), b)
    decreases |a|
  {
    if a == [] {
      assert a + b == b;
    } else {
      assert (a + b)[1..] == a[1..] + b;
      ReadNodesAppend(ReadMethods(ReadPropertyNodes(s, a[0].properties), a[0].methods), a[1..], b);
    }
  }

  // ---------------------------------------------------------------------
  // Columns

  /** `$typeMapping`, grouped by the PHP type each column type maps to. */
  const StringColumnTypes: set<string> := {"string", "text", "longtext", "mediumtext", "varchar", "char"}
  const IntColumnTypes: set<string> := {"integer", "int", "int8", "int4", "bigint", "smallint", "tinyint"}
  const FloatColumnTypes: set<string> := {"decimal", "double", "float"}
  const BoolColumnTypes: set<string> := {"boolean", "tinyint(1)"}
  const DateTimeColumnTypes: set<string> := {"date", "datetime", "timestamp", "time"}
  const ArrayColumnTypes: set<string> := {"json", "jsonb"}

  /** `$typeMapping[$type] ?? $type` */
  function MapColumnType(t: string): string
  {
    if t in StringColumnTypes then "string"
    else if t in IntColumnTypes then "int"
    else if t in FloatColumnTypes then "float"
    else if t in BoolColumnTypes then "bool"
    else if t in DateTimeColumnTypes then "DateTime"
    else if t in ArrayColumnTypes then "array"
    else t
  }

  /** `explode(':', $s)[0]` */
  function BeforeColon(s: string): (r: string)
    ensures r <= s && ':' !in r
  {
    var parts := Text.Split(s, ':');
    Text.JoinSplit(s, ':');
    SplitFirstPrefix(s);
    parts[0]
  }

  lemma {:induction false} SplitFirstPrefix(s: string)
    ensures Text.Split(s, ':')[0] <= s
  {
    if ':' in s {
      var i := Text.IndexOf(s, ':');
      assert Text.Split(s, ':')[0] == s[..i];
    }
  }

  /** A cast value as the string PHP makes of it. */
  function LiteralText(l: Literal): string
  {
    match l
    case LitString(s) => s
    case LitInt(i) => Text.IntText(i)
    case LitFloat(t) => t
  }

  /** `$casts[$name] ?? $columnType`, truncated at the first `:`. */
  function CastedType(columnType: string, cast: Option<Option<Literal>>): string
  {
    BeforeColon(if cast.Some? && cast.value.Some? then LiteralText(cast.value.value) else columnType)
  }

  /** The schema of one visible column, or nothing when the mapped type is
      none of `string`, `int`, `float`, `bool` and `DateTime`. */
  function ColumnSchema(col: Column, casts: seq<(Literal, Option<Literal>)>): (r: Option<Schema>)
    ensures r.Some? ==> r.value.nullable == col.nullable && !r.value.literal
    ensures r.Some? ==> r.value.typ.Some? && r.value.typ.value in ["string", "integer", "number", "boolean"]
  {
    var casted := CastedType(BeforeColon(col.typeName), Get(casts, LitString(col.name)));
    MappedSchema(MapColumnType(casted), col.nullable)
  }

  function MappedSchema(mapped: string, nullable: bool): (r: Option<Schema>)
    ensures r.Some? ==> r.value.nullable == nullable && !r.value.literal
    ensures r.Some? ==> r.value.typ.Some? && r.value.typ.value in ["string", "integer", "number", "boolean"]
  {
    if mapped == "string" then Some(TypedSchema("string", nullable))
    else if mapped == "int" then Some(TypedSchema("integer", nullable))
    else if mapped == "float" then Some(TypedSchema("number", nullable))
    else if mapped == "bool" then Some(TypedSchema("boolean", nullable))
    else if mapped == "DateTime" then Some(StringSchema("date-time", nullable))
    else None
  }

  /** The column loop: visible columns with a schema, by name. */
  function ColumnProperties(acc: seq<(string, Schema)>, cols: seq<Column>, hidden: seq<string>,
                            casts: seq<(Literal, Option<Literal>)>): seq<(string, Schema)>
    decreases |cols|
  {
    if cols == [] then acc
    else
      var s := ColumnSchema(cols[0], casts);
      var next := if cols[0].name !in hidden && s.Some? then Put(acc, cols[0].name, s.value) else acc;
      ColumnProperties(next, cols[1..], hidden, casts)
  }

  /** `foreach ($columns as $column) { ... }` */
  method MapColumns(cols: seq<Column>, hidden: seq<string>, casts: seq<(Literal, Option<Literal>)>)
    returns (properties: seq<(string, Schema)>)
    ensures properties == ColumnProperties([], cols, hidden, casts)
  {
    properties := [];
    var i := 0;
    while i < |cols|
      invariant 0 <= i <= |cols|
      invariant ColumnProperties(properties, cols[i..], hidden, casts) == ColumnProperties([], cols, hidden, casts)
    {
      assert cols[i..][1..] == cols[i + 1..];
      var column := cols[i];
      if column.name !in hidden {
        var schema := ColumnSchema(column, casts);
        if schema.Some? {
          properties := Put(properties, column.name, schema.value);
        }
      }
      i := i + 1;
    }
  }

  /** What the column loop produces: a name no column carries keeps its
      earlier value, and for distinct column names each column's name reads
      back its schema unless it is hidden or has none. */
  lemma {:induction false} ColumnPropertiesSpec(acc: seq<(string, Schema)>, cols: seq<Column>, hidden: seq<string>,
                                                casts: seq<(Literal, Option<Literal>)>)
    requires forall i, j | 0 <= i < j < |cols| :: cols[i].name != cols[j].name
    ensures forall k | forall i | 0 <= i < |cols| :: cols[i].name != k ::
      Get(ColumnProperties(acc, cols, hidden, casts), k) == Get(acc, k)
    ensures forall i | 0 <= i < |cols| ::
      Get(ColumnProperties(acc, cols, hidden, casts), cols[i].name) ==
        if cols[i].name !in hidden && ColumnSchema(cols[i], casts).Some? then ColumnSchema(cols[i], casts) else Get(acc, cols[i].name)
    decreases |cols|
  {
    if cols != [] {
      var s := ColumnSchema(cols[0], casts);
      var next := if cols[0].name !in hidden && s.Some? then Put(acc, cols[0].name, s.value) else acc;
      ColumnPropertiesSpec(next, cols[1..], hidden, casts);
      forall k | forall i | 0 <= i < |cols| :: cols[i].name != k
        ensures Get(ColumnProperties(acc, cols, hidden, casts), k) == Get(acc, k)
      {
        assert forall i | 0 <= i < |cols[1..]| :: cols[1..][i].name == cols[i + 1].name;
        GetPut(acc, cols[0].name, if s.Some? then s.value else Blank, k);
      }
      forall i | 0 <= i < |cols|
        ensures Get(ColumnProperties(acc, cols, hidden, casts), cols[i].name) ==
          if cols[i].name !in hidden && ColumnSchema(cols[i], casts).Some? then ColumnSchema(cols[i], casts) else Get(acc, cols[i].name)
      {
        GetPut(acc, cols[0].name, if s.Some? then s.value else Blank, cols[i].name);
        if i == 0 {
          assert forall j | 0 <= j < |cols[1..]| :: cols[1..][j].name == cols[j + 1].name;
        } else {
          assert cols[1..][i - 1] == cols[i];
        }
      }
    }
  }

  /** The column loop never lists a hidden name that was not listed
      before it ran. */
  lemma {:induction false} HiddenColumnsDropped(acc: seq<(string, Schema)>, cols: seq<Column>, hidden: seq<string>,
                                                casts: seq<(Literal, Option<Literal>)>, h: string)
    requires h in hidden && h !in Keys(acc)
    ensures h !in Keys(ColumnProperties(acc, cols, hidden, casts))
    decreases |cols|
  {
    if cols != [] {
      var s := ColumnSchema(cols[0], casts);
      if cols[0].name !in hidden && s.Some? {
        KeysPut(acc, cols[0].name, s.value);
      }
      HiddenColumnsDropped(if cols[0].name !in hidden && s.Some? then Put(acc, cols[0].name, s.value) else acc,
                           cols[1..], hidden, casts, h);
    }
  }

  /** Every name the column loop lists is a column's name. */
  lemma {:induction false} ColumnPropertiesNames(acc: seq<(string, Schema)>, cols: seq<Column>, hidden: seq<string>,
                                                 casts: seq<(Literal, Option<Literal>)>, k: string)
    requires k in Keys(ColumnProperties(acc, cols, hidden, casts))
    ensures k in Keys(acc) || exists i | 0 <= i < |cols| :: cols[i].name == k
    decreases |cols|
  {
    if cols != [] {
      var s := ColumnSchema(cols[0], casts);
      var next := if cols[0].name !in hidden && s.Some? then Put(acc, cols[0].name, s.value) else acc;
      ColumnPropertiesNames(next, cols[1..], hidden, casts, k);
      if k in Keys(next) {
        KeysPut(acc, cols[0].name, if s.Some? then s.value else Blank);
      } else {
        var i :| 0 <= i < |cols[1..]| && cols[1..][i].name == k;
        assert cols[i + 1].name == k;
      }
    }
  }

  /** A cast names the type, whatever the database reports. */
  lemma CastOverridesColumnType(col: Column, typeName: string, casts: seq<(Literal, Option<Literal>)>, cast: string)
    requires Get(casts, LitString(col.name)) == Some(Some(LitString(cast)))
    ensures ColumnSchema(col, casts) == ColumnSchema(col.(typeName := typeName), casts)
  {
  }

  /** Only the part of a type before the first `:` counts. */
  lemma TypeBeforeColon(col: Column, casts: seq<(Literal, Option<Literal>)>, typeName: string, detail: string)
    requires ':' !in typeName
    ensures ColumnSchema(col.(typeName := typeName + ":" + detail), casts) == ColumnSchema(col.(typeName := typeName), casts)
  {
    BeforeColonOf(typeName, detail);
  }

  lemma BeforeColonOf(t: string, detail: string)
    requires ':' !in t
    ensures BeforeColon(t + ":" + detail) == t && BeforeColon(t) == t
  {
    Text.IndexOfAfter(t, ':', detail);
    var s := t + ":" + detail;
    assert s == t + [':'] + detail;
    assert s[..|t|] == t;
    assert Text.Split(s, ':')[0] == t;
  }

  /** Without a cast, the column's own type picks the schema, with the
      column's nullable flag. */
  lemma ColumnTypeMapping(col: Column, casts: seq<(Literal, Option<Literal>)>)
    requires Get(casts, LitString(col.name)).None? && ':' !in col.typeName
    ensures col.typeName in StringColumnTypes ==> ColumnSchema(col, casts) == Some(TypedSchema("string", col.nullable))
    ensures col.typeName in IntColumnTypes ==> ColumnSchema(col, casts) == Some(TypedSchema("integer", col.nullable))
    ensures col.typeName in FloatColumnTypes ==> ColumnSchema(col, casts) == Some(TypedSchema("number", col.nullable))
    ensures col.typeName in BoolColumnTypes ==> ColumnSchema(col, casts) == Some(TypedSchema("boolean", col.nullable))
    ensures col.typeName in DateTimeColumnTypes ==> ColumnSchema(col, casts) == Some(StringSchema("date-time", col.nullable))
  {
    BeforeColonOf(col.typeName, "");
    MappedNames(col.typeName);
  }

  /** A cast to one of the mapped names decides the schema, whatever the
      column's type. */
  lemma CastTypeMapping(col: Column, casts: seq<(Literal, Option<Literal>)>, cast: string)
    requires Get(casts, LitString(col.name)) == Some(Some(LitString(cast))) && ':' !in cast
    ensures cast in IntColumnTypes ==> ColumnSchema(col, casts) == Some(TypedSchema("integer", col.nullable))
    ensures cast in BoolColumnTypes ==> ColumnSchema(col, casts) == Some(TypedSchema("boolean", col.nullable))
    ensures cast in DateTimeColumnTypes ==> ColumnSchema(col, casts) == Some(StringSchema("date-time", col.nullable))
    ensures cast in ArrayColumnTypes ==> ColumnSchema(col, casts).None?
  {
    BeforeColonOf(cast, "");
    MappedNames(cast);
    assert CastedType(BeforeColon(col.typeName), Get(casts, LitString(col.name))) == cast;
  }

  /** Each table of database types maps to its own name. */
  lemma MappedNames(t: string)
    ensures t in StringColumnTypes ==> MapColumnType(t) == "string"
    ensures t in IntColumnTypes ==> MapColumnType(t) == "int"
    ensures t in FloatColumnTypes ==> MapColumnType(t) == "float"
    ensures t in BoolColumnTypes ==> MapColumnType(t) == "bool"
    ensures t in DateTimeColumnTypes ==> MapColumnType(t) == "DateTime"
    ensures t in ArrayColumnTypes ==> MapColumnType(t) == "array"
  {
  }

  /** `json` and `jsonb` columns map to `array`, which has no case: they
      produce no property. */
  lemma JsonColumnsDropped(col: Column, casts: seq<(Literal, Option<Literal>)>)
    requires Get(casts, LitString(col.name)).None?
    requires col.typeName in ArrayColumnTypes
    ensures ColumnSchema(col, casts).None?
  {
    assert Text.Split(col.typeName, ':') == [col.typeName];
  }

  // ---------------------------------------------------------------------
  // Relationships found in `return $this->relation(Model::class)`

  /** A method the relationship pass looks at: public, not static, without
      parameters, not an accessor, mutator, scope or magic method, and not
      hidden. */
  predicate IsRelationCandidate(m: MethodNode, hidden: seq<string>)
  {
    !m.isStatic && !m.isPrivate && m.paramCount == 0 &&
    !Text.StartsWithAny(m.name, ["get", "set", "scope", "__"]) &&
    m.name !in hidden
  }

  /** A relation call found in a method's `return` statements: the related
      model's short and full names and the relation's kind. */
  datatype RelationCall = RelationCall(short: string, full: string, kind: RelationKind)

  /** The first `return $this->relation(...)` with a known relation call
      decides: its first argument names the related model. A variable there,
      or no argument, ends the search with nothing. The relation class of
      `morphToMany` and `morphedByMany` has no `RELATION_TYPE` entry, and
      reading it throws before the arguments are looked at. */
  function FindRelationCall(env: Env, cls: ClassInfo, returned: seq<Expr>): (r: Result<Option<RelationCall>>)
    ensures r.Ok? && r.value.Some? ==> exists i | 0 <= i < |returned| :: IsRelationReturn(returned[i], r.value.value.kind)
    ensures returned != [] && IsUntypedRelationReturn(returned[0]) ==>
      r == Err("Undefined array key \"" + Get(RelationCallNames, returned[0].callee).value + "\"")
    decreases |returned|
  {
    if returned == [] then Ok(None)
    else
      var e := returned[0];
      if !e.MethodCall? || e.target != Variable("this") || Get(RelationCallNames, e.callee).None? then
        var r := FindRelationCall(env, cls, returned[1..]);
        assert r.Ok? && r.value.Some? ==> exists i | 1 <= i < |returned| :: IsRelationReturn(returned[i], r.value.value.kind) by {
          if r.Ok? && r.value.Some? {
            var i :| 0 <= i < |returned[1..]| && IsRelationReturn(returned[1..][i], r.value.value.kind);
            assert returned[i + 1] == returned[1..][i];
          }
        }
        r
      else
        var relation := Get(RelationCallNames, e.callee).value;
        match Get(RelationTypes, relation)
        case None => Err("Undefined array key \"" + relation + "\"")
        case Some(kind) =>
          if e.args == [] then Ok(None)
          else
            var related := LiteralText(ExtractArgumentValue(e.args[0]));
            if "$" <= related then Ok(None)
            else match GetClassFullname(env, related, cls)
              case Err(m) => Err(m)
              case Ok(full) => Ok(Some(RelationCall(UseImports.LastSegment(full), full, kind)))
  }

  /** `e` is `$this->name(...)` for a method name listed in
      `RELATION_CALL_NAME`: the kind of return that decides the search. */
  predicate IsKnownRelationCall(e: Expr)
  {
    e.MethodCall? && e.target == Variable("this") && Get(RelationCallNames, e.callee).Some?
  }

  /** The first known relation call among the returned expressions decides
      the search and the ones before it count for nothing: its class without
      a `RELATION_TYPE` entry throws; no argument, or a first argument whose
      text starts with `$`, gives nothing; otherwise that text is resolved
      in the class, and the relation names the resolved class by its full
      name and by the last segment of it. */
  lemma {:induction false} FirstRelationCallDecides(env: Env, cls: ClassInfo, returned: seq<Expr>, i: nat)
    requires i < |returned| && IsKnownRelationCall(returned[i])
    requires forall j | 0 <= j < i :: !IsKnownRelationCall(returned[j])
    ensures var e := returned[i];
      var relation := Get(RelationCallNames, e.callee).value;
      var r := FindRelationCall(env, cls, returned);
      (Get(RelationTypes, relation).None? ==> r == Err("Undefined array key \"" + relation + "\"")) &&
      (Get(RelationTypes, relation).Some? && (e.args == [] || "$" <= LiteralText(ExtractArgumentValue(e.args[0]))) ==>
         r == Ok(None)) &&
      (Get(RelationTypes, relation).Some? && e.args != [] && !("$" <= LiteralText(ExtractArgumentValue(e.args[0]))) ==>
         var related := LiteralText(ExtractArgumentValue(e.args[0]));
         (GetClassFullname(env, related, cls).Err? ==> r == Err(GetClassFullname(env, related, cls).message)) &&
         (GetClassFullname(env, related, cls).Ok? ==>
            var full := GetClassFullname(env, related, cls).value;
            r == Ok(Some(RelationCall(UseImports.LastSegment(full), full, Get(RelationTypes, relation).value)))))
    decreases i
  {
    if i > 0 {
      assert !IsKnownRelationCall(returned[0]);
      assert returned[1..][i - 1] == returned[i];
      forall j | 0 <= j < i - 1 ensures !IsKnownRelationCall(returned[1..][j]) {
        assert returned[1..][j] == returned[j + 1];
      }
      FirstRelationCallDecides(env, cls, returned[1..], i - 1);
    }
  }

  /** Without a known relation call among the returned expressions, the
      search finds nothing. */
  lemma {:induction false} NoRelationCall(env: Env, cls: ClassInfo, returned: seq<Expr>)
    requires forall j | 0 <= j < |returned| :: !IsKnownRelationCall(returned[j])
    ensures FindRelationCall(env, cls, returned) == Ok(None)
    decreases |returned|
  {
    if returned != [] {
      assert !IsKnownRelationCall(returned[0]);
      forall j | 0 <= j < |returned| - 1 ensures !IsKnownRelationCall(returned[1..][j]) {
        assert returned[1..][j] == returned[j + 1];
      }
      NoRelationCall(env, cls, returned[1..]);
    }
  }

  /** `return $this->relation(X::class)` as the first known relation call
      of a listed kind: the relation is to `X` resolved in the class, named
      by the last segment of its full name. */
  lemma ClassArgumentRelation(env: Env, cls: ClassInfo, returned: seq<Expr>, i: nat, x: string, full: string)
    requires i < |returned| && IsKnownRelationCall(returned[i])
    requires forall j | 0 <= j < i :: !IsKnownRelationCall(returned[j])
    requires Get(RelationTypes, Get(RelationCallNames, returned[i].callee).value).Some?
    requires returned[i].args != [] && returned[i].args[0] == ClassConstFetch(ClassName(x), "class")
    requires !("$" <= x) && GetClassFullname(env, x, cls) == Ok(full)
    ensures FindRelationCall(env, cls, returned) ==
      Ok(Some(RelationCall(UseImports.LastSegment(full), full,
                           Get(RelationTypes, Get(RelationCallNames, returned[i].callee).value).value)))
  {
    FirstRelationCallDecides(env, cls, returned, i);
  }

  /** `e` is `$this->relation(...)` for a known relation call of kind `kind`. */
  predicate IsRelationReturn(e: Expr, kind: RelationKind)
  {
    e.MethodCall? && e.target == Variable("this") && Get(RelationCallNames, e.callee).Some? &&
    Get(RelationTypes, Get(RelationCallNames, e.callee).value) == Some(kind)
  }

  /** `e` is `$this->relation(...)` for a relation call whose class has no
      kind. */
  predicate IsUntypedRelationReturn(e: Expr)
  {
    e.MethodCall? && e.target == Variable("this") && Get(RelationCallNames, e.callee).Some? &&
    Get(RelationTypes, Get(RelationCallNames, e.callee).value).None?
  }

  /** `morphToMany` and `morphedByMany` name relation classes without a
      kind. */
  lemma UntypedRelationCalls(e: Expr)
    requires e.MethodCall? && e.target == Variable("this")
    requires e.callee == "morphToMany" || e.callee == "morphedByMany"
    ensures IsUntypedRelationReturn(e)
    ensures Get(RelationCallNames, e.callee).value ==
      if e.callee == "morphToMany" then MorphToManyClass else MorphedByManyClass
  {
    if e.callee == "morphToMany" {
      LookUpCallName(7);
    } else {
      LookUpCallName(8);
    }
    UnlistedRelationKind(Get(RelationCallNames, e.callee).value);
  }

  const MorphToManyClass := "Illuminate\\Database\\Eloquent\\Relations\\MorphToMany"
  const MorphedByManyClass := "Illuminate\\Database\\Eloquent\\Relations\\MorphedByMany"

  /** The relation method at position `n` reads back its own class. */
  lemma LookUpCallName(n: nat)
    requires n == 7 || n == 8
    ensures Get(RelationCallNames, RelationCallNames[n].0) == Some(RelationCallNames[n].1)
    ensures RelationCallNames[n] ==
      if n == 7 then ("morphToMany", MorphToManyClass) else ("morphedByMany", MorphedByManyClass)
  {
    GetSkip(RelationCallNames, RelationCallNames[n].0, n);
    assert RelationCallNames[n..][0] == RelationCallNames[n];
  }

  /** The kind table lists neither many-to-many polymorphic relation
      class. */
  lemma UnlistedRelationKind(full: string)
    requires full == MorphToManyClass || full == MorphedByManyClass
    ensures Get(RelationTypes, full).None?
  {
    KeysLength(RelationTypes);
    if full == MorphToManyClass {
      forall i | 0 <= i < |RelationTypes| ensures RelationTypes[i].0 != full {
        assert |full| != |RelationTypes[i].0|;
      }
    } else {
      forall i | 0 <= i < |RelationTypes| ensures RelationTypes[i].0 != full {
        assert |full| != |RelationTypes[i].0| || full[39] != RelationTypes[i].0[39];
      }
    }
    GetSomeIffKey(RelationTypes, full);
  }

  /** The property a relation call gives: a nullable reference for a
      single model, a nullable array of references for several. */
  function RelationSchema(call: RelationCall): (r: Schema)
    ensures r.nullable && ContainsRef(r, call.short)
    ensures r.items.Some? <==> call.kind == Multiple
  {
    match call.kind
    case Single => RefSchema(call.short, true)
    case Multiple => ArraySchema(RefSchema(call.short, false), true)
  }

  /** The node is a reference to `name`, or an array of such references. */
  predicate ContainsRef(s: Schema, name: string)
  {
    s.ref == Some(RefPrefix + name) || (s.items.Some? && s.items.value.ref == Some(RefPrefix + name))
  }
}
