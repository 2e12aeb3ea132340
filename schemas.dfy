/** The schema node family (Schema, StringSchema, ObjectSchema, ArraySchema,
    RefSchema, OneOfSchema, CustomSchema) and the two pure helpers of the
    schema registry, `mergeSchemas` and `containsBinaryString`. */
module Schemas {
  import opened Wrappers
  import opened OrderedMaps
  import Text

  /** Every `$ref` points into the component section. */
  const RefPrefix: string := "#/components/schemas/"

  /** The `properties` field: absent, or an ordered name -> node map. */
  datatype Properties = NoProperties | Properties(entries: seq<(string, Schema)>)

  /** The `oneOf` field: absent, or a list of variants. */
  datatype Variants = NoVariants | Variants(list: seq<Schema>)

  /** A schema node. The source builds nodes as objects with dynamic fields;
      each optional component here is one such field, absent when `None`.
      `nullable` is true exactly when the node carries `nullable = true` (the
      source never stores `false`). `literal` marks a plain PHP array standing
      where a node would, as the `items` of a type-map entry does. */
  datatype Schema = Schema(
    ref: Option<string>,
    typ: Option<string>,
    format: Option<string>,
    items: Option<Schema>,
    properties: Properties,
    oneOf: Variants,
    required: Option<seq<string>>,
    nullable: bool,
    literal: bool)

  /** The names of the fields a node carries, as PHP would list them. */
  function Fields(s: Schema): set<string>
  {
    (if s.ref.Some? then {"$ref"} else {}) +
    (if s.typ.Some? then {"type"} else {}) +
    (if s.format.Some? then {"format"} else {}) +
    (if s.items.Some? then {"items"} else {}) +
    (if s.properties.Properties? then {"properties"} else {}) +
    (if s.oneOf.Variants? then {"oneOf"} else {}) +
    (if s.required.Some? then {"required"} else {}) +
    (if s.nullable then {"nullable"} else {})
  }

  function NullableField(nullable: bool): set<string>
  {
    if nullable then {"nullable"} else {}
  }

  const Blank := Schema(None, None, None, None, NoProperties, NoVariants, None, false, false)

  /** `new Schema($type, $nullable)` */
  function TypedSchema(typ: string, nullable: bool): (r: Schema)
    ensures r.typ == Some(typ) && r.nullable == nullable && !r.literal
    ensures Fields(r) == {"type"} + NullableField(nullable)
  {
    Blank.(typ := Some(typ), nullable := nullable)
  }

  /** `new StringSchema($format, $nullable)`; the source's default format is "". */
  function StringSchema(format: string, nullable: bool): (r: Schema)
    ensures r.typ == Some("string") && r.format == Some(format)
    ensures r.nullable == nullable && !r.literal
    ensures Fields(r) == {"type", "format"} + NullableField(nullable)
  {
    Blank.(typ := Some("string"), format := Some(format), nullable := nullable)
  }

  /** `new ObjectSchema($properties, $required, $nullable)` */
  function ObjectSchema(properties: seq<(string, Schema)>, required: Option<seq<string>>, nullable: bool): (r: Schema)
    ensures r.typ == Some("object") && r.properties == Properties(properties)
    ensures r.required == required && r.nullable == nullable && !r.literal
    ensures Fields(r) == {"type", "properties"} + NullableField(nullable) +
                         (if required.Some? then {"required"} else {})
  {
    Blank.(typ := Some("object"), properties := Properties(properties), required := required, nullable := nullable)
  }

  /** `new ArraySchema($items, $nullable)` */
  function ArraySchema(items: Schema, nullable: bool): (r: Schema)
    ensures r.typ == Some("array") && r.items == Some(items)
    ensures r.nullable == nullable && !r.literal
    ensures Fields(r) == {"type", "items"} + NullableField(nullable)
  {
    Blank.(typ := Some("array"), items := Some(items), nullable := nullable)
  }

  /** `new RefSchema($name, $nullable)` */
  function RefSchema(name: string, nullable: bool): (r: Schema)
    ensures r.ref == Some(RefPrefix + name) && r.nullable == nullable && !r.literal
    ensures Fields(r) == {"$ref"} + NullableField(nullable)
  {
    Blank.(ref := Some(RefPrefix + name), nullable := nullable)
  }

  /** The writer names a reference by the `basename` of its `$ref`; for a
      non-empty name without a slash that is the name itself. */
  lemma RefNameRoundTrip(name: string, nullable: bool)
    requires name != [] && '/' !in name
    ensures Text.Basename(RefSchema(name, nullable).ref.value) == name
  {
    assert RefPrefix + name == "#/components/schemas" + "/" + name;
    Text.BasenameOfSegment("#/components/schemas", name);
  }

  /** `new OneOfSchema($variants, $nullable)`; the source's default is `[]`. */
  function OneOfSchema(variants: seq<Schema>, nullable: bool): (r: Schema)
    ensures r.oneOf == Variants(variants) && r.nullable == nullable && !r.literal
    ensures Fields(r) == {"oneOf"} + NullableField(nullable)
  {
    Blank.(oneOf := Variants(variants), nullable := nullable)
  }

  /** `$object->putPropertyItem(new PropertyItem($id, $schema))`: the node
      with `properties[$id]` written. */
  function PutPropertyItem(o: Schema, id: string, child: Schema): (r: Schema)
    ensures r.properties.Properties?
    ensures r.(properties := o.properties) == o
  {
    var entries := if o.properties.Properties? then o.properties.entries else [];
    o.(properties := Properties(Put(entries, id, child)))
  }

  function PropertyEntries(s: Schema): seq<(string, Schema)>
  {
    if s.properties.Properties? then s.properties.entries else []
  }

  /** Writing a property makes it read back as the written node, leaves
      every other property as it was, keeps the order of existing names and
      appends a new name at the end. */
  lemma PutPropertyItemSpec(o: Schema, id: string, child: Schema, other: string)
    ensures Get(PropertyEntries(PutPropertyItem(o, id, child)), id) == Some(child)
    ensures other != id ==>
      Get(PropertyEntries(PutPropertyItem(o, id, child)), other) == Get(PropertyEntries(o), other)
    ensures Keys(PropertyEntries(PutPropertyItem(o, id, child))) ==
      if id in Keys(PropertyEntries(o)) then Keys(PropertyEntries(o)) else Keys(PropertyEntries(o)) + [id]
  {
    GetPut(PropertyEntries(o), id, child, id);
    GetPut(PropertyEntries(o), id, child, other);
    KeysPut(PropertyEntries(o), id, child);
  }

  /** The namespace of the node classes. */
  const SchemasNamespace: string := "MartinPham\\TypeGenerator\\Definitions\\Schemas\\"

  /** The PHP class of a node built by the constructors above, told apart
      by the fields each constructor sets; it names the class in PHP's
      `Undefined property: <class>::$properties` warning. */
  function NodeClass(s: Schema): (r: string)
    ensures SchemasNamespace <= r
  {
    SchemasNamespace +
    if s.ref.Some? then "RefSchema"
    else if s.oneOf.Variants? then "OneOfSchema"
    else if s.items.Some? then "ArraySchema"
    else if s.properties.Properties? then "ObjectSchema"
    else if s.format.Some? then "StringSchema"
    else "Schema"
  }

  /** Each constructor's node is named by its own class. */
  lemma NodeClassOfConstructors(typ: string, format: string, properties: seq<(string, Schema)>, required: Option<seq<string>>,
                                items: Schema, name: string, variants: seq<Schema>, nullable: bool)
    ensures NodeClass(TypedSchema(typ, nullable)) == SchemasNamespace + "Schema"
    ensures NodeClass(StringSchema(format, nullable)) == SchemasNamespace + "StringSchema"
    ensures NodeClass(ObjectSchema(properties, required, nullable)) == SchemasNamespace + "ObjectSchema"
    ensures NodeClass(ArraySchema(items, nullable)) == SchemasNamespace + "ArraySchema"
    ensures NodeClass(RefSchema(name, nullable)) == SchemasNamespace + "RefSchema"
    ensures NodeClass(OneOfSchema(variants, nullable)) == SchemasNamespace + "OneOfSchema"
  {
  }

  /** PHP's warning for reading `properties` off a node that has none,
      which Laravel's error handler turns into an exception. */
  function NoPropertiesMessage(s: Schema): string
  {
    "Undefined property: " + NodeClass(s) + "::$properties"
  }

  // ---------------------------------------------------------------------
  // CustomSchema: a node whose fields are copied from a PHP array literal.

  /** A value of the type-map literals: a string, or a nested array of
      string values (the `items` entry). */
  datatype Value = Str(s: string) | Arr(entries: seq<(string, string)>)

  /** Keys the model can hold as node fields, with values of the right kind. */
  predicate IsTextKey(k: string)
  {
    k == "type" || k == "format"
  }

  predicate IsFieldEntry(k: string, v: Value)
  {
    (IsTextKey(k) && v.Str?) ||
    (k == "items" && v.Arr? && forall i | 0 <= i < |v.entries| :: IsTextKey(v.entries[i].0))
  }

  ghost predicate IsFieldMap(m: seq<(string, Value)>)
  {
    UniqueKeys(m) && forall i | 0 <= i < |m| :: IsFieldEntry(m[i].0, m[i].1)
  }

  function SetText(n: Schema, k: string, v: string): Schema
    requires IsTextKey(k)
  {
    if k == "type" then n.(typ := Some(v)) else n.(format := Some(v))
  }

  /** A plain PHP array with `type`/`format` keys, as a literal node. */
  function LiteralNode(entries: seq<(string, string)>): (r: Schema)
    requires forall i | 0 <= i < |entries| :: IsTextKey(entries[i].0)
    ensures r.literal
  {
    if entries == [] then Blank.(literal := true)
    else SetText(LiteralNode(entries[..|entries| - 1]), entries[|entries| - 1].0, entries[|entries| - 1].1)
  }

  function SetField(n: Schema, k: string, v: Value): Schema
    requires IsFieldEntry(k, v)
  {
    if k == "items" then n.(items := Some(LiteralNode(v.entries))) else SetText(n, k, v.s)
  }

  /** `new CustomSchema($map)`: each key of the map becomes a field. */
  function CustomSchema(m: seq<(string, Value)>): (r: Schema)
    requires forall i | 0 <= i < |m| :: IsFieldEntry(m[i].0, m[i].1)
    ensures !r.literal && !r.nullable
  {
    if m == [] then Blank
    else SetField(CustomSchema(m[..|m| - 1]), m[|m| - 1].0, m[|m| - 1].1)
  }

  function TextOf(v: Option<Value>): Option<string>
  {
    if v.Some? && v.value.Str? then Some(v.value.s) else None
  }

  function ItemsOf(v: Option<Value>): Option<Schema>
  {
    if v.Some? && IsFieldEntry("items", v.value) then Some(LiteralNode(v.value.entries)) else None
  }

  /** Every key of the map becomes a field with that key's value, and no
      other field is set. */
  lemma {:induction false} CustomSchemaFields(m: seq<(string, Value)>)
    requires IsFieldMap(m)
    ensures Fields(CustomSchema(m)) == set i | 0 <= i < |m| :: m[i].0
    ensures CustomSchema(m).typ == TextOf(Get(m, "type"))
    ensures CustomSchema(m).format == TextOf(Get(m, "format"))
    ensures CustomSchema(m).items == ItemsOf(Get(m, "items"))
  {
    if m != [] {
      var init := m[..|m| - 1];
      var (k, v) := m[|m| - 1];
      assert m == init + [(k, v)];
      assert IsFieldMap(init);
      CustomSchemaFields(init);
      KeysLength(m);
      KeysLength(init);
      assert k !in Keys(init);
      GetSomeIffKey(init, k);
      SetFieldEffect(CustomSchema(init), k, v);
      GetLast(init, k, v, "type");
      GetLast(init, k, v, "format");
      GetLast(init, k, v, "items");
      assert (set i | 0 <= i < |m| :: m[i].0) == (set i | 0 <= i < |init| :: init[i].0) + {k};
    }
  }

  lemma SetFieldEffect(n: Schema, k: string, v: Value)
    requires IsFieldEntry(k, v)
    ensures Fields(SetField(n, k, v)) == Fields(n) + {k}
    ensures SetField(n, k, v).typ == if k == "type" then Some(v.s) else n.typ
    ensures SetField(n, k, v).format == if k == "format" then Some(v.s) else n.format
    ensures SetField(n, k, v).items == if k == "items" then Some(LiteralNode(v.entries)) else n.items
  {
  }

  lemma {:induction false} GetLast(init: seq<(string, Value)>, k: string, v: Value, q: string)
    ensures Get(init + [(k, v)], q) == if Get(init, q).Some? then Get(init, q) else if q == k then Some(v) else None
  {
    if init != [] {
      assert (init + [(k, v)])[1..] == init[1..] + [(k, v)];
      GetLast(init[1..], k, v, q);
    }
  }

  // ---------------------------------------------------------------------
  // SchemaHelper::mergeSchemas

  /** One collected schema is returned itself (marked nullable when asked);
      any other number becomes a OneOf of the list, in order. */
  function MergeSchemas(schemas: seq<Schema>, nullable: bool): (r: Schema)
    ensures |schemas| == 1 ==>
      r.(nullable := schemas[0].nullable) == schemas[0] &&
      r.nullable == (schemas[0].nullable || nullable)
    ensures |schemas| != 1 ==>
      r.oneOf == Variants(schemas) && r.nullable == nullable && Fields(r) == {"oneOf"} + NullableField(nullable)
  {
    if |schemas| == 1 then
      if nullable then schemas[0].(nullable := true) else schemas[0]
    else OneOfSchema(schemas, nullable)
  }

  // ---------------------------------------------------------------------
  // SchemaHelper::containsBinaryString

  /** The node is itself a binary string: a node (not a plain array) with
      `type == 'string'` and `format == 'binary'`. */
  predicate IsBinaryString(s: Schema)
  {
    !s.literal && s.typ == Some("string") && s.format == Some("binary")
  }

  /** Search of the node and of every node held in its fields (`items`, the
      values of `properties`, the `oneOf` variants). */
  predicate ContainsBinaryString(s: Schema)
  {
    IsBinaryString(s) ||
    (s.items.Some? && ContainsBinaryString(s.items.value)) ||
    (s.properties.Properties? &&
      exists i | 0 <= i < |s.properties.entries| :: ContainsBinaryString(s.properties.entries[i].1)) ||
    (s.oneOf.Variants? &&
      exists i | 0 <= i < |s.oneOf.list| :: ContainsBinaryString(s.oneOf.list[i]))
  }

  /** The same search over a PHP array of nodes (a property map). */
  predicate AnyContainsBinaryString(m: seq<(string, Schema)>)
  {
    exists i | 0 <= i < |m| :: ContainsBinaryString(m[i].1)
  }

  /** Every node reachable from `s` through fields, `s` included. */
  ghost function Nodes(s: Schema): set<Schema>
    decreases s, 1
  {
    {s} + (if s.items.Some? then Nodes(s.items.value) else {}) + PropertyNodes(s) + VariantNodes(s)
  }

  ghost function PropertyNodes(s: Schema): set<Schema>
    decreases s, 0
  {
    if s.properties.Properties?
    then set i, n | 0 <= i < |s.properties.entries| && n in Nodes(s.properties.entries[i].1) :: n
    else {}
  }

  ghost function VariantNodes(s: Schema): set<Schema>
    decreases s, 0
  {
    if s.oneOf.Variants?
    then set i, n | 0 <= i < |s.oneOf.list| && n in Nodes(s.oneOf.list[i]) :: n
    else {}
  }

  ghost predicate ReachesBinary(s: Schema)
  {
    exists n :: n in Nodes(s) && IsBinaryString(n)
  }

  /** The search finds a binary string exactly when one is reachable. */
  lemma {:induction false} ContainsBinaryStringIffReachable(s: Schema)
    ensures ContainsBinaryString(s) <==> ReachesBinary(s)
    decreases s
  {
    if s.items.Some? {
      ContainsBinaryStringIffReachable(s.items.value);
      assert Nodes(s.items.value) <= Nodes(s);
    }
    if s.properties.Properties? {
      forall i | 0 <= i < |s.properties.entries| {
        ContainsBinaryStringIffReachable(s.properties.entries[i].1);
      }
      PropertiesIff(s);
    }
    if s.oneOf.Variants? {
      forall i | 0 <= i < |s.oneOf.list| {
        ContainsBinaryStringIffReachable(s.oneOf.list[i]);
      }
      VariantsIff(s);
    }
    var below := if s.items.Some? then Nodes(s.items.value) else {};
    assert Nodes(s) == {s} + below + PropertyNodes(s) + VariantNodes(s);
    if ReachesBinary(s) && !IsBinaryString(s) {
      var n :| n in Nodes(s) && IsBinaryString(n);
      if n in below {
        assert ReachesBinary(s.items.value);
      }
    }
  }

  lemma PropertiesIff(s: Schema)
    requires s.properties.Properties?
    requires forall i | 0 <= i < |s.properties.entries| ::
      ContainsBinaryString(s.properties.entries[i].1) <==> ReachesBinary(s.properties.entries[i].1)
    ensures (exists i | 0 <= i < |s.properties.entries| :: ContainsBinaryString(s.properties.entries[i].1))
        <==> exists n :: n in PropertyNodes(s) && IsBinaryString(n)
  {
    var es := s.properties.entries;
    if n :| n in PropertyNodes(s) && IsBinaryString(n) {
      var i :| 0 <= i < |es| && n in Nodes(es[i].1);
      assert ReachesBinary(es[i].1);
    }
    if i :| 0 <= i < |es| && ContainsBinaryString(es[i].1) {
      var n :| n in Nodes(es[i].1) && IsBinaryString(n);
      assert n in PropertyNodes(s);
    }
  }

  lemma VariantsIff(s: Schema)
    requires s.oneOf.Variants?
    requires forall i | 0 <= i < |s.oneOf.list| ::
      ContainsBinaryString(s.oneOf.list[i]) <==> ReachesBinary(s.oneOf.list[i])
    ensures (exists i | 0 <= i < |s.oneOf.list| :: ContainsBinaryString(s.oneOf.list[i]))
        <==> exists n :: n in VariantNodes(s) && IsBinaryString(n)
  {
    var vs := s.oneOf.list;
    if n :| n in VariantNodes(s) && IsBinaryString(n) {
      var i :| 0 <= i < |vs| && n in Nodes(vs[i]);
      assert ReachesBinary(vs[i]);
    }
    if i :| 0 <= i < |vs| && ContainsBinaryString(vs[i]) {
      var n :| n in Nodes(vs[i]) && IsBinaryString(n);
      assert n in VariantNodes(s);
    }
  }

  /** A `StringSchema('binary')` is exactly the string node the search
      detects. */
  lemma StringSchemaBinary(format: string, nullable: bool)
    ensures ContainsBinaryString(StringSchema(format, nullable)) <==> format == "binary"
  {
  }
}
