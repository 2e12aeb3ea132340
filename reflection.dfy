/** What the classifiers read about PHP code through reflection, the
    docblock parser and the syntax tree, given as data. Every query the
    source makes of the running PHP process (does a class exist, is it a
    subclass of another, which columns does a table have) is a field of
    `Env`. */
module Reflection {
  import opened Wrappers
  import opened CodeHelper

  /** A docblock type as the docblock parser hands it over. `ObjectT`
      carries the short name of its class reference, absent for the bare
      `object` keyword. A generic `Collection<K, V>` keeps both parameters. */
  datatype TypeDesc =
    | StringT
    | IntegerT
    | FloatT
    | BooleanT
    | NullT
    | MixedT
    | ThisT
    | ObjectT(fqsen: Option<string>)
    | CompoundT(members: seq<TypeDesc>)
    | ArrayShapeT(items: seq<ShapeItem>)
    | ArrayT(value: TypeDesc)
    | CollectionT(name: string, key: TypeDesc, value: TypeDesc)
    | OtherT(text: string)

  /** One `key: type` item of an array shape. */
  datatype ShapeItem = ShapeItem(key: string, value: TypeDesc)

  /** A docblock tag: `@name type $variable`. */
  datatype Tag = Tag(name: string, typ: TypeDesc, variable: string)

  /** `$docBlock->getTagsByName($name)` */
  function TagsNamed(tags: seq<Tag>, name: string): (r: seq<Tag>)
    ensures |r| <= |tags|
    ensures forall i | 0 <= i < |r| :: r[i].name == name && r[i] in tags
    ensures forall t | t in tags && t.name == name :: t in r
  {
    if tags == [] then []
    else (if tags[0].name == name then [tags[0]] else []) + TagsNamed(tags[1..], name)
  }

  /** A `Property` statement of the syntax tree: its names with their
      default values; a missing default is `OtherExpr`. */
  datatype PropertyNode = PropertyNode(props: seq<(string, Expr)>)

  /** A method of the syntax tree and the expressions of the `return`
      statements found inside it (`OtherExpr` for a bare `return;`). */
  datatype MethodNode = MethodNode(name: string, isStatic: bool, isPrivate: bool, paramCount: nat, returned: seq<Expr>)

  /** One class declaration of a file's syntax tree. */
  datatype ClassNode = ClassNode(properties: seq<PropertyNode>, methods: seq<MethodNode>)

  /** The declared type of a property as reflection reports it: the member
      names of a union, or the one name of a plain type. */
  datatype PropertyType = PropertyType(names: seq<string>, allowsNull: bool)

  /** A public property: its name, declared type (absent when untyped) and
      the tags of its doc comment (absent when it has none). */
  datatype ReflectedProperty = ReflectedProperty(name: string, typ: Option<PropertyType>, doc: Option<seq<Tag>>)

  /** A method as reflection reports it, inherited ones included. */
  datatype ReflectedMethod = ReflectedMethod(name: string, declaringClass: string, doc: Option<seq<Tag>>)

  /** Everything read about one class: its namespace, the text of its file,
      the tags of its doc comment, its public properties, its methods, and
      the class declarations of its file. */
  datatype ClassInfo = ClassInfo(
    namespace: string,
    source: string,
    doc: Option<seq<Tag>>,
    publicProperties: seq<ReflectedProperty>,
    methods: seq<ReflectedMethod>,
    nodes: seq<ClassNode>)

  /** A database column as the schema builder lists it. */
  datatype Column = Column(name: string, typeName: string, nullable: bool)

  /** The running process: `classes(n)` is `new ReflectionClass(n)` and is
      absent exactly when `class_exists(n)` is false; `isKindOf` is
      `ClassHelper::isKindOf`, `isSubclassOf` is `is_subclass_of`,
      `columns` the column catalogue of a table on a connection (the default
      one when absent), and `defaultTable` is the table-name inflection
      `Str::snake(Str::pluralStudly(...))`. */
  datatype Env = Env(
    classes: string -> Option<ClassInfo>,
    isKindOf: (string, string) -> bool,
    isSubclassOf: (string, string) -> bool,
    columns: (Option<string>, string) -> seq<Column>,
    defaultTable: string -> string)

  /** `$class->getMethod($name)`; absent when reflection would throw. */
  function MethodNamed(methods: seq<ReflectedMethod>, name: string): (r: Option<ReflectedMethod>)
    ensures r.Some? ==> r.value in methods && r.value.name == name
    ensures r.None? ==> forall m | m in methods :: m.name != name
  {
    if methods == [] then None
    else if methods[0].name == name then Some(methods[0])
    else MethodNamed(methods[1..], name)
  }

  /** The methods of every class declaration of the file, in order. */
  function AllMethods(nodes: seq<ClassNode>): seq<MethodNode>
  {
    if nodes == [] then [] else nodes[0].methods + AllMethods(nodes[1..])
  }
}
