/** `DocBlockHelper::parseTagType`, `ModelHelper::parseModel` and
    `ResourceHelper::parseResource`: the three call one another (a resource
    type is classified through its model, a model's relationships through
    their docblock types), so they are one family of functions here. Each
    returns the schema it builds together with the registrations it made on
    the schema registry, in order; an exception is an `Err`. The resource
    branches are the only place where the recursion is not structural, and
    `fuel` bounds their nesting. */
module Classifier {
  import opened Wrappers
  import opened OrderedMaps
  import opened Schemas
  import opened CodeHelper
  import opened Reflection
  import opened ClassNames
  import opened ModelHelper
  import Text

  const DateTimeInterface := "DateTimeInterface"
  const UploadedFile := "Illuminate\\Http\\UploadedFile"
  const JsonApiResource := "TiMacDonald\\JsonApi\\JsonApiResource"
  const JsonResource := "Illuminate\\Http\\Resources\\Json\\JsonResource"
  const ResourceCollection := "Illuminate\\Http\\Resources\\Json\\ResourceCollection"
  const SupportCollection := "Illuminate\\Support\\Collection"
  const DataCollection := "Spatie\\LaravelData\\DataCollection"
  const PaginatedDataCollection := "Spatie\\LaravelData\\PaginatedDataCollection"
  const CursorPaginatedDataCollection := "Spatie\\LaravelData\\CursorPaginatedDataCollection"
  const LengthAwarePaginatorContract := "Illuminate\\Contracts\\Pagination\\LengthAwarePaginator"
  const PaginatorContract := "Illuminate\\Contracts\\Pagination\\Paginator"
  const CursorPaginatorContract := "Illuminate\\Contracts\\Pagination\\CursorPaginator"

  /** The paginator envelopes a collection type can stand for. */
  datatype PaginatorKind = DataPaginator | LengthAwarePaginator | SimplePaginator | DataCursorPaginator | CursorPaginator

  /** The component-name suffix of each envelope; the two cursor envelopes
      share one. */
  function Suffix(k: PaginatorKind): string
  {
    match k
    case DataPaginator => "_DataPaginator"
    case LengthAwarePaginator => "_LengthAwarePaginator"
    case SimplePaginator => "_Paginator"
    case DataCursorPaginator => "_CursorPaginator"
    case CursorPaginator => "_CursorPaginator"
  }

  /** The closures handed to `registerSchema`, as data: what each computes
      when the registry runs it is given with the class parser. */
  datatype Resolver =
    /** `parseClass(full, nullable, false)` */
    | ClassJob(full: string, nullable: bool)
    /** The `@return` type of a resource's `toAttributes` or `toArray`,
        classified in the resource class; `envelope` wraps its properties
        in the JSON:API `{id, attributes}` object. */
    | ReturnTagJob(ret: TypeDesc, nullable: bool, ctx: ClassInfo, envelope: bool)
    /** A schema computed when the closure was created. */
    | FixedJob(schema: Schema)
    /** A paginator envelope around the classified `inner` type. */
    | PaginatorJob(kind: PaginatorKind, inner: TypeDesc, ctx: ClassInfo)

  /** A result with the registrations made while computing it. */
  datatype Out<T> = Out(value: T, registered: seq<(string, Resolver)>)

  // ---------------------------------------------------------------------
  // Sizes for termination

  function TypeSize(t: TypeDesc): nat
  {
    match t
    case CompoundT(ms) => 1 + MembersSize(ms)
    case ArrayShapeT(es) => 1 + ItemsSize(es)
    case ArrayT(v) => 1 + TypeSize(v)
    case CollectionT(_, k, v) => 2 + TypeSize(k) + TypeSize(v)
    case _ => 1
  }

  function MembersSize(ms: seq<TypeDesc>): nat
  {
    if ms == [] then 0 else 1 + TypeSize(ms[0]) + MembersSize(ms[1..])
  }

  function ItemsSize(es: seq<ShapeItem>): nat
  {
    if es == [] then 0 else 1 + TypeSize(es[0].value) + ItemsSize(es[1..])
  }

  // ---------------------------------------------------------------------
  // Helpers outside the recursion

  /** The members of a compound type other than `null`. */
  function NonNull(ms: seq<TypeDesc>): (r: seq<TypeDesc>)
    ensures |r| <= |ms| && NullT !in r
    ensures forall t | t in ms && t != NullT :: t in r
  {
    if ms == [] then [] else (if ms[0] == NullT then [] else [ms[0]]) + NonNull(ms[1..])
  }

  /** The keys of an array shape, in order. */
  function ShapeKeys(es: seq<ShapeItem>): (r: seq<string>)
    ensures |r| == |es| && forall i | 0 <= i < |es| :: r[i] == es[i].key
  {
    if es == [] then [] else [es[0].key] + ShapeKeys(es[1..])
  }

  /** The class name `getFqsen()->getName()` gives, where there is one. */
  function FqsenName(t: TypeDesc): Option<string>
  {
    match t
    case ObjectT(f) => f
    case CollectionT(n, _, _) => Some(n)
    case _ => None
  }

  /** A paginator collection registers the envelope under the inner class's
      short name and the envelope's suffix, and stands for a non-nullable
      reference to it. An object type without class name has a null fqsen;
      any other type that names no class has no `getFqsen`. */
  function PaginatorRef(kind: PaginatorKind, inner: TypeDesc, ctx: ClassInfo): (r: Result<Out<Schema>>)
    ensures r.Ok? <==> FqsenName(inner).Some?
    ensures inner == ObjectT(None) ==> r == Err("Call to a member function getName() on null")
    ensures r.Ok? ==> var id := FqsenName(inner).value + Suffix(kind);
      r.value.value == RefSchema(id, false) && r.value.registered == [(id, PaginatorJob(kind, inner, ctx))]
  {
    match FqsenName(inner)
    case None =>
      if inner == ObjectT(None) then Err("Call to a member function getName() on null")
      else Err("Call to undefined method " + TypeClass(inner) + "::getFqsen()")
    case Some(n) =>
      var id := n + Suffix(kind);
      Ok(Out(RefSchema(id, false), [(id, PaginatorJob(kind, inner, ctx))]))
  }

  /** The JSON:API envelope `{id: string, attributes: {...}}`. */
  function JsonApiEnvelope(attributes: seq<(string, Schema)>): Schema
  {
    ObjectSchema([("id", TypedSchema("string", false)), ("attributes", ObjectSchema(attributes, None, false))], None, false)
  }

  /** The attribute names a resource class lists: the string items of an
      `attributes` property (JSON:API resources only) and the keys of the
      arrays returned by the public, non-static `callee`. */
  function ScannedAttributes(nodes: seq<ClassNode>, callee: string, withProperty: bool): seq<string>
  {
    if nodes == [] then []
    else
      (if withProperty then PropertyAttributes(nodes[0].properties) else []) +
      MethodAttributes(nodes[0].methods, callee) +
      ScannedAttributes(nodes[1..], callee, withProperty)
  }

  /** The method callback's `TypeError`: DocBlockHelper.php does not import
      `ClassMethod`, so the callbacks' parameter type names a class of the
      helpers' own namespace, which no syntax-tree method node is. */
  const MethodCallbackTypeError: string :=
    "MartinPham\\TypeGenerator\\Helpers\\DocBlockHelper::{closure}(): Argument #1 ($method) must be of type " +
    "MartinPham\\TypeGenerator\\Helpers\\ClassMethod, PhpParser\\Node\\Stmt\\ClassMethod given"

  /** The attribute scan as written: each class node's properties are
      handed to the property callback, then each of its methods to the
      method callback, and the first method fails that callback's type
      check. */
  function ScannedAttributesAsWritten(nodes: seq<ClassNode>, callee: string, withProperty: bool): (r: Result<seq<string>>)
    ensures r.Err? <==> AllMethods(nodes) != []
    ensures r.Err? ==> r.message == MethodCallbackTypeError
    ensures r.Ok? ==> r.value == ScannedAttributes(nodes, callee, withProperty)
  {
    if nodes == [] then Ok([])
    else if nodes[0].methods != [] then Err(MethodCallbackTypeError)
    else
      match ScannedAttributesAsWritten(nodes[1..], callee, withProperty)
      case Err(e) => Err(e)
      case Ok(rest) => Ok((if withProperty then PropertyAttributes(nodes[0].properties) else []) + rest)
  }

  function PropertyAttributes(ps: seq<PropertyNode>): seq<string>
  {
    if ps == [] then [] else NamedAttributes(ps[0].props) + PropertyAttributes(ps[1..])
  }

  function NamedAttributes(props: seq<(string, Expr)>): seq<string>
  {
    if props == [] then []
    else (if props[0].0 == "attributes" then ArrayValues(props[0].1) else []) + NamedAttributes(props[1..])
  }

  function MethodAttributes(ms: seq<MethodNode>, callee: string): seq<string>
  {
    if ms == [] then []
    else
      (if !ms[0].isStatic && !ms[0].isPrivate && ms[0].name == callee then ReturnedKeys(ms[0].returned) else []) +
      MethodAttributes(ms[1..], callee)
  }

  /** `array_keys(extractAssocArrayValues($return->expr))`, per return. */
  function ReturnedKeys(es: seq<Expr>): seq<string>
  {
    if es == [] then [] else KeyTexts(AssocArrayValues(es[0])) + ReturnedKeys(es[1..])
  }

  function KeyTexts(entries: seq<(Literal, Option<Literal>)>): seq<string>
  {
    if entries == [] then [] else [LiteralText(entries[0].0)] + KeyTexts(entries[1..])
  }

  /** Whether `$type->getFqsen()` yields a class name: an object type that
      names its class, or a collection type. */
  predicate NamesClass(t: TypeDesc)
  {
    (t.ObjectT? && t.fqsen.Some?) || t.CollectionT?
  }

  /** `$type->getFqsen()->getName()` for a type that names a class. */
  function ClassNameOf(t: TypeDesc): string
    requires NamesClass(t)
  {
    if t.ObjectT? then t.fqsen.value else t.name
  }

  /** The phpDocumentor class of a type, as a PHP error message names it;
      a type outside the kinds modelled is named by its text. */
  function TypeClass(t: TypeDesc): string
  {
    match t
    case StringT => "phpDocumentor\\Reflection\\Types\\String_"
    case IntegerT => "phpDocumentor\\Reflection\\Types\\Integer"
    case FloatT => "phpDocumentor\\Reflection\\Types\\Float_"
    case BooleanT => "phpDocumentor\\Reflection\\Types\\Boolean"
    case NullT => "phpDocumentor\\Reflection\\Types\\Null_"
    case MixedT => "phpDocumentor\\Reflection\\Types\\Mixed_"
    case ThisT => "phpDocumentor\\Reflection\\Types\\This"
    case ObjectT(_) => "phpDocumentor\\Reflection\\Types\\Object_"
    case CompoundT(_) => "phpDocumentor\\Reflection\\Types\\Compound"
    case ArrayShapeT(_) => "phpDocumentor\\Reflection\\PseudoTypes\\ArrayShape"
    case ArrayT(_) => "phpDocumentor\\Reflection\\Types\\Array_"
    case CollectionT(_, _, _) => "phpDocumentor\\Reflection\\Types\\Collection"
    case OtherT(text) => text
  }

  /** The class named by the last tag, when every tag's type names a class;
      the first tag whose type does not throws: an object type without a
      class name has a null fqsen, and any other type has no `getFqsen`. */
  function LastTagClass(tags: seq<Tag>): (r: Result<Option<string>>)
    ensures r.Ok? <==> forall i | 0 <= i < |tags| :: NamesClass(tags[i].typ)
    ensures r.Ok? ==> (r.value.None? <==> tags == [])
    ensures r.Ok? && tags != [] ==> r.value == Some(ClassNameOf(tags[|tags| - 1].typ))
  {
    if tags == [] then Ok(None)
    else if tags[0].typ == ObjectT(None) then Err("Call to a member function getName() on null")
    else if !NamesClass(tags[0].typ) then Err("Call to undefined method " + TypeClass(tags[0].typ) + "::getFqsen()")
    else
      var rest := LastTagClass(tags[1..]);
      assert forall i | 1 <= i < |tags| :: tags[1..][i - 1] == tags[i];
      match rest
      case Err(e) => Err(e)
      case Ok(None) => Ok(Some(ClassNameOf(tags[0].typ)))
      case Ok(Some(n)) => Ok(Some(n))
  }

  /** The model class a resource is evidently meant to be backed by: the
      last `@mixin`; failing that, the last `@property`; failing that, the
      last `@property-read`; nothing without a doc comment. The parser
      below uses the choice as written, `ResourceModelNameAsWritten`. */
  function ResourceModelName(doc: Option<seq<Tag>>): Result<Option<string>>
  {
    if doc.None? then Ok(None)
    else
      match LastTagClass(TagsNamed(doc.value, "mixin"))
      case Err(e) => Err(e)
      case Ok(Some(n)) => Ok(Some(n))
      case Ok(None) =>
        match LastTagClass(TagsNamed(doc.value, "property"))
        case Err(e) => Err(e)
        case Ok(Some(n)) => Ok(Some(n))
        case Ok(None) => LastTagClass(TagsNamed(doc.value, "property-read"))
  }

  /** The choice as the source writes it, and as `ParseResource` makes it:
      the `@property` loop reads the type of `$mixinTag`, a variable that is
      unset whenever that loop runs, so any `@property` tag throws. */
  function ResourceModelNameAsWritten(doc: Option<seq<Tag>>): Result<Option<string>>
  {
    if doc.None? then Ok(None)
    else
      match LastTagClass(TagsNamed(doc.value, "mixin"))
      case Err(e) => Err(e)
      case Ok(Some(n)) => Ok(Some(n))
      case Ok(None) =>
        if |TagsNamed(doc.value, "property")| > 0 then Err("Undefined variable $mixinTag")
        else LastTagClass(TagsNamed(doc.value, "property-read"))
  }

  /** `foreach ($attributes as $a) if (isset($props[$a])) $out[$a] = $props[$a];` */
  function FilterAttributes(acc: seq<(string, Schema)>, props: seq<(string, Schema)>, attributes: seq<string>)
    : (r: seq<(string, Schema)>)
    ensures Keys(acc) <= Keys(r)
    decreases |attributes|
  {
    if attributes == [] then acc
    else
      var v := Get(props, attributes[0]);
      var next := if v.Some? then Put(acc, attributes[0], v.value) else acc;
      var r := FilterAttributes(next, props, attributes[1..]);
      assert Keys(acc) <= Keys(next) by {
        if v.Some? {
          KeysPut(acc, attributes[0], v.value);
        }
      }
      r
  }

  // ---------------------------------------------------------------------
  // The classifier

  /** `parseTagType($type, $nullable, $class)` */
  function ParseTagType(env: Env, ctx: ClassInfo, t: TypeDesc, nullable: bool, fuel: nat): (r: Result<Out<Schema>>)
    ensures (t.NullT? || t.ThisT? || t.OtherT? || t == ObjectT(None)) ==> r.Err?
    ensures r.Ok? && (t.StringT? || t.IntegerT? || t.FloatT? || t.BooleanT? || t.ObjectT?) ==> r.value.value.nullable == nullable
    ensures r.Ok? && t.CompoundT? ==>
      r.value.value.oneOf.Variants? && |r.value.value.oneOf.list| == |NonNull(t.members)| &&
      r.value.value.nullable == (NullT in t.members)
    decreases fuel, 0, TypeSize(t)
  {
    match t
    case StringT => Ok(Out(TypedSchema("string", nullable), []))
    case IntegerT => Ok(Out(TypedSchema("integer", nullable), []))
    case FloatT => Ok(Out(TypedSchema("number", nullable), []))
    case BooleanT => Ok(Out(TypedSchema("boolean", nullable), []))
    case ObjectT(fqsen) =>
      if fqsen.None? then Err("Call to a member function getName() on null")
      else ParseObject(env, ctx, fqsen.value, nullable, fuel)
    case CompoundT(ms) =>
      (match ParseMembers(env, ctx, ms, fuel)
       case Err(e) => Err(e)
       case Ok(o) => Ok(Out(OneOfSchema(o.value, NullT in ms), o.registered)))
    case ArrayShapeT(es) =>
      (match ParseEntries(env, ctx, es, fuel)
       case Err(e) => Err(e)
       case Ok(o) => Ok(Out(ObjectSchema(Merge([], o.value), None, false), o.registered)))
    case ArrayT(v) => ArrayOf(ParseTagType(env, ctx, v, false, fuel))
    case MixedT => Ok(Out(TypedSchema("string", false), []))
    case CollectionT(name, k, v) => ParseCollection(env, ctx, name, k, v, fuel)
    case NullT => Err("Cannot understand type null")
    case ThisT => Err("Cannot understand type $this")
    case OtherT(text) => Err("Cannot understand type " + text)
  }

  /** The members of a compound other than `null`, in order, each
      classified as not nullable. */
  function ParseMembers(env: Env, ctx: ClassInfo, ms: seq<TypeDesc>, fuel: nat): (r: Result<Out<seq<Schema>>>)
    ensures r.Ok? ==> |r.value.value| == |NonNull(ms)|
    decreases fuel, 0, MembersSize(ms)
  {
    if ms == [] then Ok(Out([], []))
    else if ms[0] == NullT then ParseMembers(env, ctx, ms[1..], fuel)
    else
      match ParseTagType(env, ctx, ms[0], false, fuel)
      case Err(e) => Err(e)
      case Ok(o) =>
        match ParseMembers(env, ctx, ms[1..], fuel)
        case Err(e) => Err(e)
        case Ok(rest) => Ok(Out([o.value] + rest.value, o.registered + rest.registered))
  }

  /** The entries of an array shape, in order, each value classified as not
      nullable. */
  function ParseEntries(env: Env, ctx: ClassInfo, es: seq<ShapeItem>, fuel: nat): (r: Result<Out<seq<(string, Schema)>>>)
    ensures r.Ok? ==> Keys(r.value.value) == ShapeKeys(es)
    decreases fuel, 0, ItemsSize(es)
  {
    if es == [] then Ok(Out([], []))
    else
      match ParseTagType(env, ctx, es[0].value, false, fuel)
      case Err(e) => Err(e)
      case Ok(o) =>
        match ParseEntries(env, ctx, es[1..], fuel)
        case Err(e) => Err(e)
        case Ok(rest) => Ok(Out([(es[0].key, o.value)] + rest.value, o.registered + rest.registered))
  }

  /** The `Object_` branch, from the class's short name. */
  function ParseObject(env: Env, ctx: ClassInfo, name: string, nullable: bool, fuel: nat): (r: Result<Out<Schema>>)
    ensures r.Ok? ==> r.value.value.nullable == nullable
    decreases fuel, 0, 0
  {
    match GetClassFullname(env, name, ctx)
    case Err(e) => Err(e)
    case Ok(full) =>
      if env.isKindOf(full, DateTimeInterface) then Ok(Out(StringSchema("date-time", nullable), []))
      else if full == UploadedFile then Ok(Out(StringSchema("binary", nullable), []))
      else if env.isKindOf(full, JsonApiResource) || env.isKindOf(full, JsonResource) || env.isKindOf(full, ResourceCollection) then
        if fuel == 0 then Err("Resource nesting too deep")
        else ParseResourceClass(env, name, full, nullable, env.isKindOf(full, JsonApiResource), fuel - 1)
      else Ok(Out(RefSchema(name, nullable), [(name, ClassJob(full, nullable))]))
  }

  /** The two resource branches: a JSON:API resource (`jsonApi`) reads
      `toAttributes`, a JSON resource or resource collection `toArray`. A
      `@return` tag on that method is registered as it stands (for JSON:API
      only when the method is overridden); otherwise the attribute names
      read from the class are looked up in its model. */
  function ParseResourceClass(env: Env, name: string, full: string, nullable: bool, jsonApi: bool, fuel: nat): (r: Result<Out<Schema>>)
    ensures r.Ok? ==> r.value.value == RefSchema(name, nullable)
    ensures r.Ok? ==> |r.value.registered| > 0 && r.value.registered[|r.value.registered| - 1].0 == name
    decreases fuel, 5, 0
  {
    match env.classes(full)
    case None => Err("Class \"" + full + "\" does not exist")
    case Some(cls) =>
      var callee := if jsonApi then "toAttributes" else "toArray";
      match MethodNamed(cls.methods, callee)
      case None => Err("Method " + full + "::" + callee + "() does not exist")
      case Some(m) =>
        var returnTags := if m.doc.Some? then TagsNamed(m.doc.value, "return") else [];
        if (!jsonApi || m.declaringClass != JsonApiResource) && |returnTags| > 0 then
          Ok(Out(RefSchema(name, nullable), [(name, ReturnTagJob(returnTags[0].typ, nullable, cls, jsonApi))]))
        else
          match ScannedAttributesAsWritten(cls.nodes, callee, jsonApi)
          case Err(e) => Err(e)
          case Ok(attributes) =>
            match ParseResource(env, full, nullable, cls, attributes, fuel)
            case Err(e) => Err(e)
            case Ok(o) =>
              var schema := if jsonApi then JsonApiEnvelope(o.value) else ObjectSchema(o.value, None, false);
              Ok(Out(RefSchema(name, nullable), o.registered + [(name, FixedJob(schema))]))
  }

  /** The `Collection` branch: `Name<K, V>`, where `V` stands for the
      element type unless it is `$this`, in which case `K` does. */
  function ParseCollection(env: Env, ctx: ClassInfo, name: string, k: TypeDesc, v: TypeDesc, fuel: nat): (r: Result<Out<Schema>>)
    ensures GetClassFullname(env, name, ctx).Err? ==> r.Err?
    ensures GetClassFullname(env, name, ctx).Ok? && !KnownCollection(env, GetClassFullname(env, name, ctx).value) ==>
      r == Err("Cannot understand collection type " + name + " (" + GetClassFullname(env, name, ctx).value + ")")
    decreases fuel, 0, 1 + TypeSize(k) + TypeSize(v)
  {
    match GetClassFullname(env, name, ctx)
    case Err(e) => Err(e)
    case Ok(full) =>
      var inner := if v.ThisT? then k else v;
      if env.isKindOf(full, JsonResource) then ParseTagType(env, ctx, inner, false, fuel)
      else if env.isKindOf(full, SupportCollection) || env.isKindOf(full, DataCollection) || env.isKindOf(full, ResourceCollection) then
        ArrayOf(ParseTagType(env, ctx, inner, false, fuel))
      else if Get(RelationTypes, full).Some? then
        if Get(RelationTypes, full).value == Single then ParseTagType(env, ctx, inner, false, fuel)
        else ArrayOf(ParseTagType(env, ctx, inner, false, fuel))
      else if full == PaginatedDataCollection then PaginatorRef(DataPaginator, inner, ctx)
      else if env.isKindOf(full, LengthAwarePaginatorContract) then PaginatorRef(LengthAwarePaginator, inner, ctx)
      else if env.isKindOf(full, PaginatorContract) then PaginatorRef(SimplePaginator, inner, ctx)
      else if full == CursorPaginatedDataCollection then PaginatorRef(DataCursorPaginator, inner, ctx)
      else if env.isKindOf(full, CursorPaginatorContract) then PaginatorRef(CursorPaginator, inner, ctx)
      else Err("Cannot understand collection type " + name + " (" + full + ")")
  }

  /** `new ArraySchema(items: ...)` around a classified type. */
  function ArrayOf(r: Result<Out<Schema>>): Result<Out<Schema>>
  {
    match r
    case Err(e) => Err(e)
    case Ok(o) => Ok(Out(ArraySchema(o.value, false), o.registered))
  }

  /** `parseResource($full, $nullable, $resourceClass, $attributes)`: the
      backing model's properties that the resource lists, in the order it
      lists them, with the backing model chosen as written. */
  function ParseResource(env: Env, full: string, nullable: bool, cls: ClassInfo, attributes: seq<string>, fuel: nat)
    : (r: Result<Out<seq<(string, Schema)>>>)
    ensures ResourceModelNameAsWritten(cls.doc) == Ok(None) ==> r == Err("Cannot understand which model class of resource " + full)
    ensures cls.doc.Some? && TagsNamed(cls.doc.value, "mixin") == [] && TagsNamed(cls.doc.value, "property") != [] ==>
      r == Err("Undefined variable $mixinTag")
    decreases fuel, 4, 0
  {
    match ResourceModelNameAsWritten(cls.doc)
    case Err(e) => Err(e)
    case Ok(None) => Err("Cannot understand which model class of resource " + full)
    case Ok(Some(n)) =>
      match GetClassFullname(env, n, cls)
      case Err(e) => Err(e)
      case Ok(modelFull) =>
        match ParseModel(env, modelFull, nullable, fuel)
        case Err(e) => Err(e)
        case Ok(o) => Ok(Out(FilterAttributes([], PropertyEntries(o.value), attributes), o.registered))
  }

  /** `parseModel($full, $nullable)`: the visible columns, required, then
      the relationships. */
  function ParseModel(env: Env, full: string, nullable: bool, fuel: nat): (r: Result<Out<Schema>>)
    ensures r.Ok? ==> r.value.value.nullable == nullable && r.value.value.typ == Some("object")
    decreases fuel, 3, 0
  {
    match env.classes(full)
    case None => Err("Class \"" + full + "\" does not exist")
    case Some(cls) =>
      var settings := ReadNodes(NoSettings, cls.nodes);
      var columns := env.columns(settings.connection, TableName(env, full, settings));
      var properties := ColumnProperties([], columns, settings.hidden, settings.casts);
      match Relationships(env, cls, full, [], AllMethods(cls.nodes), settings.hidden, fuel)
      case Err(e) => Err(e)
      case Ok(rels) => Ok(Out(ModelSchema(properties, rels.value, nullable), rels.registered))
  }

  /** The table: the one the model names, or the inflected short class
      name. */
  function TableName(env: Env, full: string, settings: Settings): string
  {
    if settings.table.Some? then settings.table.value
    else env.defaultTable(Text.Basename(Text.ReplaceChar(full, '\\', '/')))
  }

  /** The model's object: columns then relationships, the columns required. */
  /** The collection classes the `Collection` branch has a rule for. */
  predicate KnownCollection(env: Env, full: string)
  {
    env.isKindOf(full, JsonResource) || env.isKindOf(full, SupportCollection) || env.isKindOf(full, DataCollection) ||
    env.isKindOf(full, ResourceCollection) || Get(RelationTypes, full).Some? || full == PaginatedDataCollection ||
    env.isKindOf(full, LengthAwarePaginatorContract) || env.isKindOf(full, PaginatorContract) ||
    full == CursorPaginatedDataCollection || env.isKindOf(full, CursorPaginatorContract)
  }

  function ModelSchema(properties: seq<(string, Schema)>, relationships: seq<(string, Schema)>, nullable: bool): Schema
  {
    ObjectSchema(Merge(properties, relationships), Some(Keys(properties)), nullable)
  }

  /** The relationship pass over the model's methods: a relation `@return`
      type decides; failing that, the first `return $this->relation(...)`. */
  function Relationships(env: Env, cls: ClassInfo, full: string, acc: seq<(string, Schema)>, ms: seq<MethodNode>,
                         hidden: seq<string>, fuel: nat)
    : (r: Result<Out<seq<(string, Schema)>>>)
    ensures (forall i | 0 <= i < |ms| :: !IsRelationCandidate(ms[i], hidden)) ==> r == Ok(Out(acc, []))
    ensures ms != [] && IsRelationCandidate(ms[0], hidden) && MethodNamed(cls.methods, ms[0].name).None? ==>
      r == Err("Method " + full + "::" + ms[0].name + "() does not exist")
    decreases fuel, 2, |ms|
  {
    if ms == [] then Ok(Out(acc, []))
    else if !IsRelationCandidate(ms[0], hidden) then Relationships(env, cls, full, acc, ms[1..], hidden, fuel)
    else
      match MethodRelation(env, cls, full, acc, ms[0], fuel)
      case Err(e) => Err(e)
      case Ok(o) => Continue(o.registered, Relationships(env, cls, full, o.value, ms[1..], hidden, fuel))
  }

  /** One candidate method of the relationship pass over the model `full`:
      the relationships afterwards and the registrations made. A method
      reflection does not know is `getMethod`'s exception, which names the
      class. */
  function MethodRelation(env: Env, cls: ClassInfo, full: string, acc: seq<(string, Schema)>, m: MethodNode, fuel: nat)
    : (r: Result<Out<seq<(string, Schema)>>>)
    ensures MethodNamed(cls.methods, m.name).None? ==> r == Err("Method " + full + "::" + m.name + "() does not exist")
    decreases fuel, 2, 0
  {
    match MethodNamed(cls.methods, m.name)
    case None => Err("Method " + full + "::" + m.name + "() does not exist")
    case Some(rm) =>
      var returnTags := if rm.doc.Some? then TagsNamed(rm.doc.value, "return") else [];
      match DocRelation(env, cls, returnTags, None, [], fuel)
      case Err(e) => Err(e)
      case Ok(d) =>
        var acc1 := if d.value.Some? then Put(acc, m.name, d.value.value) else acc;
        if Get(acc1, m.name).Some? then Ok(Out(acc1, d.registered))
        else
          match FindRelationCall(env, cls, m.returned)
          case Err(e) => Err(e)
          case Ok(None) => Ok(Out(acc1, d.registered))
          case Ok(Some(call)) =>
            Ok(Out(Put(acc1, m.name, RelationSchema(call)), d.registered + [(call.short, ClassJob(call.full, false))]))
  }

  /** Registrations made so far, before those of the rest of the pass. */
  function Continue<T>(before: seq<(string, Resolver)>, rest: Result<Out<T>>): Result<Out<T>>
  {
    match rest
    case Err(e) => Err(e)
    case Ok(o) => Ok(Out(o.value, before + o.registered))
  }

  /** The `@return` tags of a relation candidate: a generic type whose
      class is a relation is classified, and the last such tag wins. */
  function DocRelation(env: Env, cls: ClassInfo, tags: seq<Tag>, found: Option<Schema>,
                       registered: seq<(string, Resolver)>, fuel: nat): (r: Result<Out<Option<Schema>>>)
    ensures r.Ok? && found.Some? ==> r.value.value.Some?
    decreases fuel, 1, |tags|
  {
    if tags == [] then Ok(Out(found, registered))
    else
      var t := tags[0].typ;
      if !t.CollectionT? || "$" <= t.name then DocRelation(env, cls, tags[1..], found, registered, fuel)
      else
        match GetClassFullname(env, t.name, cls)
        case Err(e) => Err(e)
        case Ok(full) =>
          if Get(RelationTypes, full).None? then DocRelation(env, cls, tags[1..], found, registered, fuel)
          else
            match ParseTagType(env, cls, t, false, fuel)
            case Err(e) => Err(e)
            case Ok(o) => DocRelation(env, cls, tags[1..], Some(o.value), registered + o.registered, fuel)
  }
}
