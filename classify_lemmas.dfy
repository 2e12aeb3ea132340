/** What the classifier promises, stated over all inputs. */
module ClassifierLemmas {
  import opened Wrappers
  import opened OrderedMaps
  import opened Schemas
  import opened CodeHelper
  import opened Reflection
  import opened ClassNames
  import opened ModelHelper
  import opened Classifier
  import Text

  // ---------------------------------------------------------------------
  // parseTagType

  /** Scalar types keep the flag they are classified with; `mixed` is a
      plain, non-nullable string. None registers anything. */
  lemma ScalarTypes(env: Env, ctx: ClassInfo, nullable: bool, fuel: nat)
    ensures ParseTagType(env, ctx, StringT, nullable, fuel) == Ok(Out(TypedSchema("string", nullable), []))
    ensures ParseTagType(env, ctx, IntegerT, nullable, fuel) == Ok(Out(TypedSchema("integer", nullable), []))
    ensures ParseTagType(env, ctx, FloatT, nullable, fuel) == Ok(Out(TypedSchema("number", nullable), []))
    ensures ParseTagType(env, ctx, BooleanT, nullable, fuel) == Ok(Out(TypedSchema("boolean", nullable), []))
    ensures ParseTagType(env, ctx, MixedT, nullable, fuel) == Ok(Out(TypedSchema("string", false), []))
  {
  }

  /** A class type: a date-time string for a `DateTimeInterface`, a binary
      string for an uploaded file, and for any class that is no resource a
      component registered under the name as written, with a reference to
      it carrying the flag. */
  lemma ObjectTypes(env: Env, ctx: ClassInfo, name: string, nullable: bool, fuel: nat, full: string)
    requires GetClassFullname(env, name, ctx) == Ok(full)
    ensures env.isKindOf(full, DateTimeInterface) ==>
      ParseTagType(env, ctx, ObjectT(Some(name)), nullable, fuel) == Ok(Out(StringSchema("date-time", nullable), []))
    ensures !env.isKindOf(full, DateTimeInterface) && full == UploadedFile ==>
      ParseTagType(env, ctx, ObjectT(Some(name)), nullable, fuel) == Ok(Out(StringSchema("binary", nullable), []))
    ensures !env.isKindOf(full, DateTimeInterface) && full != UploadedFile && !IsResource(env, full) ==>
      ParseTagType(env, ctx, ObjectT(Some(name)), nullable, fuel) ==
        Ok(Out(RefSchema(name, nullable), [(name, ClassJob(full, nullable))]))
  {
    TagObject(env, ctx, name, nullable, fuel);
  }

  predicate IsResource(env: Env, full: string)
  {
    env.isKindOf(full, JsonApiResource) || env.isKindOf(full, JsonResource) || env.isKindOf(full, ResourceCollection)
  }

  /** A resource class always stands for a reference to its own component,
      and that component is the last thing registered. */
  lemma ResourceTypes(env: Env, ctx: ClassInfo, name: string, nullable: bool, fuel: nat, full: string)
    requires GetClassFullname(env, name, ctx) == Ok(full)
    requires !env.isKindOf(full, DateTimeInterface) && full != UploadedFile && IsResource(env, full)
    requires ParseTagType(env, ctx, ObjectT(Some(name)), nullable, fuel).Ok?
    ensures var o := ParseTagType(env, ctx, ObjectT(Some(name)), nullable, fuel).value;
      o.value == RefSchema(name, nullable) && o.registered != [] && o.registered[|o.registered| - 1].0 == name
  {
    TagObject(env, ctx, name, nullable, fuel);
    ResourceObject(env, ctx, name, nullable, fuel, full);
    var r := ParseResourceClass(env, name, full, nullable, env.isKindOf(full, JsonApiResource), fuel - 1);
    assert r.Ok? ==> r.value.value == RefSchema(name, nullable);
  }

  /** A class type is classified by the `Object_` branch. */
  lemma {:induction false} TagObject(env: Env, ctx: ClassInfo, name: string, nullable: bool, fuel: nat)
    ensures ParseTagType(env, ctx, ObjectT(Some(name)), nullable, fuel) == ParseObject(env, ctx, name, nullable, fuel)
  {
  }

  /** The `Object_` branch of a resource class goes through the resource
      classifier with one unit of fuel less. */
  lemma {:induction false} ResourceObject(env: Env, ctx: ClassInfo, name: string, nullable: bool, fuel: nat, full: string)
    requires GetClassFullname(env, name, ctx) == Ok(full)
    requires !env.isKindOf(full, DateTimeInterface) && full != UploadedFile && IsResource(env, full)
    requires ParseObject(env, ctx, name, nullable, fuel).Ok?
    ensures fuel > 0
    ensures ParseObject(env, ctx, name, nullable, fuel) ==
      ParseResourceClass(env, name, full, nullable, env.isKindOf(full, JsonApiResource), fuel - 1)
  {
  }

  /** `string|null` is a one-variant OneOf marked nullable, not a nullable
      string. */
  lemma NullableScalarIsOneOf(env: Env, ctx: ClassInfo, nullable: bool, fuel: nat)
    ensures ParseTagType(env, ctx, CompoundT([StringT, NullT]), nullable, fuel) ==
      Ok(Out(OneOfSchema([TypedSchema("string", false)], true), []))
  {
    assert [StringT, NullT][1..] == [NullT];
    assert [NullT][1..] == [];
    assert ParseMembers(env, ctx, [], fuel) == Ok(Out([], []));
    assert ParseMembers(env, ctx, [NullT], fuel) == Ok(Out([], []));
    assert ParseTagType(env, ctx, StringT, false, fuel) == Ok(Out(TypedSchema("string", false), []));
    var ms := [StringT, NullT];
    assert ms[0] == StringT && ms[0] != NullT && ms[1..] == [NullT];
    assert ParseMembers(env, ctx, ms, fuel) == Ok(Out([TypedSchema("string", false)] + [], [] + []));
    assert NullT in ms;
    assert [TypedSchema("string", false)] + [] == [TypedSchema("string", false)];
    assert ParseTagType(env, ctx, CompoundT(ms), nullable, fuel) == Ok(Out(OneOfSchema([TypedSchema("string", false)], true), []));
  }

  /** `T[]` is an array of `T`, classified as not nullable. */
  lemma ArrayTypes(env: Env, ctx: ClassInfo, v: TypeDesc, nullable: bool, fuel: nat)
    ensures ParseTagType(env, ctx, ArrayT(v), nullable, fuel).Ok? <==> ParseTagType(env, ctx, v, false, fuel).Ok?
    ensures ParseTagType(env, ctx, ArrayT(v), nullable, fuel).Ok? ==>
      var inner := ParseTagType(env, ctx, v, false, fuel).value;
      ParseTagType(env, ctx, ArrayT(v), nullable, fuel).value == Out(ArraySchema(inner.value, false), inner.registered)
  {
    assert ParseTagType(env, ctx, ArrayT(v), nullable, fuel) == ArrayOf(ParseTagType(env, ctx, v, false, fuel));
  }

  /** An array shape is a non-nullable object with exactly the shape's
      keys; when no key repeats, in the shape's order. */
  lemma ArrayShapeKeys(env: Env, ctx: ClassInfo, es: seq<ShapeItem>, nullable: bool, fuel: nat)
    requires ParseTagType(env, ctx, ArrayShapeT(es), nullable, fuel).Ok?
    ensures var s := ParseTagType(env, ctx, ArrayShapeT(es), nullable, fuel).value.value;
      s.typ == Some("object") && !s.nullable && s.required.None? &&
      (forall k :: k in Keys(PropertyEntries(s)) <==> k in ShapeKeys(es)) &&
      ((forall i, j | 0 <= i < j < |es| :: es[i].key != es[j].key) ==> Keys(PropertyEntries(s)) == ShapeKeys(es))
  {
    var o := ParseEntries(env, ctx, es, fuel).value;
    KeysMergeKeepsPrefix([], o.value);
    if forall i, j | 0 <= i < j < |es| :: es[i].key != es[j].key {
      KeysLength(o.value);
      MergeDistinct([], o.value);
    }
  }

  /** Merging distinct keys absent from the target appends them. */
  lemma {:induction false} MergeDistinct<V>(a: seq<(string, V)>, b: seq<(string, V)>)
    requires UniqueKeys(b)
    requires forall k | k in Keys(b) :: k !in Keys(a)
    ensures Keys(Merge(a, b)) == Keys(a) + Keys(b)
    decreases |b|
  {
    if b != [] {
      KeysLength(b);
      KeysLength(b[1..]);
      PutNew(a, b[0].0, b[0].1);
      KeysAppend(a, b[0].0, b[0].1);
      forall k | k in Keys(b[1..]) ensures k !in Keys(a + [b[0]]) {
        var j :| 0 <= j < |Keys(b[1..])| && Keys(b[1..])[j] == k;
        assert b[1..][j] == b[j + 1];
      }
      MergeDistinct(a + [b[0]], b[1..]);
    }
  }

  lemma {:induction false} KeysAppend<V>(a: seq<(string, V)>, k: string, v: V)
    ensures Keys(a + [(k, v)]) == Keys(a) + [k]
    decreases |a|
  {
    if a != [] {
      assert (a + [(k, v)])[1..] == a[1..] + [(k, v)];
      KeysAppend(a[1..], k, v);
    }
  }

  /** The collection checks in order, for a class that is neither a JSON
      resource, nor an array-like collection, nor a relation: the data
      paginator, then length-aware before simple, then the data cursor
      paginator, then the cursor paginator; anything else throws. */
  lemma PaginatorOrder(env: Env, ctx: ClassInfo, name: string, k: TypeDesc, v: TypeDesc, nullable: bool, fuel: nat, full: string)
    requires GetClassFullname(env, name, ctx) == Ok(full)
    requires !env.isKindOf(full, JsonResource) && !env.isKindOf(full, SupportCollection)
    requires !env.isKindOf(full, DataCollection) && !env.isKindOf(full, ResourceCollection)
    requires Get(RelationTypes, full).None?
    ensures var r := ParseTagType(env, ctx, CollectionT(name, k, v), nullable, fuel);
      var inner := if v.ThisT? then k else v;
      if full == PaginatedDataCollection then r == PaginatorRef(DataPaginator, inner, ctx)
      else if env.isKindOf(full, LengthAwarePaginatorContract) then r == PaginatorRef(LengthAwarePaginator, inner, ctx)
      else if env.isKindOf(full, PaginatorContract) then r == PaginatorRef(SimplePaginator, inner, ctx)
      else if full == CursorPaginatedDataCollection then r == PaginatorRef(DataCursorPaginator, inner, ctx)
      else if env.isKindOf(full, CursorPaginatorContract) then r == PaginatorRef(CursorPaginator, inner, ctx)
      else r.Err?
  {
    TagCollection(env, ctx, name, k, v, nullable, fuel);
  }

  /** A generic type is classified by the `Collection` branch. */
  lemma {:induction false} TagCollection(env: Env, ctx: ClassInfo, name: string, k: TypeDesc, v: TypeDesc, nullable: bool, fuel: nat)
    ensures ParseTagType(env, ctx, CollectionT(name, k, v), nullable, fuel) == ParseCollection(env, ctx, name, k, v, fuel)
  {
  }

  /** Both cursor envelopes are registered under the same name. */
  lemma CursorEnvelopesShareName(ctx: ClassInfo, inner: TypeDesc)
    requires FqsenName(inner).Some?
    ensures PaginatorRef(DataCursorPaginator, inner, ctx).value.value == PaginatorRef(CursorPaginator, inner, ctx).value.value
    ensures PaginatorRef(DataCursorPaginator, inner, ctx).value.registered[0].0 ==
            PaginatorRef(CursorPaginator, inner, ctx).value.registered[0].0
  {
  }

  // ---------------------------------------------------------------------
  // parseResource

  /** The backing model, as evidently intended: the last `@mixin`; without
      one, the last `@property`; without one, the last `@property-read`. */
  lemma ResourceModelChoice(tags: seq<Tag>)
    requires forall t | t in tags :: NamesClass(t.typ)
    ensures var mixins := TagsNamed(tags, "mixin");
      var props := TagsNamed(tags, "property");
      var readOnly := TagsNamed(tags, "property-read");
      ResourceModelName(Some(tags)) ==
        if mixins != [] then Ok(Some(ClassNameOf(mixins[|mixins| - 1].typ)))
        else if props != [] then Ok(Some(ClassNameOf(props[|props| - 1].typ)))
        else if readOnly != [] then Ok(Some(ClassNameOf(readOnly[|readOnly| - 1].typ)))
        else Ok(None)
  {
    LastNamedClass(tags, "mixin");
    LastNamedClass(tags, "property");
    LastNamedClass(tags, "property-read");
  }

  /** The backing model as the parser chooses it: the last `@mixin`; without
      one, any `@property` throws; without one, the last `@property-read`. */
  lemma ResourceModelChoiceAsWritten(tags: seq<Tag>)
    requires forall t | t in tags :: NamesClass(t.typ)
    ensures var mixins := TagsNamed(tags, "mixin");
      var props := TagsNamed(tags, "property");
      var readOnly := TagsNamed(tags, "property-read");
      ResourceModelNameAsWritten(Some(tags)) ==
        if mixins != [] then Ok(Some(ClassNameOf(mixins[|mixins| - 1].typ)))
        else if props != [] then Err("Undefined variable $mixinTag")
        else if readOnly != [] then Ok(Some(ClassNameOf(readOnly[|readOnly| - 1].typ)))
        else Ok(None)
  {
    LastNamedClass(tags, "mixin");
    LastNamedClass(tags, "property-read");
  }

  lemma LastNamedClass(tags: seq<Tag>, name: string)
    requires forall t | t in tags :: NamesClass(t.typ)
    ensures var named := TagsNamed(tags, name);
      LastTagClass(named) == if named == [] then Ok(None) else Ok(Some(ClassNameOf(named[|named| - 1].typ)))
  {
    var named := TagsNamed(tags, name);
    assert forall i | 0 <= i < |named| :: named[i] in tags;
  }

  /** A collection-typed tag names its collection class: a resource whose
      only model tag is `@property-read Collection<K, V>` is backed by that
      class under both choices. */
  lemma CollectionTagNamesModel(name: string, k: TypeDesc, v: TypeDesc, variable: string)
    ensures var doc := Some([Tag("property-read", CollectionT(name, k, v), variable)]);
      ResourceModelNameAsWritten(doc) == Ok(Some(name)) && ResourceModelName(doc) == Ok(Some(name))
  {
    var tags := [Tag("property-read", CollectionT(name, k, v), variable)];
    assert TagsNamed(tags, "mixin") == [];
    assert TagsNamed(tags, "property") == [];
    assert TagsNamed(tags, "property-read") == tags;
  }

  /** A tag whose type names no class stops the choice: an object type
      without a name reports the null fqsen; a scalar, which has no
      `getFqsen`, throws as well. */
  lemma UnnamedTagThrows(variable: string)
    ensures LastTagClass([Tag("mixin", ObjectT(None), variable)]) == Err("Call to a member function getName() on null")
    ensures LastTagClass([Tag("mixin", IntegerT, variable)]).Err?
  {
  }

  /** A resource whose only model tag is `@property` throws as the source
      is written, and names that model once the loop reads its own tag. */
  lemma PropertyFallbackDiverges(model: string, variable: string)
    ensures ResourceModelNameAsWritten(Some([Tag("property", ObjectT(Some(model)), variable)])).Err?
    ensures ResourceModelName(Some([Tag("property", ObjectT(Some(model)), variable)])) == Ok(Some(model))
  {
    var tags := [Tag("property", ObjectT(Some(model)), variable)];
    assert tags[1..] == [];
    assert TagsNamed(tags, "mixin") == [];
    assert TagsNamed(tags, "property") == tags;
  }

  /** The two choices agree on every doc comment without `@property`. */
  lemma ModelNameAgreesWithoutProperty(doc: Option<seq<Tag>>)
    requires doc.Some? ==> TagsNamed(doc.value, "property") == []
    ensures ResourceModelNameAsWritten(doc) == ResourceModelName(doc)
  {
  }

  /** A resource without a model to back it throws. */
  lemma ResourceWithoutModel(env: Env, full: string, nullable: bool, cls: ClassInfo, attributes: seq<string>, fuel: nat)
    requires cls.doc.None? || (forall t | t in cls.doc.value :: t.name !in ["mixin", "property", "property-read"])
    ensures ParseResource(env, full, nullable, cls, attributes, fuel).Err?
  {
    if cls.doc.Some? {
      NoTagsNamed(cls.doc.value, "mixin");
      NoTagsNamed(cls.doc.value, "property");
      NoTagsNamed(cls.doc.value, "property-read");
    }
  }

  lemma NoTagsNamed(tags: seq<Tag>, name: string)
    requires forall t | t in tags :: t.name != name
    ensures TagsNamed(tags, name) == []
  {
  }

  /** The backing model is parsed with the resource's own flag, and the
      resource keeps the model's properties it lists. */
  lemma ResourceUsesModel(env: Env, full: string, nullable: bool, cls: ClassInfo, attributes: seq<string>, fuel: nat,
                          model: string, modelFull: string)
    requires ResourceModelNameAsWritten(cls.doc) == Ok(Some(model))
    requires GetClassFullname(env, model, cls) == Ok(modelFull)
    requires ParseModel(env, modelFull, nullable, fuel).Ok?
    ensures var m := ParseModel(env, modelFull, nullable, fuel).value;
      ParseResource(env, full, nullable, cls, attributes, fuel) ==
        Ok(Out(FilterAttributes([], PropertyEntries(m.value), attributes), m.registered))
  {
  }

  /** A resource whose doc comment names its model only by `@property`
      throws before any model is parsed. */
  lemma PropertyOnlyResourceThrows(env: Env, full: string, nullable: bool, cls: ClassInfo, attributes: seq<string>, fuel: nat)
    requires cls.doc.Some? && TagsNamed(cls.doc.value, "mixin") == [] && TagsNamed(cls.doc.value, "property") != []
    ensures ParseResource(env, full, nullable, cls, attributes, fuel) == Err("Undefined variable $mixinTag")
  {
  }

  /** Filtering: a listed name the model has maps to the model's schema,
      any other name keeps its earlier value; names already present keep
      their place, and new ones are appended. */
  lemma {:induction false} FilterAttributesSpec(acc: seq<(string, Schema)>, props: seq<(string, Schema)>,
                                                attributes: seq<string>, k: string)
    ensures Get(FilterAttributes(acc, props, attributes), k) ==
      if k in attributes && Get(props, k).Some? then Get(props, k) else Get(acc, k)
    ensures Keys(acc) <= Keys(FilterAttributes(acc, props, attributes))
    decreases |attributes|
  {
    if attributes != [] {
      var a := attributes[0];
      var v := Get(props, a);
      var next := if v.Some? then Put(acc, a, v.value) else acc;
      FilterAttributesSpec(next, props, attributes[1..], k);
      if v.Some? {
        GetPut(acc, a, v.value, k);
        KeysPut(acc, a, v.value);
      }
    }
  }

  /** Each name appears once, and when every listed name is distinct and
      present in the model, the result lists exactly them, in order. */
  lemma FilterAttributesOrder(acc: seq<(string, Schema)>, props: seq<(string, Schema)>, attributes: seq<string>)
    requires UniqueKeys(acc)
    ensures UniqueKeys(FilterAttributes(acc, props, attributes))
    ensures (forall i, j | 0 <= i < j < |attributes| :: attributes[i] != attributes[j]) &&
            (forall i | 0 <= i < |attributes| :: Get(props, attributes[i]).Some? && attributes[i] !in Keys(acc)) ==>
            Keys(FilterAttributes(acc, props, attributes)) == Keys(acc) + attributes
  {
    FilterAttributesUnique(acc, props, attributes);
    if (forall i, j | 0 <= i < j < |attributes| :: attributes[i] != attributes[j]) &&
       (forall i | 0 <= i < |attributes| :: Get(props, attributes[i]).Some? && attributes[i] !in Keys(acc)) {
      FilterAttributesKeys(acc, props, attributes);
    }
  }

  lemma {:induction false} FilterAttributesUnique(acc: seq<(string, Schema)>, props: seq<(string, Schema)>, attributes: seq<string>)
    requires UniqueKeys(acc)
    ensures UniqueKeys(FilterAttributes(acc, props, attributes))
    decreases |attributes|
  {
    if attributes != [] {
      var a := attributes[0];
      var v := Get(props, a);
      if v.Some? {
        UniquePut(acc, a, v.value);
      }
      FilterAttributesUnique(if v.Some? then Put(acc, a, v.value) else acc, props, attributes[1..]);
    }
  }

  lemma {:induction false} FilterAttributesKeys(acc: seq<(string, Schema)>, props: seq<(string, Schema)>, attributes: seq<string>)
    requires forall i, j | 0 <= i < j < |attributes| :: attributes[i] != attributes[j]
    requires forall i | 0 <= i < |attributes| :: Get(props, attributes[i]).Some? && attributes[i] !in Keys(acc)
    ensures Keys(FilterAttributes(acc, props, attributes)) == Keys(acc) + attributes
    decreases |attributes|
  {
    if attributes != [] {
      var a := attributes[0];
      var v := Get(props, a).value;
      var next := Put(acc, a, v);
      var rest := attributes[1..];
      assert Keys(next) == Keys(acc) + [a] by {
        KeysPut(acc, a, v);
      }
      assert Keys(FilterAttributes(next, props, rest)) == Keys(next) + rest by {
        FilterTail(acc, props, attributes, next);
        FilterAttributesKeys(next, props, rest);
      }
      assert FilterAttributes(acc, props, attributes) == FilterAttributes(next, props, rest);
      KeysChain(Keys(acc), Keys(next), Keys(FilterAttributes(next, props, rest)), a, attributes);
    } else {
      assert Keys(acc) + attributes == Keys(acc);
    }
  }

  lemma KeysChain(before: seq<string>, next: seq<string>, after: seq<string>, a: string, attributes: seq<string>)
    requires attributes != [] && a == attributes[0]
    requires next == before + [a] && after == next + attributes[1..]
    ensures after == before + attributes
  {
    assert attributes == [a] + attributes[1..];
  }

  /** The conditions of `FilterAttributesKeys` pass from the listed names
      to all but the first, once the first is written. */
  lemma FilterTail(acc: seq<(string, Schema)>, props: seq<(string, Schema)>, attributes: seq<string>,
                   next: seq<(string, Schema)>)
    requires attributes != []
    requires forall i, j | 0 <= i < j < |attributes| :: attributes[i] != attributes[j]
    requires forall i | 0 <= i < |attributes| :: Get(props, attributes[i]).Some? && attributes[i] !in Keys(acc)
    requires Keys(next) == Keys(acc) + [attributes[0]]
    ensures var rest := attributes[1..];
      (forall i, j | 0 <= i < j < |rest| :: rest[i] != rest[j]) &&
      (forall i | 0 <= i < |rest| :: Get(props, rest[i]).Some? && rest[i] !in Keys(next))
  {
    var rest := attributes[1..];
    forall i | 0 <= i < |rest|
      ensures Get(props, rest[i]).Some? && rest[i] !in Keys(next)
    {
      assert rest[i] == attributes[i + 1];
      assert attributes[0] != attributes[i + 1];
    }
    forall i, j | 0 <= i < j < |rest|
      ensures rest[i] != rest[j]
    {
      assert rest[i] == attributes[i + 1] && rest[j] == attributes[j + 1];
    }
  }

  // ---------------------------------------------------------------------
  // parseModel

  /** Names a pass over `ms` may add: those of relation candidates. */
  predicate CandidateName(ms: seq<MethodNode>, hidden: seq<string>, k: string)
  {
    exists i | 0 <= i < |ms| :: IsRelationCandidate(ms[i], hidden) && ms[i].name == k
  }

  /** One method of the pass adds at most its own name and leaves every
      other relationship as it was. */
  lemma MethodRelationKeeps(env: Env, cls: ClassInfo, full: string, acc: seq<(string, Schema)>, m: MethodNode, fuel: nat)
    requires MethodRelation(env, cls, full, acc, m, fuel).Ok?
    ensures var after := MethodRelation(env, cls, full, acc, m, fuel).value.value;
      (forall k | k != m.name :: Get(after, k) == Get(acc, k)) &&
      (forall k | k in Keys(after) :: k in Keys(acc) || k == m.name)
  {
    var rm := MethodNamed(cls.methods, m.name).value;
    var returnTags := if rm.doc.Some? then TagsNamed(rm.doc.value, "return") else [];
    var d := DocRelation(env, cls, returnTags, None, [], fuel).value;
    var acc1 := if d.value.Some? then Put(acc, m.name, d.value.value) else acc;
    var after := MethodRelation(env, cls, full, acc, m, fuel).value.value;
    if d.value.Some? {
      KeysPut(acc, m.name, d.value.value);
      forall k | k != m.name ensures Get(acc1, k) == Get(acc, k) {
        GetPut(acc, m.name, d.value.value, k);
      }
    }
    if after != acc1 {
      var call := FindRelationCall(env, cls, m.returned).value.value;
      var schema := RelationSchema(call);
      assert after == Put(acc1, m.name, schema);
      KeysPut(acc1, m.name, schema);
      forall k | k != m.name ensures Get(after, k) == Get(acc1, k) {
        GetPut(acc1, m.name, schema, k);
      }
    }
  }

  /** The relationship pass only ever adds names of candidate methods: a
      static, private or parameterised method, an accessor, mutator, scope
      or magic method, and a hidden name never become relationships. */
  lemma {:induction false} RelationshipNames(env: Env, cls: ClassInfo, full: string, acc: seq<(string, Schema)>, ms: seq<MethodNode>,
                                             hidden: seq<string>, fuel: nat)
    requires Relationships(env, cls, full, acc, ms, hidden, fuel).Ok?
    ensures forall k | k in Keys(Relationships(env, cls, full, acc, ms, hidden, fuel).value.value) ::
      k in Keys(acc) || CandidateName(ms, hidden, k)
    decreases |ms|
  {
    if ms != [] {
      var rest := ms[1..];
      assert forall k | CandidateName(rest, hidden, k) :: CandidateName(ms, hidden, k) by {
        forall k | CandidateName(rest, hidden, k) ensures CandidateName(ms, hidden, k) {
          var i :| 0 <= i < |rest| && IsRelationCandidate(rest[i], hidden) && rest[i].name == k;
          assert ms[i + 1] == rest[i];
        }
      }
      if !IsRelationCandidate(ms[0], hidden) {
        RelationshipNames(env, cls, full, acc, rest, hidden, fuel);
      } else {
        assert CandidateName(ms, hidden, ms[0].name);
        var o := MethodRelation(env, cls, full, acc, ms[0], fuel).value;
        MethodRelationKeeps(env, cls, full, acc, ms[0], fuel);
        RelationshipNames(env, cls, full, o.value, rest, hidden, fuel);
      }
    }
  }

  /** A hidden name never appears among a model's properties, neither as a
      column nor as a relationship. */
  lemma ModelHidesHidden(env: Env, full: string, nullable: bool, fuel: nat, h: string)
    requires env.classes(full).Some?
    requires h in ReadNodes(NoSettings, env.classes(full).value.nodes).hidden
    requires ParseModel(env, full, nullable, fuel).Ok?
    ensures h !in Keys(PropertyEntries(ParseModel(env, full, nullable, fuel).value.value))
  {
    var cls := env.classes(full).value;
    var settings := ReadNodes(NoSettings, cls.nodes);
    var columns := env.columns(settings.connection, TableName(env, full, settings));
    var properties := ColumnProperties([], columns, settings.hidden, settings.casts);
    var ms := AllMethods(cls.nodes);
    var rels := Relationships(env, cls, full, [], ms, settings.hidden, fuel).value;
    HiddenColumnsDropped([], columns, settings.hidden, settings.casts, h);
    RelationshipNames(env, cls, full, [], ms, settings.hidden, fuel);
    KeysMergeKeepsPrefix(properties, rels.value);
  }

  /** The columns come first and are exactly the required names; the
      relationships follow and are not required. */
  lemma ModelRequiresColumns(env: Env, full: string, nullable: bool, fuel: nat)
    requires env.classes(full).Some?
    requires ParseModel(env, full, nullable, fuel).Ok?
    ensures var cls := env.classes(full).value;
      var settings := ReadNodes(NoSettings, cls.nodes);
      var columns := env.columns(settings.connection, TableName(env, full, settings));
      var properties := ColumnProperties([], columns, settings.hidden, settings.casts);
      var s := ParseModel(env, full, nullable, fuel).value.value;
      s.required == Some(Keys(properties)) && Keys(properties) <= Keys(PropertyEntries(s)) &&
      s.nullable == nullable
  {
    var cls := env.classes(full).value;
    var settings := ReadNodes(NoSettings, cls.nodes);
    var columns := env.columns(settings.connection, TableName(env, full, settings));
    var properties := ColumnProperties([], columns, settings.hidden, settings.casts);
    var rels := Relationships(env, cls, full, [], AllMethods(cls.nodes), settings.hidden, fuel).value;
    KeysMergeKeepsPrefix(properties, rels.value);
  }

  /** Without a table setting, the table is the inflected short class
      name. */
  lemma DefaultTable(env: Env, full: string, settings: Settings)
    requires settings.table.None?
    ensures TableName(env, full, settings) == env.defaultTable(Text.Basename(Text.ReplaceChar(full, '\\', '/')))
  {
  }

  /** A method without doc comment whose code returns a known relation
      call gets that relationship, and the related model is registered
      under its short name as a non-nullable class. */
  lemma MethodRelationFromCode(env: Env, cls: ClassInfo, full: string, m: MethodNode, fuel: nat, call: RelationCall)
    requires MethodNamed(cls.methods, m.name).Some? && MethodNamed(cls.methods, m.name).value.doc.None?
    requires FindRelationCall(env, cls, m.returned) == Ok(Some(call))
    ensures MethodRelation(env, cls, full, [], m, fuel) ==
      Ok(Out([(m.name, RelationSchema(call))], [(call.short, ClassJob(call.full, false))]))
  {
    assert DocRelation(env, cls, [], None, [], fuel) == Ok(Out(None, []));
    var none: seq<(string, Schema)> := [];
    var schema := RelationSchema(call);
    assert Get(none, m.name).None?;
    assert Put(none, m.name, schema) == [(m.name, schema)];
    var jobs: seq<(string, Resolver)> := [];
    assert jobs + [(call.short, ClassJob(call.full, false))] == [(call.short, ClassJob(call.full, false))];
  }

  /** A method without doc comment that returns `$this->morphToMany(...)`
      throws: its relation class has no kind to read. */
  lemma MorphToManyThrows(env: Env, cls: ClassInfo, full: string, m: MethodNode, fuel: nat)
    requires MethodNamed(cls.methods, m.name).Some? && MethodNamed(cls.methods, m.name).value.doc.None?
    requires m.returned != [] && m.returned[0].MethodCall? && m.returned[0].target == Variable("this")
    requires m.returned[0].callee == "morphToMany"
    ensures MethodRelation(env, cls, full, [], m, fuel) == Err("Undefined array key \"" + MorphToManyClass + "\"")
  {
    UntypedRelationCalls(m.returned[0]);
    MethodRelationCodeError(env, cls, full, m, fuel);
  }

  /** Without doc comment, an exception while reading the returned relation
      call is the method's exception. */
  lemma MethodRelationCodeError(env: Env, cls: ClassInfo, full: string, m: MethodNode, fuel: nat)
    requires MethodNamed(cls.methods, m.name).Some? && MethodNamed(cls.methods, m.name).value.doc.None?
    requires FindRelationCall(env, cls, m.returned).Err?
    ensures MethodRelation(env, cls, full, [], m, fuel) == Err(FindRelationCall(env, cls, m.returned).message)
  {
    assert DocRelation(env, cls, [], None, [], fuel) == Ok(Out(None, []));
    var none: seq<(string, Schema)> := [];
    assert Get(none, m.name).None?;
  }

  /** A candidate method without doc comment whose code returns a known
      relation call becomes the only relationship of a one-method model. */
  lemma RelationFromCode(env: Env, cls: ClassInfo, full: string, m: MethodNode, hidden: seq<string>, fuel: nat, call: RelationCall)
    requires IsRelationCandidate(m, hidden)
    requires MethodNamed(cls.methods, m.name).Some? && MethodNamed(cls.methods, m.name).value.doc.None?
    requires FindRelationCall(env, cls, m.returned) == Ok(Some(call))
    ensures Relationships(env, cls, full, [], [m], hidden, fuel) ==
      Ok(Out([(m.name, RelationSchema(call))], [(call.short, ClassJob(call.full, false))]))
  {
    MethodRelationFromCode(env, cls, full, m, fuel, call);
    var acc2 := [(m.name, RelationSchema(call))];
    var jobs := [(call.short, ClassJob(call.full, false))];
    assert [m][1..] == [];
    assert Relationships(env, cls, full, acc2, [], hidden, fuel) == Ok(Out(acc2, []));
    assert jobs + [] == jobs;
    assert Continue(jobs, Relationships(env, cls, full, acc2, [m][1..], hidden, fuel)) == Ok(Out(acc2, jobs));
  }

  // ---------------------------------------------------------------------
  // The resource attribute scan

  /** The corrected scan reads every key returned by the listed method of
      any class node, when that method is public and not static. */
  lemma {:induction false} ScannedAttributesCollects(nodes: seq<ClassNode>, callee: string, withProperty: bool,
                                                     i: nat, j: nat, k: string)
    requires i < |nodes| && j < |nodes[i].methods|
    requires var m := nodes[i].methods[j]; !m.isStatic && !m.isPrivate && m.name == callee && k in ReturnedKeys(m.returned)
    ensures k in ScannedAttributes(nodes, callee, withProperty)
  {
    if i == 0 {
      MethodAttributesCollects(nodes[0].methods, callee, j, k);
    } else {
      ScannedAttributesCollects(nodes[1..], callee, withProperty, i - 1, j, k);
    }
  }

  /** One node's share of the corrected scan reads every key the listed
      method returns. */
  lemma {:induction false} MethodAttributesCollects(ms: seq<MethodNode>, callee: string, j: nat, k: string)
    requires j < |ms| && !ms[j].isStatic && !ms[j].isPrivate && ms[j].name == callee && k in ReturnedKeys(ms[j].returned)
    ensures k in MethodAttributes(ms, callee)
  {
    if j > 0 {
      MethodAttributesCollects(ms[1..], callee, j - 1, k);
    }
  }

  /** A resource whose listed method has no usable `@return` tag, in a file
      that declares any method: the scan throws the method callback's
      `TypeError`. */
  lemma ResourceScanThrows(env: Env, name: string, full: string, nullable: bool, jsonApi: bool, fuel: nat,
                           cls: ClassInfo, m: ReflectedMethod)
    requires env.classes(full) == Some(cls)
    requires MethodNamed(cls.methods, if jsonApi then "toAttributes" else "toArray") == Some(m)
    requires (jsonApi && m.declaringClass == JsonApiResource) || m.doc.None? || TagsNamed(m.doc.value, "return") == []
    requires AllMethods(cls.nodes) != []
    ensures ParseResourceClass(env, name, full, nullable, jsonApi, fuel) == Err(MethodCallbackTypeError)
  {
  }

  /** A file declaring `toArray()` that returns `['id' => 1]`: the
      corrected scan reads `id`, the scan as written throws. */
  lemma ToArrayScanThrows()
    ensures var ret := ArrayExpr([Some(ArrayItem(Some(StringLit("id")), IntLit(1)))]);
      var nodes := [ClassNode([], [MethodNode("toArray", false, false, 0, [ret])])];
      ScannedAttributes(nodes, "toArray", false) == ["id"] &&
      ScannedAttributesAsWritten(nodes, "toArray", false) == Err(MethodCallbackTypeError)
  {
    var items := [Some(ArrayItem(Some(StringLit("id")), IntLit(1)))];
    var ret := ArrayExpr(items);
    var entry := (LitString("id"), Some(LitInt(1)));
    assert Put([], LitString("id"), Some(LitInt(1))) == [entry];
    assert AssocEntries([entry], items[1..]) == [entry];
    assert AssocArrayValues(ret) == [entry];
    assert KeyTexts([entry]) == ["id"];
    assert ReturnedKeys([ret]) == ["id"];
    var ms := [MethodNode("toArray", false, false, 0, [ret])];
    assert MethodAttributes(ms, "toArray") == ["id"] + MethodAttributes(ms[1..], "toArray");
    var nodes := [ClassNode([], ms)];
    assert ScannedAttributes(nodes, "toArray", false) == [] + ["id"] + ScannedAttributes(nodes[1..], "toArray", false);
  }
}
