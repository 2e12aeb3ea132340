/** What `parseClass` and the registered closures promise, proved about
    the functions of `ClassParser`. */
module ClassParserLemmas {
  import opened Wrappers
  import opened OrderedMaps
  import opened Schemas
  import opened Reflection
  import opened ClassNames
  import opened Classifier
  import opened ClassParser
  import Paginators
  import Registry

  // ---------------------------------------------------------------------
  // `@property` tags

  /** The `@property` entries are keyed by the tags' variable names, each
      name once, the names already present kept in front. */
  lemma {:induction false} DocPropertiesKeys(env: Env, cls: ClassInfo, tags: seq<Tag>, nullable: bool,
                                             acc: seq<(string, Schema)>, registered: seq<(string, Resolver)>, fuel: nat)
    requires DocProperties(env, cls, tags, nullable, acc, registered, fuel).Ok?
    ensures var r := DocProperties(env, cls, tags, nullable, acc, registered, fuel).value.value;
      Keys(acc) <= Keys(r) &&
      (forall k :: k in Keys(r) <==> k in Keys(acc) || k in Variables(tags)) &&
      (UniqueKeys(acc) ==> UniqueKeys(r))
    decreases |tags|
  {
    if tags != [] {
      var o := ParseTagType(env, cls, tags[0].typ, nullable, fuel).value;
      var acc1 := Put(acc, tags[0].variable, o.value);
      KeysPut(acc, tags[0].variable, o.value);
      if UniqueKeys(acc) {
        UniquePut(acc, tags[0].variable, o.value);
      }
      DocPropertiesKeys(env, cls, tags[1..], nullable, acc1, registered + o.registered, fuel);
      assert Variables(tags) == [tags[0].variable] + Variables(tags[1..]);
    }
  }

  // ---------------------------------------------------------------------
  // One public property

  /** A native `bool`, `int`, `float` or `string` property is written as
      `boolean`, `integer`, `number` or `string`, nullable exactly when its
      declared type allows null; nothing is registered. */
  lemma NativeProperty(env: Env, cls: ClassInfo, p: ReflectedProperty, classNullable: bool, st: ClassState, fuel: nat,
                       n: string, allowsNull: bool)
    requires p.typ == Some(PropertyType([n], allowsNull)) && NativeType(n).Some?
    ensures PropertyStep(env, cls, p, classNullable, st, fuel) ==
      Ok(Going(ClassState(Put(st.properties, p.name, TypedSchema(NativeType(n).value, allowsNull)), st.docProperties, st.registered, st.classFullname)))
  {
    var c0 := Collected([], allowsNull, st.registered, st.classFullname);
    var s := TypedSchema(NativeType(n).value, false);
    var c1 := c0.(schemas := [s]);
    assert [n][1..] == [];
    assert c0.schemas + [s] == [s];
    assert CollectMembers(env, cls, [], p.doc, classNullable, c1, fuel) == Ok(Collecting(c1));
    assert CollectMembers(env, cls, [n], p.doc, classNullable, c0, fuel) == Ok(Collecting(c1));
    assert MergeSchemas([s], allowsNull) == TypedSchema(NativeType(n).value, allowsNull);
  }

  /** A union of a native type with `null` is that type, nullable, whatever
      order the two members come in. */
  lemma NullableNativeProperty(env: Env, cls: ClassInfo, p: ReflectedProperty, classNullable: bool, st: ClassState, fuel: nat,
                               n: string, allowsNull: bool)
    requires p.typ == Some(PropertyType([n, "null"], allowsNull)) || p.typ == Some(PropertyType(["null", n], allowsNull))
    requires NativeType(n).Some?
    ensures PropertyStep(env, cls, p, classNullable, st, fuel) ==
      Ok(Going(ClassState(Put(st.properties, p.name, TypedSchema(NativeType(n).value, true)), st.docProperties, st.registered, st.classFullname)))
  {
    var names := p.typ.value.names;
    var c0 := Collected([], allowsNull, st.registered, st.classFullname);
    var s := TypedSchema(NativeType(n).value, false);
    var done := Collected([s], true, st.registered, st.classFullname);
    assert names[1..][1..] == [];
    assert [] + [s] == [s];
    assert CollectMembers(env, cls, [], p.doc, classNullable, done, fuel) == Ok(Collecting(done));
    if names[0] == "null" {
      assert CollectMembers(env, cls, names[1..], p.doc, classNullable, c0.(nullable := true), fuel) == Ok(Collecting(done));
    } else {
      assert CollectMembers(env, cls, names[1..], p.doc, classNullable, c0.(schemas := [s]), fuel) == Ok(Collecting(done));
    }
    assert MergeSchemas([s], true) == TypedSchema(NativeType(n).value, true);
  }

  /** A property typed with another class that is not a date class is a
      reference to that class's name, nullable as the property's type; the
      class is registered under that name, to be parsed with the nullable
      flag of the class being parsed, and its full name becomes the pass's
      `$classFullname`. */
  lemma ClassProperty(env: Env, cls: ClassInfo, p: ReflectedProperty, classNullable: bool, st: ClassState, fuel: nat,
                      n: string, allowsNull: bool, full: string)
    requires p.typ == Some(PropertyType([n], allowsNull))
    requires n != "null" && n != "array" && NativeType(n).None? && !env.isSubclassOf(n, DateTimeInterface)
    requires GetClassFullname(env, n, cls) == Ok(full) && !env.isSubclassOf(full, DateTimeInterface)
    ensures PropertyStep(env, cls, p, classNullable, st, fuel) ==
      Ok(Going(ClassState(Put(st.properties, p.name, RefSchema(n, allowsNull)), st.docProperties,
                          st.registered + [(n, ClassJob(full, classNullable))], full)))
  {
    var c0 := Collected([], allowsNull, st.registered, st.classFullname);
    var c1 := Collected([RefSchema(n, false)], allowsNull, st.registered + [(n, ClassJob(full, classNullable))], full);
    assert [n][1..] == [];
    assert [] + [RefSchema(n, false)] == [RefSchema(n, false)];
    assert CollectMembers(env, cls, [], p.doc, classNullable, c1, fuel) == Ok(Collecting(c1));
    assert CollectMembers(env, cls, [n], p.doc, classNullable, c0, fuel) == Ok(Collecting(c1));
    assert MergeSchemas([RefSchema(n, false)], allowsNull) == RefSchema(n, allowsNull);
  }

  /** A property whose class name only resolves to a date class ends the
      whole parse, as written: the class comes out as a date-time string
      rather than an object. */
  lemma DateClassProperty(env: Env, cls: ClassInfo, p: ReflectedProperty, classNullable: bool, st: ClassState, fuel: nat,
                          n: string, allowsNull: bool, full: string)
    requires p.typ == Some(PropertyType([n], allowsNull))
    requires n != "null" && n != "array" && NativeType(n).None? && !env.isSubclassOf(n, DateTimeInterface)
    requires GetClassFullname(env, n, cls) == Ok(full) && env.isSubclassOf(full, DateTimeInterface)
    ensures PropertyStep(env, cls, p, classNullable, st, fuel) == Ok(Stopped(st.registered))
  {
    var c0 := Collected([], allowsNull, st.registered, st.classFullname);
    assert CollectMembers(env, cls, [n], p.doc, classNullable, c0, fuel) == Ok(DateClass(st.registered));
  }

  /** A typed property whose members collected nothing (an `array` without
      `@var` tags, say) takes the `@property` entry of its name, which then
      no longer counts among the unused entries and leaves the others as
      they were; without such an entry the class is not understood, and the
      message names the current `$classFullname` and the property. */
  lemma DocblockFallback(env: Env, cls: ClassInfo, p: ReflectedProperty, classNullable: bool, st: ClassState, fuel: nat,
                         c: Collected)
    requires p.typ.Some?
    requires CollectMembers(env, cls, p.typ.value.names, p.doc, classNullable,
                            Collected([], p.typ.value.allowsNull, st.registered, st.classFullname), fuel) == Ok(Collecting(c))
    requires c.schemas == []
    ensures var r := PropertyStep(env, cls, p, classNullable, st, fuel);
      if Get(st.docProperties, p.name).None? then r == Err("Cannot undestand class structure - " + st.classFullname + "::" + p.name)
      else
        r.Ok? && r.value.Going? &&
        Get(r.value.st.properties, p.name) == Get(st.docProperties, p.name) &&
        r.value.st.classFullname == st.classFullname &&
        p.name !in Keys(r.value.st.docProperties) &&
        (forall k | k != p.name :: Get(r.value.st.docProperties, k) == Get(st.docProperties, k) &&
                                    Get(r.value.st.properties, k) == Get(st.properties, k))
  {
    var s := Get(st.docProperties, p.name);
    if s.Some? {
      GetPut(st.properties, p.name, s.value, p.name);
      KeysRemove(st.docProperties, p.name, p.name);
      forall k | k != p.name
        ensures Get(Remove(st.docProperties, p.name), k) == Get(st.docProperties, k)
        ensures Get(Put(st.properties, p.name, s.value), k) == Get(st.properties, k)
      {
        GetRemove(st.docProperties, p.name, k);
        GetPut(st.properties, p.name, s.value, k);
      }
    }
  }

  /** An `array` property without a doc comment collects nothing, so it
      falls back on its `@property` entry. */
  lemma BareArrayCollectsNothing(env: Env, cls: ClassInfo, p: ReflectedProperty, classNullable: bool, st: ClassState, fuel: nat,
                                 allowsNull: bool)
    requires p.typ == Some(PropertyType(["array"], allowsNull)) && p.doc.None?
    ensures CollectMembers(env, cls, ["array"], p.doc, classNullable, Collected([], allowsNull, st.registered, st.classFullname), fuel) ==
      Ok(Collecting(Collected([], allowsNull, st.registered, st.classFullname)))
  {
    assert VarSchemas(env, cls, [], fuel) == Ok(Out([], []));
    assert ["array"][1..] == [];
    assert st.registered + [] == st.registered;
  }

  // ---------------------------------------------------------------------
  // The property pass

  /** `$classFullname` is overwritten by a class-typed property and not set
      back, so a later property that has no type to collect and no
      `@property` entry is reported against the earlier property's class,
      not the class being parsed. */
  lemma MessageNamesLastClass(env: Env, cls: ClassInfo, p: ReflectedProperty, q: ReflectedProperty, classNullable: bool,
                              st: ClassState, fuel: nat, n: string, allowsNull: bool, full: string, qNull: bool)
    requires p.typ == Some(PropertyType([n], allowsNull))
    requires n != "null" && n != "array" && NativeType(n).None? && !env.isSubclassOf(n, DateTimeInterface)
    requires GetClassFullname(env, n, cls) == Ok(full) && !env.isSubclassOf(full, DateTimeInterface)
    requires q.typ == Some(PropertyType(["array"], qNull)) && q.doc.None? && Get(st.docProperties, q.name).None?
    ensures ScanProperties(env, cls, [p, q], classNullable, st, fuel) ==
      Err("Cannot undestand class structure - " + full + "::" + q.name)
  {
    ClassProperty(env, cls, p, classNullable, st, fuel, n, allowsNull, full);
    var st1 := PropertyStep(env, cls, p, classNullable, st, fuel).value.st;
    BareArrayCollectsNothing(env, cls, q, classNullable, st1, fuel, qNull);
    DocblockFallback(env, cls, q, classNullable, st1, fuel, Collected([], qNull, st1.registered, st1.classFullname));
    assert [p, q][1..] == [q];
  }

  /** One step keeps the properties already written, in order, writes the
      property's own name when it is typed, and keeps the unused
      `@property` entries free of repeated names. */
  lemma StepKeys(env: Env, cls: ClassInfo, p: ReflectedProperty, classNullable: bool, st: ClassState, fuel: nat)
    requires PropertyStep(env, cls, p, classNullable, st, fuel).Ok?
    requires PropertyStep(env, cls, p, classNullable, st, fuel).value.Going?
    ensures var st1 := PropertyStep(env, cls, p, classNullable, st, fuel).value.st;
      (forall k | k in Keys(st.properties) :: k in Keys(st1.properties)) &&
      (p.typ.Some? ==> p.name in Keys(st1.properties)) &&
      (UniqueKeys(st.docProperties) ==> UniqueKeys(st1.docProperties))
  {
    var st1 := PropertyStep(env, cls, p, classNullable, st, fuel).value.st;
    if p.typ.Some? {
      var c := CollectMembers(env, cls, p.typ.value.names, p.doc, classNullable,
                              Collected([], p.typ.value.allowsNull, st.registered, st.classFullname), fuel).value.c;
      if c.schemas == [] {
        var s := Get(st.docProperties, p.name).value;
        KeysPut(st.properties, p.name, s);
        if UniqueKeys(st.docProperties) {
          UniqueRemove(st.docProperties, p.name);
        }
      } else {
        KeysPut(st.properties, p.name, MergeSchemas(c.schemas, c.nullable));
      }
    }
  }

  /** When the pass runs to the end, every typed public property has been
      written, the properties written before are still there, and the
      unused `@property` entries still have no repeated name. */
  lemma {:induction false} ScanKeys(env: Env, cls: ClassInfo, ps: seq<ReflectedProperty>, classNullable: bool, st: ClassState, fuel: nat)
    requires ScanProperties(env, cls, ps, classNullable, st, fuel).Ok?
    requires ScanProperties(env, cls, ps, classNullable, st, fuel).value.Going?
    ensures var st1 := ScanProperties(env, cls, ps, classNullable, st, fuel).value.st;
      (forall k | k in Keys(st.properties) :: k in Keys(st1.properties)) &&
      (forall i | 0 <= i < |ps| && ps[i].typ.Some? :: ps[i].name in Keys(st1.properties)) &&
      (UniqueKeys(st.docProperties) ==> UniqueKeys(st1.docProperties))
    decreases |ps|
  {
    if ps != [] {
      var stp := PropertyStep(env, cls, ps[0], classNullable, st, fuel).value.st;
      StepKeys(env, cls, ps[0], classNullable, st, fuel);
      ScanKeys(env, cls, ps[1..], classNullable, stp, fuel);
      var st1 := ScanProperties(env, cls, ps, classNullable, st, fuel).value.st;
      forall i | 0 <= i < |ps| && ps[i].typ.Some? ensures ps[i].name in Keys(st1.properties) {
        if i > 0 {
          assert ps[1..][i - 1] == ps[i];
        }
      }
    }
  }

  // ---------------------------------------------------------------------
  // The object a class becomes

  /** `array_merge($properties, $docblockProperties)`: the written
      properties keep their places in front; an unused `@property` entry
      reads as itself, replacing a written property of the same name, and
      every other name reads as written. */
  lemma ObjectLayout(properties: seq<(string, Schema)>, docProperties: seq<(string, Schema)>, k: string)
    requires UniqueKeys(docProperties)
    ensures Keys(properties) <= Keys(Merge(properties, docProperties))
    ensures Get(Merge(properties, docProperties), k) ==
      if k in Keys(docProperties) then Get(docProperties, k) else Get(properties, k)
  {
    KeysMergeKeepsPrefix(properties, docProperties);
    GetMerge(properties, docProperties, k);
  }

  /** A plain class that runs to the end is a non-required object with the
      class's nullable flag, whose properties start with the typed public
      properties (every one of them present) and read the unused
      `@property` entries where those exist. */
  lemma ParseClassLayout(env: Env, full: string, nullable: bool, fuel: nat, cls: ClassInfo,
                         d: Out<seq<(string, Schema)>>, st: ClassState, k: string)
    requires !env.isSubclassOf(full, EloquentModel) && !env.isSubclassOf(full, DateTimeInterface)
    requires env.classes(full) == Some(cls)
    requires DocProperties(env, cls, if cls.doc.Some? then TagsNamed(cls.doc.value, "property") else [], nullable, [], [], fuel) == Ok(d)
    requires ScanProperties(env, cls, cls.publicProperties, nullable, ClassState([], d.value, d.registered, full), fuel) == Ok(Going(st))
    ensures var r := ParseClass(env, full, nullable, false, fuel);
      r.Ok? && r.value.value.typ == Some("object") && r.value.value.required.None? && r.value.value.nullable == nullable &&
      Keys(st.properties) <= Keys(PropertyEntries(r.value.value)) &&
      (forall i | 0 <= i < |cls.publicProperties| && cls.publicProperties[i].typ.Some? ::
         cls.publicProperties[i].name in Keys(PropertyEntries(r.value.value))) &&
      Get(PropertyEntries(r.value.value), k) == if k in Keys(st.docProperties) then Get(st.docProperties, k) else Get(st.properties, k)
  {
    var tags := if cls.doc.Some? then TagsNamed(cls.doc.value, "property") else [];
    DocPropertiesKeys(env, cls, tags, nullable, [], [], fuel);
    ScanKeys(env, cls, cls.publicProperties, nullable, ClassState([], d.value, d.registered, full), fuel);
    ObjectLayout(st.properties, st.docProperties, k);
  }

  /** With `onlyFromDocblock`, the public properties are not looked at: the
      object holds exactly the `@property` entries, one per tag variable. */
  lemma OnlyFromDocblock(env: Env, full: string, nullable: bool, fuel: nat, cls: ClassInfo, d: Out<seq<(string, Schema)>>)
    requires !env.isSubclassOf(full, EloquentModel) && !env.isSubclassOf(full, DateTimeInterface)
    requires env.classes(full) == Some(cls)
    requires DocProperties(env, cls, if cls.doc.Some? then TagsNamed(cls.doc.value, "property") else [], nullable, [], [], fuel) == Ok(d)
    ensures ParseClass(env, full, nullable, true, fuel) == Ok(Out(ObjectSchema(d.value, None, nullable), d.registered))
    ensures forall k :: k in Keys(d.value) <==>
      k in Variables(if cls.doc.Some? then TagsNamed(cls.doc.value, "property") else [])
  {
    var tags := if cls.doc.Some? then TagsNamed(cls.doc.value, "property") else [];
    DocPropertiesKeys(env, cls, tags, nullable, [], [], fuel);
    assert [] + d.value == d.value;
    MergeFresh([], d.value);
  }

  // ---------------------------------------------------------------------
  // The registered closures

  /** A paginator closure builds its envelope, not nullable, around the
      classified inner type: the property keys are the envelope's own. */
  lemma PaginatorJobShape(env: Env, fuel: nat, kind: PaginatorKind, inner: TypeDesc, ctx: ClassInfo)
    requires RunResolver(env, fuel, PaginatorJob(kind, inner, ctx)).Resolved?
    ensures Paginators.IsEnvelope(RunResolver(env, fuel, PaginatorJob(kind, inner, ctx)).schema, EnvelopeKeys(kind), false)
  {
    var s := ParseTagType(env, ctx, inner, false, fuel).value.value;
    match kind
    case DataPaginator => Paginators.DataPaginatorLayout(s, false);
    case LengthAwarePaginator => Paginators.LengthAwarePaginatorLayout(s, false);
    case SimplePaginator => Paginators.PaginatorLayout(s, false);
    case DataCursorPaginator => Paginators.DataCursorPaginatorLayout(s, false);
    case CursorPaginator => Paginators.CursorPaginatorLayout(s, false);
  }

  /** The JSON:API closure of a `@return` tag: when the classified type is
      an object, the component is `{id: string, attributes: {...}}` with
      that object's properties as attributes; a type without properties
      makes the closure throw. */
  lemma JsonApiJobShape(env: Env, fuel: nat, ret: TypeDesc, nullable: bool, ctx: ClassInfo)
    requires ParseTagType(env, ctx, ret, nullable, fuel).Ok?
    ensures var s := ParseTagType(env, ctx, ret, nullable, fuel).value.value;
      var r := RunResolver(env, fuel, ReturnTagJob(ret, nullable, ctx, true));
      (r.Resolved? <==> s.properties.Properties?) &&
      (r.Resolved? ==>
        Keys(PropertyEntries(r.schema)) == ["id", "attributes"] &&
        Get(PropertyEntries(r.schema), "id") == Some(TypedSchema("string", false)) &&
        Get(PropertyEntries(r.schema), "attributes") == Some(ObjectSchema(s.properties.entries, None, false)) &&
        !r.schema.nullable)
  {
    EnvelopeJob(env, fuel, ret, nullable, ctx);
    var s := ParseTagType(env, ctx, ret, nullable, fuel).value.value;
    if s.properties.Properties? {
      EnvelopeEntries(s.properties.entries);
    }
  }

  /** An envelope job fails exactly when the classified type has no
      properties, and otherwise wraps them in the JSON:API envelope. */
  lemma EnvelopeJob(env: Env, fuel: nat, ret: TypeDesc, nullable: bool, ctx: ClassInfo)
    requires ParseTagType(env, ctx, ret, nullable, fuel).Ok?
    ensures var o := ParseTagType(env, ctx, ret, nullable, fuel).value;
      var r := RunResolver(env, fuel, ReturnTagJob(ret, nullable, ctx, true));
      (o.value.properties.Properties? ==> r == Registry.Resolved(JsonApiEnvelope(o.value.properties.entries), o.registered)) &&
      (!o.value.properties.Properties? ==> r == Registry.Failed("Undefined property: " + NodeClass(o.value) + "::$properties"))
  {
  }

  /** The JSON:API envelope has an `id` string and the attributes object,
      in that order. */
  lemma EnvelopeEntries(entries: seq<(string, Schema)>)
    ensures var e := PropertyEntries(JsonApiEnvelope(entries));
      Keys(e) == ["id", "attributes"] &&
      Get(e, "id") == Some(TypedSchema("string", false)) &&
      Get(e, "attributes") == Some(ObjectSchema(entries, None, false)) &&
      !JsonApiEnvelope(entries).nullable
  {
    var e := PropertyEntries(JsonApiEnvelope(entries));
    assert e == [("id", TypedSchema("string", false)), ("attributes", ObjectSchema(entries, None, false))];
    KeysLength(e);
    GetAt(e, 0);
    GetAt(e, 1);
  }

}
