/** `ClassHelper::parseClass` and the resolvers the registry runs. A plain
    class becomes an object whose properties come from its typed public
    properties first and then from the `@property` tags of its doc comment
    that no public property used up; a model or a date class is handed to
    its own parser. The resolvers registered along the way are run here as
    well, which closes the loop between the classifier and the registry. */
module ClassParser {
  import opened Wrappers
  import opened OrderedMaps
  import opened Schemas
  import opened Reflection
  import opened ClassNames
  import opened Classifier
  import Paginators
  import Registry

  const EloquentModel := "Illuminate\\Database\\Eloquent\\Model"

  /** The schema types of the four native scalar property types. */
  function NativeType(name: string): Option<string>
  {
    if name == "bool" then Some("boolean")
    else if name == "int" then Some("integer")
    else if name == "float" then Some("number")
    else if name == "string" then Some("string")
    else None
  }

  // ---------------------------------------------------------------------
  // The `@property` tags of the class doc comment

  /** Each `@property` tag, classified with the class's nullable flag, is
      written under its variable name; a later tag for the same name
      overwrites an earlier one where it stands. */
  function DocProperties(env: Env, cls: ClassInfo, tags: seq<Tag>, nullable: bool,
                         acc: seq<(string, Schema)>, registered: seq<(string, Resolver)>, fuel: nat)
    : (r: Result<Out<seq<(string, Schema)>>>)
    ensures r.Ok? ==> registered <= r.value.registered
    decreases |tags|
  {
    if tags == [] then Ok(Out(acc, registered))
    else
      match ParseTagType(env, cls, tags[0].typ, nullable, fuel)
      case Err(e) => Err(e)
      case Ok(o) => DocProperties(env, cls, tags[1..], nullable, Put(acc, tags[0].variable, o.value), registered + o.registered, fuel)
  }

  /** The variable names of a list of tags, in order. */
  function Variables(tags: seq<Tag>): (r: seq<string>)
    ensures |r| == |tags| && forall i | 0 <= i < |tags| :: r[i] == tags[i].variable
  {
    if tags == [] then [] else [tags[0].variable] + Variables(tags[1..])
  }

  // ---------------------------------------------------------------------
  // The typed public properties

  /** What the members of one property's type have collected so far: the
      schemas, the property's nullable flag and the registrations, and the
      value of the parser's `$classFullname` variable, which a class member
      overwrites with its own resolved name. */
  datatype Collected = Collected(schemas: seq<Schema>, nullable: bool, registered: seq<(string, Resolver)>, classFullname: string)

  /** A member either adds to the collection, or is a class that resolves to
      a date class, which ends the whole parse (`DateClass`). */
  datatype Members = Collecting(c: Collected) | DateClass(registered: seq<(string, Resolver)>)

  /** The `@var` tags of an `array` property, each classified as not
      nullable, in order. */
  function VarSchemas(env: Env, cls: ClassInfo, tags: seq<Tag>, fuel: nat): (r: Result<Out<seq<Schema>>>)
    ensures r.Ok? ==> |r.value.value| == |tags|
    decreases |tags|
  {
    if tags == [] then Ok(Out([], []))
    else
      match ParseTagType(env, cls, tags[0].typ, false, fuel)
      case Err(e) => Err(e)
      case Ok(o) =>
        match VarSchemas(env, cls, tags[1..], fuel)
        case Err(e) => Err(e)
        case Ok(rest) => Ok(Out([o.value] + rest.value, o.registered + rest.registered))
  }

  /** The members of one property's declared type, in order, each handled
      by `MemberStep`, stopping at the first exception or date class. */
  function CollectMembers(env: Env, cls: ClassInfo, names: seq<string>, doc: Option<seq<Tag>>,
                          classNullable: bool, c: Collected, fuel: nat): (r: Result<Members>)
    ensures r.Ok? && r.value.Collecting? ==>
      r.value.c.nullable == (c.nullable || "null" in names) &&
      c.schemas <= r.value.c.schemas && c.registered <= r.value.c.registered &&
      (|r.value.c.schemas| == |c.schemas| ==> r.value.c.classFullname == c.classFullname)
    ensures r.Ok? && r.value.DateClass? ==> c.registered <= r.value.registered
    decreases |names|
  {
    if names == [] then Ok(Collecting(c))
    else
      assert ("null" in names) == (names[0] == "null" || "null" in names[1..]) by {
        assert names == [names[0]] + names[1..];
      }
      match MemberStep(env, cls, names[0], doc, classNullable, c, fuel)
      case Err(e) => Err(e)
      case Ok(None) => Ok(DateClass(c.registered))
      case Ok(Some(c1)) => CollectMembers(env, cls, names[1..], doc, classNullable, c1, fuel)
  }

  /** One member of a property's declared type. `null` sets the property's
      flag; `array` adds its `@var` types; the native scalars their schema;
      a date class a date-time string; any other class is registered under
      its name, parsed with the class's own flag `classNullable`,
      referenced, and its full name overwrites `$classFullname`, unless
      that full name is a date class (`None`). */
  function MemberStep(env: Env, cls: ClassInfo, n: string, doc: Option<seq<Tag>>,
                      classNullable: bool, c: Collected, fuel: nat): (r: Result<Option<Collected>>)
    ensures r.Ok? && r.value.Some? ==>
      r.value.value.nullable == (c.nullable || n == "null") &&
      c.schemas <= r.value.value.schemas && c.registered <= r.value.value.registered &&
      (|r.value.value.schemas| == |c.schemas| ==> r.value.value.classFullname == c.classFullname)
    ensures r.Ok? && r.value.None? ==>
      n != "null" && n != "array" && NativeType(n).None? && !env.isSubclassOf(n, DateTimeInterface) &&
      GetClassFullname(env, n, cls).Ok? && env.isSubclassOf(GetClassFullname(env, n, cls).value, DateTimeInterface)
  {
    if n == "null" then Ok(Some(c.(nullable := true)))
    else if n == "array" then
      var tags := if doc.Some? then TagsNamed(doc.value, "var") else [];
      match VarSchemas(env, cls, tags, fuel)
      case Err(e) => Err(e)
      case Ok(o) => Ok(Some(c.(schemas := c.schemas + o.value, registered := c.registered + o.registered)))
    else if NativeType(n).Some? then
      Ok(Some(c.(schemas := c.schemas + [TypedSchema(NativeType(n).value, false)])))
    else if env.isSubclassOf(n, DateTimeInterface) then
      Ok(Some(c.(schemas := c.schemas + [StringSchema("date-time", false)])))
    else
      match GetClassFullname(env, n, cls)
      case Err(e) => Err(e)
      case Ok(full) =>
        if env.isSubclassOf(full, DateTimeInterface) then Ok(None)
        else Ok(Some(Collected(c.schemas + [RefSchema(n, false)], c.nullable, c.registered + [(n, ClassJob(full, classNullable))], full)))
  }

  /** The state of the property pass: the properties written so far, the
      `@property` entries not yet used up, the registrations, and
      `$classFullname`: the parsed class's name at first, then the name of
      the last class-typed member resolved in the pass. */
  datatype ClassState = ClassState(properties: seq<(string, Schema)>, docProperties: seq<(string, Schema)>,
                                   registered: seq<(string, Resolver)>, classFullname: string)

  /** The pass goes on, or a date class ended it. */
  datatype Scan = Going(st: ClassState) | Stopped(registered: seq<(string, Resolver)>)

  /** One public property. An untyped one is skipped. One whose members
      collected nothing takes the `@property` entry of the same name, which
      leaves the unused entries, and fails when there is none, naming the
      current `$classFullname`; otherwise it is the merge of what was
      collected with the property's flag. */
  function PropertyStep(env: Env, cls: ClassInfo, p: ReflectedProperty, classNullable: bool, st: ClassState, fuel: nat)
    : (r: Result<Scan>)
    ensures p.typ.None? ==> r == Ok(Going(st))
    ensures r.Ok? && r.value.Going? ==> st.registered <= r.value.st.registered
    ensures r.Ok? && r.value.Stopped? ==> st.registered <= r.value.registered
  {
    match p.typ
    case None => Ok(Going(st))
    case Some(pt) =>
      match CollectMembers(env, cls, pt.names, p.doc, classNullable, Collected([], pt.allowsNull, st.registered, st.classFullname), fuel)
      case Err(e) => Err(e)
      case Ok(DateClass(regs)) => Ok(Stopped(regs))
      case Ok(Collecting(c)) =>
        if c.schemas == [] then
          match Get(st.docProperties, p.name)
          case None => Err("Cannot undestand class structure - " + c.classFullname + "::" + p.name)
          case Some(s) => Ok(Going(ClassState(Put(st.properties, p.name, s), Remove(st.docProperties, p.name), c.registered, c.classFullname)))
        else
          Ok(Going(ClassState(Put(st.properties, p.name, MergeSchemas(c.schemas, c.nullable)), st.docProperties, c.registered, c.classFullname)))
  }

  /** The pass over the public properties, in order. */
  function ScanProperties(env: Env, cls: ClassInfo, ps: seq<ReflectedProperty>, classNullable: bool, st: ClassState, fuel: nat)
    : (r: Result<Scan>)
    decreases |ps|
  {
    if ps == [] then Ok(Going(st))
    else
      match PropertyStep(env, cls, ps[0], classNullable, st, fuel)
      case Err(e) => Err(e)
      case Ok(Stopped(regs)) => Ok(Stopped(regs))
      case Ok(Going(st1)) => ScanProperties(env, cls, ps[1..], classNullable, st1, fuel)
  }

  /** The property pass as the source runs it, one property at a time,
      stopping at the first exception or date class. */
  method ScanPublicProperties(env: Env, cls: ClassInfo, ps: seq<ReflectedProperty>, classNullable: bool, start: ClassState, fuel: nat)
    returns (r: Result<Scan>)
    ensures r == ScanProperties(env, cls, ps, classNullable, start, fuel)
  {
    var st := start;
    var i := 0;
    while i < |ps|
      invariant 0 <= i <= |ps|
      invariant ScanProperties(env, cls, ps[i..], classNullable, st, fuel) == ScanProperties(env, cls, ps, classNullable, start, fuel)
    {
      assert ps[i..][1..] == ps[i + 1..];
      var step := PropertyStep(env, cls, ps[i], classNullable, st, fuel);
      if step.Err? {
        return Err(step.message);
      }
      if step.value.Stopped? {
        return step;
      }
      st := step.value.st;
      i := i + 1;
    }
    r := Ok(Going(st));
  }

  /** `parseClass($full, $nullable, $onlyFromDocblock)`. */
  function ParseClass(env: Env, full: string, nullable: bool, onlyFromDocblock: bool, fuel: nat): (r: Result<Out<Schema>>)
    ensures env.isSubclassOf(full, EloquentModel) ==> r == ParseModel(env, full, nullable, fuel)
    ensures !env.isSubclassOf(full, EloquentModel) && env.isSubclassOf(full, DateTimeInterface) ==>
      r == Ok(Out(StringSchema("date-time", false), []))
    ensures !env.isSubclassOf(full, EloquentModel) && !env.isSubclassOf(full, DateTimeInterface) ==>
      (env.classes(full).None? ==> r.Err?) &&
      (r.Ok? ==> r.value.value.nullable == nullable && r.value.value.required.None? &&
                 (r.value.value.typ == Some("object") || r.value.value == StringSchema("date-time", nullable)))
  {
    if env.isSubclassOf(full, EloquentModel) then ParseModel(env, full, nullable, fuel)
    else if env.isSubclassOf(full, DateTimeInterface) then Ok(Out(StringSchema("date-time", false), []))
    else
      match env.classes(full)
      case None => Err("Class \"" + full + "\" does not exist")
      case Some(cls) =>
        var tags := if cls.doc.Some? then TagsNamed(cls.doc.value, "property") else [];
        match DocProperties(env, cls, tags, nullable, [], [], fuel)
        case Err(e) => Err(e)
        case Ok(d) =>
          var start := ClassState([], d.value, d.registered, full);
          var scan: Result<Scan> := if onlyFromDocblock then Ok(Going(start))
                      else ScanProperties(env, cls, cls.publicProperties, nullable, start, fuel);
          match scan
          case Err(e) => Err(e)
          case Ok(Stopped(regs)) => Ok(Out(StringSchema("date-time", nullable), regs))
          case Ok(Going(st)) => Ok(Out(ObjectSchema(Merge(st.properties, st.docProperties), None, nullable), st.registered))
  }

  // ---------------------------------------------------------------------
  // Running the registered closures

  /** The envelope a paginator job builds around its inner schema. */
  function Envelope(kind: PaginatorKind, inner: Schema): Schema
  {
    match kind
    case DataPaginator => Paginators.DataPaginatorSchema(inner, false)
    case LengthAwarePaginator => Paginators.LengthAwarePaginatorSchema(inner, false)
    case SimplePaginator => Paginators.PaginatorSchema(inner, false)
    case DataCursorPaginator => Paginators.DataCursorPaginatorSchema(inner, false)
    case CursorPaginator => Paginators.CursorPaginatorSchema(inner, false)
  }

  /** The property keys of each envelope. */
  function EnvelopeKeys(kind: PaginatorKind): seq<string>
  {
    match kind
    case DataPaginator => ["links", "data", "meta"]
    case LengthAwarePaginator => Paginators.LengthAwareKeys
    case SimplePaginator => Paginators.PaginatorKeys
    case DataCursorPaginator => ["data", "meta"]
    case CursorPaginator => Paginators.CursorKeys
  }

  /** Running one registered closure: its schema and what it registered in
      turn, or the exception it threw. */
  function RunResolver(env: Env, fuel: nat, job: Resolver): (r: Registry.Outcome<Resolver>)
    ensures job.FixedJob? ==> r == Registry.Resolved(job.schema, [])
    ensures job.ReturnTagJob? && job.envelope && ParseTagType(env, job.ctx, job.ret, job.nullable, fuel).Ok? ==>
      var s := ParseTagType(env, job.ctx, job.ret, job.nullable, fuel).value.value;
      (s.properties.NoProperties? <==> r.Failed?) &&
      (s.properties.NoProperties? ==> r.message == "Undefined property: " + NodeClass(s) + "::$properties")
  {
    match job
    case ClassJob(full, nullable) =>
      Resolve(ParseClass(env, full, nullable, false, fuel))
    case ReturnTagJob(ret, nullable, ctx, envelope) =>
      (match ParseTagType(env, ctx, ret, nullable, fuel)
       case Err(e) => Registry.Failed(e)
       case Ok(o) =>
         if !envelope then Registry.Resolved(o.value, o.registered)
         else if o.value.properties.NoProperties? then
           Registry.Failed(NoPropertiesMessage(o.value))
         else Registry.Resolved(JsonApiEnvelope(o.value.properties.entries), o.registered))
    case FixedJob(schema) => Registry.Resolved(schema, [])
    case PaginatorJob(kind, inner, ctx) =>
      (match ParseTagType(env, ctx, inner, false, fuel)
       case Err(e) => Registry.Failed(e)
       case Ok(o) => Registry.Resolved(Envelope(kind, o.value), o.registered))
  }

  /** A classifier result as a registry outcome. */
  function Resolve(r: Result<Out<Schema>>): Registry.Outcome<Resolver>
  {
    match r
    case Err(e) => Registry.Failed(e)
    case Ok(o) => Registry.Resolved(o.value, o.registered)
  }
}
