/** The decisions `type:generate` takes while it turns the routes of one
    route group into operations of an API description: which routes are
    ignored and which belong to the group, the operation id and tags, how
    the handler's parameters split into path parameters, query parameters
    and request bodies, which schemas the handler's return type stands for,
    and which responses are attached. The routes, the configuration and
    everything read through reflection and the docblock parser are inputs. */
module Command {
  import opened Wrappers
  import opened OrderedMaps
  import opened Schemas
  import opened Reflection
  import opened Definitions
  import opened Classifier
  import Text
  import UseImports
  import ClassNames
  import ClassParser
  import Paginators
  import Registry

  const FormRequest := "Illuminate\\Foundation\\Http\\FormRequest"
  const HttpRequest := "Illuminate\\Http\\Request"
  const JsonApiResourceCollection := "TiMacDonald\\JsonApi\\JsonApiResourceCollection"

  /** The messages PHP raises when a reflection class is needed but the
      handler is a closure, which has none: `parseTagType` takes it as its
      third argument, `getClassFullname` as its second. */
  const NoTagContext := "MartinPham\\TypeGenerator\\Helpers\\DocBlockHelper::parseTagType(): " +
                        "Argument #3 ($classReflection) must be of type ReflectionClass, null given"
  const NoFullnameContext := "MartinPham\\TypeGenerator\\Helpers\\ClassHelper::getClassFullname(): " +
                             "Argument #2 ($inClassReflection) must be of type ReflectionClass, null given"

  // ---------------------------------------------------------------------
  // Inputs

  /** `@param type $variable description` */
  datatype ParamTag = ParamTag(variable: string, typ: TypeDesc, description: string)

  /** `@throws type description` */
  datatype ThrowsTag = ThrowsTag(typ: TypeDesc, description: string)

  /** What the handler's doc comment says: its summary and description,
      the types of its `@return` tags, its `@param` tags, the descriptions
      of its `@id` and `@tag` tags, and its `@throws` tags. */
  datatype MethodDoc = MethodDoc(
    summary: string,
    description: string,
    returnTags: seq<TypeDesc>,
    params: seq<ParamTag>,
    ids: seq<string>,
    tags: seq<string>,
    throws: seq<ThrowsTag>)

  /** The declared type of a parameter: a plain named type, or anything
      else (no declared type, a union or an intersection). */
  datatype DeclaredType = Named(name: string, allowsNull: bool) | Unnamed

  datatype SignatureParam = SignatureParam(name: string, typ: DeclaredType)

  /** One member of the declared return type; `text` is how the type
      prints, which is what the list of ignored return types is compared
      with. A handler without a declared return type has none. */
  datatype ReturnType = ReturnType(name: string, allowsNull: bool, text: string)

  /** The handler as reflection reports it. */
  datatype HandlerMethod = HandlerMethod(
    name: string,
    returnTypes: seq<ReturnType>,
    doc: Option<MethodDoc>,
    params: seq<SignatureParam>)

  /** The route's `uses`: a `Controller@method` string with the controller
      class and the descriptions of its `@id` and `@tag` tags, a closure,
      or anything else. */
  datatype Handler =
    | ControllerAction(uses: string, cls: ClassInfo, classIds: seq<string>, classTags: seq<string>, action: HandlerMethod)
    | ClosureAction(action: HandlerMethod)
    | OtherAction

  /** A route: its URI (without the leading `/`), its prefix, its
      `controller` action entry, its name (the `as` action entry), its
      `prefix` and `middleware` action entries (absent when unset), its HTTP
      methods and its handler. */
  datatype Route = Route(
    uri: string,
    prefix: Option<string>,
    controller: Option<string>,
    name: Option<string>,
    actionPrefix: Option<string>,
    methods: seq<string>,
    middleware: Option<seq<string>>,
    handler: Handler)

  /** The settings the command reads. */
  datatype Config = Config(ignoredRouteNames: seq<string>, ignoredMethods: seq<string>, ignoredRouteReturns: seq<string>)

  /** The running process as the command sees it: reflection and the class
      oracles, the configuration, the string keys of the array returned by
      the `rules()` method of each form request class, and the recursion
      budget of the classifiers. */
  datatype Context = Context(env: Env, config: Config, rules: string -> seq<string>, fuel: nat)

  function OrText(s: Option<string>): string
  {
    if s.Some? then s.value else ""
  }

  /** `getName()-getActionMethod()`: the route's name, empty when it has
      none, a dash, and the part after the last `@` of its `controller`
      action entry, or `Closure` without one. */
  function RouteLabel(route: Route): (r: string)
    ensures route.controller.None? ==> r == OrText(route.name) + "-Closure"
    ensures route.controller.Some? && '@' !in route.controller.value ==> r == OrText(route.name) + "-" + route.controller.value
    ensures OrText(route.name) + "-" <= r && '@' !in r[|OrText(route.name)| + 1..]
  {
    var parts := Text.Split(if route.controller.Some? then route.controller.value else "Closure", '@');
    OrText(route.name) + "-" + parts[|parts| - 1]
  }

  // ---------------------------------------------------------------------
  // strStartsWith

  /** `strStartsWith($haystack, $needles)`: the needles are tried in order
      and the first non-empty one that is a prefix of the haystack answers
      true. */
  method StrStartsWith(haystack: string, needles: seq<string>) returns (r: bool)
    ensures r == Text.StartsWithAny(haystack, needles)
  {
    var i := 0;
    while i < |needles|
      invariant 0 <= i <= |needles|
      invariant forall j | 0 <= j < i :: !(needles[j] != [] && needles[j] <= haystack)
    {
      if needles[i] != [] && needles[i] <= haystack {
        return true;
      }
      i := i + 1;
    }
    return false;
  }

  // ---------------------------------------------------------------------
  // Route selection

  /** The routes whose name does not start with an ignored prefix, in order. */
  function Kept(routes: seq<Route>, ignored: seq<string>): seq<Route>
  {
    if routes == [] then []
    else
      var last := routes[|routes| - 1];
      Kept(routes[..|routes| - 1], ignored) +
        (if Text.StartsWithAny(OrText(last.name), ignored) then [] else [last])
  }

  /** The filter applied to all routes before they are grouped. */
  method FilterRoutes(routes: seq<Route>, ignored: seq<string>) returns (kept: seq<Route>)
    ensures kept == Kept(routes, ignored)
  {
    kept := [];
    var i := 0;
    while i < |routes|
      invariant 0 <= i <= |routes|
      invariant kept == Kept(routes[..i], ignored)
    {
      assert routes[..i + 1][..i] == routes[..i];
      var skip := StrStartsWith(OrText(routes[i].name), ignored);
      if !skip {
        kept := kept + [routes[i]];
      }
      i := i + 1;
    }
    assert routes[..i] == routes;
  }

  /** A route belongs to a `uri:P` group when its prefix starts with `P`,
      and to a `controller:P` group when its controller entry does; a group
      of any other kind holds no route. */
  predicate InGroup(kind: string, prefix: string, r: Route)
  {
    (kind == "uri" && prefix <= OrText(r.prefix)) ||
    (kind == "controller" && prefix <= OrText(r.controller))
  }

  function Matching(kind: string, prefix: string, routes: seq<Route>): seq<Route>
  {
    if routes == [] then []
    else
      var last := routes[|routes| - 1];
      Matching(kind, prefix, routes[..|routes| - 1]) + (if InGroup(kind, prefix, last) then [last] else [])
  }

  /** The routes of the group whose key is `kind:prefix`. The key is split
      once per route, so a key without `:` fails only when there is a route
      to place. */
  function GroupRoutes(key: string, routes: seq<Route>): Result<seq<Route>>
  {
    var parts := Text.Split(key, ':');
    if routes == [] then Ok([])
    else if |parts| < 2 then Err("Undefined array key 1")
    else Ok(Matching(parts[0], parts[1], routes))
  }

  /** The loop that fills one group's route list. */
  method CollectGroup(key: string, routes: seq<Route>) returns (r: Result<seq<Route>>)
    ensures r == GroupRoutes(key, routes)
  {
    var collected := [];
    var i := 0;
    while i < |routes|
      invariant 0 <= i <= |routes|
      invariant routes != [] ==> |Text.Split(key, ':')| >= 2 || i == 0
      invariant |Text.Split(key, ':')| >= 2 ==> collected == Matching(Text.Split(key, ':')[0], Text.Split(key, ':')[1], routes[..i])
    {
      var parts := Text.Split(key, ':');
      if |parts| < 2 {
        return Err("Undefined array key 1");
      }
      assert routes[..i + 1][..i] == routes[..i];
      if InGroup(parts[0], parts[1], routes[i]) {
        collected := collected + [routes[i]];
      }
      i := i + 1;
    }
    assert routes[..i] == routes;
    if routes == [] {
      return Ok([]);
    }
    return Ok(collected);
  }

  // ---------------------------------------------------------------------
  // Operation id and tags

  /** The operation id the route gives: its name when it has one; for a
      controller without a name, the route's `prefix` entry, a dot and the
      method part of `Controller@method`; for a closure, the URI. A handler
      that is neither fails, and so does reading a missing `prefix` entry or
      a missing method part. */
  function RouteOperationId(route: Route): (r: Result<string>)
    ensures r.Err? <==> (route.handler.OtherAction? ||
                         (route.handler.ControllerAction? && route.name.None? &&
                          (route.actionPrefix.None? || '@' !in route.handler.uses)))
    ensures route.handler.ControllerAction? && route.name.None? && route.actionPrefix.None? ==>
      r == Err("Undefined array key \"prefix\"")
    ensures r.Ok? && route.name.Some? ==> r.value == route.name.value
    ensures r.Ok? && route.name.None? && route.handler.ClosureAction? ==> r.value == route.uri
  {
    var initial := if route.name.Some? then route.name.value else route.uri;
    match route.handler
    case OtherAction => Err("Unknown uses for route " + initial)
    case ClosureAction(_) => Ok(initial)
    case ControllerAction(uses, _, _, _, _) =>
      if route.name.Some? then Ok(initial)
      else
        var parts := Text.Split(uses, '@');
        if route.actionPrefix.None? then Err("Undefined array key \"prefix\"")
        else if |parts| < 2 then Err("Undefined array key 1")
        else Ok(route.actionPrefix.value + "." + parts[1])
  }

  /** The first `@id` of the method replaces the id, qualified by the first
      `@id` of the controller class when there is one. */
  function DocOperationId(id: string, classIds: seq<string>, ids: seq<string>): string
  {
    if |ids| == 0 then id
    else if |classIds| > 0 then classIds[0] + "." + ids[0]
    else ids[0]
  }

  /** The class tags followed by the method tags; set only when there are some. */
  function OperationTags(classTags: seq<string>, tags: seq<string>): Option<seq<string>>
  {
    if |classTags + tags| > 0 then Some(classTags + tags) else None
  }

  // ---------------------------------------------------------------------
  // Doc comment

  /** The doc comment's parts, empty when there is none. */
  function DocOf(m: HandlerMethod): MethodDoc
  {
    if m.doc.Some? then m.doc.value else MethodDoc("", "", [], [], [], [], [])
  }

  /** The class the handler is declared in; closures have none. */
  function ClassOf(h: Handler): Option<ClassInfo>
  {
    if h.ControllerAction? then Some(h.cls) else None
  }

  /** The schemas of the `@return` tags, each classified as not nullable
      in the handler's class. */
  function DocReturnSchemas(env: Env, ctx: Option<ClassInfo>, tags: seq<TypeDesc>, fuel: nat): (r: Result<Out<seq<Schema>>>)
    ensures r.Ok? ==> |r.value.value| == |tags|
    ensures tags != [] && ctx.None? ==> r == Err(NoTagContext)
  {
    if tags == [] then Ok(Out([], []))
    else if ctx.None? then Err(NoTagContext)
    else
      match ParseTagType(env, ctx.value, tags[0], false, fuel)
      case Err(e) => Err(e)
      case Ok(first) =>
        match DocReturnSchemas(env, ctx, tags[1..], fuel)
        case Err(e) => Err(e)
        case Ok(rest) => Ok(Out([first.value] + rest.value, first.registered + rest.registered))
  }

  /** The `@param` tags by variable name; a later tag for the same variable wins. */
  function ParamTagMap(tags: seq<ParamTag>): seq<(string, ParamTag)>
  {
    if tags == [] then []
    else Put(ParamTagMap(tags[..|tags| - 1]), tags[|tags| - 1].variable, tags[|tags| - 1])
  }

  // ---------------------------------------------------------------------
  // Parameters

  /** Path parameters by name, the request schemas found so far, whether
      the request body is nullable, and the registrations made. */
  datatype ParamState = ParamState(
    path: seq<(string, Parameter)>,
    bodies: seq<Schema>,
    bodyNullable: bool,
    registered: seq<(string, Resolver)>)

  /** A required string path parameter, described by its `@param` tag. */
  function PathParameter(name: string, tag: Option<ParamTag>): Parameter
  {
    Parameter(name, "path", true, TypedSchema("string", false), if tag.Some? then tag.value.description else "")
  }

  /** Every key of a form request's `rules()` array as a string property. */
  function RuleProperties(keys: seq<string>): seq<(string, Schema)>
  {
    if keys == [] then []
    else Put(RuleProperties(keys[..|keys| - 1]), keys[|keys| - 1], TypedSchema("string", false))
  }

  /** One parameter of the handler: a form request becomes a request
      schema read from its class docblock, or from its `rules()` keys when
      the docblock lists none, and sets the body's nullability; a plain
      request whose `@param` type is a generic collection of an array shape
      becomes the request schema of that shape; another plain request adds
      nothing; every other parameter is a path parameter. */
  function ParamStep(cx: Context, ctx: Option<ClassInfo>, tags: seq<(string, ParamTag)>,
                     p: SignatureParam, st: ParamState): (r: Result<ParamState>)
    ensures r.Ok? ==>
      (st.bodies <= r.value.bodies && st.registered <= r.value.registered &&
       (r.value.path == st.path || r.value.path == Put(st.path, p.name, PathParameter(p.name, Get(tags, p.name)))))
  {
    var tag := Get(tags, p.name);
    match p.typ
    case Unnamed =>
      Ok(st.(path := Put(st.path, p.name, PathParameter(p.name, tag))))
    case Named(n, allowsNull) =>
      if cx.env.isKindOf(n, FormRequest) then
        match ClassParser.ParseClass(cx.env, n, allowsNull, true, cx.fuel)
        case Err(e) => Err(e)
        case Ok(o) =>
          if o.value.properties.NoProperties? then
            Err(NoPropertiesMessage(o.value))
          else
            var schema :=
              if |o.value.properties.entries| == 0 then o.value.(properties := Properties(RuleProperties(cx.rules(n))))
              else o.value;
            Ok(st.(bodies := st.bodies + [schema], bodyNullable := allowsNull, registered := st.registered + o.registered))
      else if n == HttpRequest then
        if tag.Some? && tag.value.typ.CollectionT? && tag.value.typ.value.ArrayShapeT? then
          if ctx.None? then Err(NoTagContext)
          else
            match ParseTagType(cx.env, ctx.value, tag.value.typ.value, st.bodyNullable, cx.fuel)
            case Err(e) => Err(e)
            case Ok(o) => Ok(st.(bodies := st.bodies + [o.value], registered := st.registered + o.registered))
        else Ok(st)
      else
        Ok(st.(path := Put(st.path, p.name, PathParameter(p.name, tag))))
  }

  /** The parameters in declaration order. */
  function ScanParams(cx: Context, ctx: Option<ClassInfo>, tags: seq<(string, ParamTag)>,
                      ps: seq<SignatureParam>, st: ParamState): Result<ParamState>
  {
    if ps == [] then Ok(st)
    else
      match ParamStep(cx, ctx, tags, ps[0], st)
      case Err(e) => Err(e)
      case Ok(st1) => ScanParams(cx, ctx, tags, ps[1..], st1)
  }

  /** The loop over the handler's signature parameters. */
  method SplitParameters(cx: Context, ctx: Option<ClassInfo>, tags: seq<(string, ParamTag)>, ps: seq<SignatureParam>)
    returns (r: Result<ParamState>)
    ensures r == ScanParams(cx, ctx, tags, ps, ParamState([], [], false, []))
  {
    var st := ParamState([], [], false, []);
    var i := 0;
    while i < |ps|
      invariant 0 <= i <= |ps|
      invariant ScanParams(cx, ctx, tags, ps[i..], st) == ScanParams(cx, ctx, tags, ps, ParamState([], [], false, []))
    {
      assert ps[i..][1..] == ps[i + 1..];
      var step := ParamStep(cx, ctx, tags, ps[i], st);
      if step.Err? {
        return Err(step.message);
      }
      st := step.value;
      i := i + 1;
    }
    return Ok(st);
  }

  /** The properties of all request schemas merged in order: a later
      schema's property replaces an earlier one of the same name in place. */
  function RequestProperties(bodies: seq<Schema>): Result<seq<(string, Schema)>>
  {
    if bodies == [] then Ok([])
    else
      match RequestProperties(bodies[..|bodies| - 1])
      case Err(e) => Err(e)
      case Ok(acc) =>
        var last := bodies[|bodies| - 1];
        if last.properties.NoProperties? then Err(NoPropertiesMessage(last))
        else Ok(Merge(acc, last.properties.entries))
  }

  const BodyVerbs: seq<string> := ["post", "put", "patch"]

  /** For post, put and patch with some request property: a JSON body
      unless a property is a binary string, then always a form body, both
      the object of the merged properties. Otherwise no body. */
  function RequestBodies(verb: string, props: seq<(string, Schema)>, nullable: bool): (r: seq<(string, Schema)>)
    ensures r != [] <==> verb in BodyVerbs && |props| > 0
    ensures 0 < |r| ==> r[|r| - 1].0 == "application/x-www-form-urlencoded"
    ensures forall i | 0 <= i < |r| :: r[i].1 == ObjectSchema(props, None, nullable)
  {
    if verb in BodyVerbs && |props| > 0 then
      var body := ObjectSchema(props, None, nullable);
      (if AnyContainsBinaryString(props) then [] else [("application/json", body)]) +
        [("application/x-www-form-urlencoded", body)]
    else []
  }

  function QueryParameter(name: string, schema: Schema): Parameter
  {
    Parameter(name, "query", true, schema, "")
  }

  /** For the other methods each request property becomes a required query
      parameter, written over a path parameter of the same name. */
  function WithQueryParameters(path: seq<(string, Parameter)>, props: seq<(string, Schema)>): (r: seq<(string, Parameter)>)
    ensures Keys(path) <= Keys(r)
    ensures forall i | 0 <= i < |props| :: props[i].0 in Keys(r)
  {
    if props == [] then path
    else
      var last := props[|props| - 1];
      var before := WithQueryParameters(path, props[..|props| - 1]);
      KeysPut(before, last.0, QueryParameter(last.0, last.1));
      assert forall i | 0 <= i < |props| - 1 :: props[..|props| - 1][i] == props[i];
      Put(before, last.0, QueryParameter(last.0, last.1))
  }

  function Parameters(verb: string, path: seq<(string, Parameter)>, props: seq<(string, Schema)>): (r: seq<(string, Parameter)>)
    ensures verb in BodyVerbs ==> r == path
    ensures Keys(path) <= Keys(r)
    ensures verb !in BodyVerbs ==> forall i | 0 <= i < |props| :: props[i].0 in Keys(r)
  {
    if verb in BodyVerbs then path else WithQueryParameters(path, props)
  }

  // ---------------------------------------------------------------------
  // Return type

  /** The schemas collected from the return type, whether the response is
      nullable, and the registrations made. */
  datatype Returns = Returns(schemas: seq<Schema>, nullable: bool, registered: seq<(string, Resolver)>)

  /** `TYPE_MAP`: the built-in return types and the fields of their schema. */
  function TypeMapFields(name: string): (r: Option<seq<(string, Value)>>)
    ensures r.Some? ==> forall i | 0 <= i < |r.value| :: IsFieldEntry(r.value[i].0, r.value[i].1)
  {
    if name == "int" then Some([("type", Str("integer")), ("format", Str("int32"))])
    else if name == "float" then Some([("type", Str("number")), ("format", Str("float"))])
    else if name == "string" then Some([("type", Str("string"))])
    else if name == "bool" then Some([("type", Str("boolean"))])
    else if name == "object" then Some([("type", Str("object"))])
    else if name == "array" || name == "iterable" then Some([("type", Str("array")), ("items", Arr([("type", "object")]))])
    else if name == "mixed" then Some([("type", Str("object"))])
    else None
  }

  predicate IsPaginator(env: Env, name: string)
  {
    env.isKindOf(name, PaginatorContract) ||
    env.isKindOf(name, LengthAwarePaginatorContract) ||
    env.isKindOf(name, CursorPaginatorContract)
  }

  predicate IsResource(env: Env, name: string)
  {
    env.isKindOf(name, JsonApiResource) ||
    env.isKindOf(name, JsonApiResourceCollection) ||
    env.isKindOf(name, ResourceCollection) ||
    env.isKindOf(name, JsonResource)
  }

  /** The registered name and schema of a paginator return type without a
      `@return` tag, as written: the plain paginator contract is tested
      first. */
  function PaginatorChoiceAsWritten(env: Env, name: string): (string, Schema)
  {
    var empty := ObjectSchema([], None, false);
    if env.isKindOf(name, PaginatorContract) then ("Paginator", Paginators.PaginatorSchema(empty, false))
    else if env.isKindOf(name, LengthAwarePaginatorContract) then ("LengthAwarePaginator", Paginators.LengthAwarePaginatorSchema(empty, false))
    else ("CursorPaginator", Paginators.CursorPaginatorSchema(empty, false))
  }

  /** The same choice with the more specific length-aware contract tested
      before the plain one it extends, as evidently intended; `ReturnStep`
      makes the choice as written. */
  function PaginatorChoice(env: Env, name: string): (string, Schema)
  {
    var empty := ObjectSchema([], None, false);
    if env.isKindOf(name, LengthAwarePaginatorContract) then ("LengthAwarePaginator", Paginators.LengthAwarePaginatorSchema(empty, false))
    else if env.isKindOf(name, PaginatorContract) then ("Paginator", Paginators.PaginatorSchema(empty, false))
    else ("CursorPaginator", Paginators.CursorPaginatorSchema(empty, false))
  }

  /** `{data: schema}` */
  function DataObject(s: Schema): Schema
  {
    ObjectSchema([("data", s)], None, false)
  }

  function WrapData(docs: seq<Schema>): (r: seq<Schema>)
    ensures |r| == |docs| && forall i | 0 <= i < |docs| :: r[i] == DataObject(docs[i])
  {
    if docs == [] then [] else [DataObject(docs[0])] + WrapData(docs[1..])
  }

  /** `getClassFullname` in the handler's class; closures have none. */
  function Fullname(env: Env, name: string, ctx: Option<ClassInfo>): Result<string>
  {
    if ctx.None? then Err(NoFullnameContext) else ClassNames.GetClassFullname(env, name, ctx.value)
  }

  /** One member of the declared return type, tried against the kinds in
      the source's order: an ignored type; a list type with `@return`
      schemas; a paginator; a resource; any other existing class; a
      built-in type; `void`/`never`; anything else fails. */
  function ReturnStep(cx: Context, ctx: Option<ClassInfo>, docs: seq<Schema>, handler: string,
                      t: ReturnType, acc: Returns): (r: Result<Returns>)
    ensures r.Ok? ==> acc.registered <= r.value.registered && (acc.nullable ==> r.value.nullable)
  {
    var env := cx.env;
    var flagged := acc.nullable || t.allowsNull;
    if t.text in cx.config.ignoredRouteReturns then Ok(acc)
    else if (t.name == "array" || t.name == "iterable" || env.isKindOf(t.name, SupportCollection)) && |docs| > 0 then
      Ok(acc.(schemas := docs))
    else if IsPaginator(env, t.name) then
      if |docs| > 0 then Ok(acc.(schemas := docs))
      else
        var choice := PaginatorChoiceAsWritten(env, t.name);
        Ok(Returns(acc.schemas + [RefSchema(choice.0, t.allowsNull)], flagged,
                   acc.registered + [(choice.0, FixedJob(choice.1))]))
    else if IsResource(env, t.name) then ResourceReturn(cx, ctx, docs, t, acc)
    else if env.classes(t.name).Some? then ExistingClassReturn(cx, ctx, docs, t, acc)
    else BuiltinReturn(t, handler, acc)
  }

  /** A resource class as the return type: a bare `JsonResource` or
      `JsonApiResource` is `{data: {}}`, a bare collection `{data: []}`,
      both replaced by `{data: T}` for `@return` schemas; any other
      resource is `{data: T}` for its parsed class. */
  function ResourceReturn(cx: Context, ctx: Option<ClassInfo>, docs: seq<Schema>, t: ReturnType, acc: Returns): (r: Result<Returns>)
    ensures r.Ok? ==> acc.registered <= r.value.registered && (acc.nullable ==> r.value.nullable)
  {
    var env := cx.env;
    var flagged := acc.nullable || t.allowsNull;
    var name := UseImports.LastSegment(t.name);
    match Fullname(env, name, ctx)
    case Err(e) => Err(e)
    case Ok(full) =>
      if full == JsonApiResource || full == JsonResource then
        Ok(Returns(if |docs| > 0 then WrapData(docs) else acc.schemas + [DataObject(ObjectSchema([], None, false))],
                   flagged, acc.registered))
      else if full == JsonApiResourceCollection || full == ResourceCollection then
        Ok(Returns(if |docs| > 0 then WrapData(docs)
                   else acc.schemas + [DataObject(ArraySchema(ObjectSchema([], None, false), false))],
                   flagged, acc.registered))
      else
        match env.classes(full)
        case None => Err("Class \"" + full + "\" does not exist")
        case Some(rc) =>
          match ParseTagType(env, rc, ObjectT(Some(name)), t.allowsNull, cx.fuel)
          case Err(e) => Err(e)
          case Ok(o) => Ok(Returns(acc.schemas + [DataObject(o.value)], flagged, acc.registered + o.registered))
  }

  /** Any other existing class: a resource collection or JSON resource
      found by its full name wraps the `@return` schemas, anything else is a
      reference to the class, registered to be parsed. */
  function ExistingClassReturn(cx: Context, ctx: Option<ClassInfo>, docs: seq<Schema>, t: ReturnType, acc: Returns): (r: Result<Returns>)
    ensures r.Ok? ==> acc.registered <= r.value.registered && (acc.nullable ==> r.value.nullable)
  {
    var flagged := acc.nullable || t.allowsNull;
    var className := UseImports.LastSegment(t.name);
    match Fullname(cx.env, className, ctx)
    case Err(e) => Err(e)
    case Ok(full) =>
      if full == ResourceCollection || full == JsonResource then Ok(Returns(WrapData(docs), flagged, acc.registered))
      else Ok(Returns(acc.schemas + [RefSchema(className, t.allowsNull)], flagged,
                      acc.registered + [(className, ClassJob(t.name, false))]))
  }

  /** A built-in type adds its `TYPE_MAP` schema; `void` and `never` add
      nothing; any other name stops the run, naming the route by `handler`
      (see `RouteLabel`). */
  function BuiltinReturn(t: ReturnType, handler: string, acc: Returns): (r: Result<Returns>)
    ensures r.Ok? ==> r.value.registered == acc.registered && r.value.nullable == acc.nullable
  {
    match TypeMapFields(t.name)
    case Some(fields) => Ok(acc.(schemas := acc.schemas + [CustomSchema(fields)]))
    case None =>
      if t.name == "void" || t.name == "never" then Ok(acc)
      else Err("Cannot understand route method return type " + handler)
  }

  /** The members of the declared return type in order. */
  function ScanReturns(cx: Context, ctx: Option<ClassInfo>, docs: seq<Schema>, handler: string,
                       ts: seq<ReturnType>, acc: Returns): Result<Returns>
  {
    if ts == [] then Ok(acc)
    else
      match ReturnStep(cx, ctx, docs, handler, ts[0], acc)
      case Err(e) => Err(e)
      case Ok(acc1) => ScanReturns(cx, ctx, docs, handler, ts[1..], acc1)
  }

  /** The loop over the members of the declared return type. */
  method DispatchReturns(cx: Context, ctx: Option<ClassInfo>, docs: seq<Schema>, handler: string, ts: seq<ReturnType>)
    returns (r: Result<Returns>)
    ensures r == ScanReturns(cx, ctx, docs, handler, ts, Returns([], false, []))
  {
    var acc := Returns([], false, []);
    var i := 0;
    while i < |ts|
      invariant 0 <= i <= |ts|
      invariant ScanReturns(cx, ctx, docs, handler, ts[i..], acc) == ScanReturns(cx, ctx, docs, handler, ts, Returns([], false, []))
    {
      assert ts[i..][1..] == ts[i + 1..];
      var step := ReturnStep(cx, ctx, docs, handler, ts[i], acc);
      if step.Err? {
        return Err(step.message);
      }
      acc := step.value;
      i := i + 1;
    }
    return Ok(acc);
  }

  // ---------------------------------------------------------------------
  // Responses

  /** `{message: string}`, the schema of the error responses. */
  function MessageSchema(): Schema
  {
    PutPropertyItem(ObjectSchema([], None, false), "message", TypedSchema("string", false))
  }

  /** The example of one `@throws` tag: named by the tag's description, the
      message is the full name of the class `getFqsen()->getName()` names.
      An object type without class name has a null fqsen; any other type
      that names no class has no `getFqsen`. */
  function ThrowsExample(env: Env, ctx: Option<ClassInfo>, t: ThrowsTag): (r: Result<(string, seq<(string, string)>)>)
    ensures r.Ok? <==> NamesClass(t.typ) && Fullname(env, ClassNameOf(t.typ), ctx).Ok?
    ensures r.Ok? ==> r.value == (t.description, [("message", Fullname(env, ClassNameOf(t.typ), ctx).value)])
    ensures t.typ == ObjectT(None) ==> r == Err("Call to a member function getName() on null")
    ensures !NamesClass(t.typ) && !t.typ.ObjectT? ==> r == Err("Call to undefined method " + TypeClass(t.typ) + "::getFqsen()")
  {
    if NamesClass(t.typ) then
      match Fullname(env, ClassNameOf(t.typ), ctx)
      case Err(e) => Err(e)
      case Ok(full) => Ok((t.description, [("message", full)]))
    else if t.typ.ObjectT? then Err("Call to a member function getName() on null")
    else Err("Call to undefined method " + TypeClass(t.typ) + "::getFqsen()")
  }

  /** The examples of all `@throws` tags, in order: one per tag, each that
      tag's example; the first tag that fails ends the list with its
      exception. */
  function ThrowsExamples(env: Env, ctx: Option<ClassInfo>, ts: seq<ThrowsTag>): (r: Result<seq<(string, seq<(string, string)>)>>)
    ensures r.Ok? <==> forall i | 0 <= i < |ts| :: ThrowsExample(env, ctx, ts[i]).Ok?
    ensures r.Ok? ==> |r.value| == |ts| && forall i | 0 <= i < |ts| :: r.value[i] == ThrowsExample(env, ctx, ts[i]).value
    ensures r.Err? ==> exists i | 0 <= i < |ts| ::
      ThrowsExample(env, ctx, ts[i]).Err? && r.message == ThrowsExample(env, ctx, ts[i]).message
  {
    if ts == [] then Ok([])
    else
      match ThrowsExample(env, ctx, ts[0])
      case Err(e) => Err(e)
      case Ok(x) =>
        var rest := ThrowsExamples(env, ctx, ts[1..]);
        assert forall i | 1 <= i < |ts| :: ts[i] == ts[1..][i - 1];
        if rest.Err? then
          var i :| 0 <= i < |ts[1..]| && ThrowsExample(env, ctx, ts[1..][i]).Err? &&
            rest.message == ThrowsExample(env, ctx, ts[1..][i]).message;
          assert ts[i + 1] == ts[1..][i];
          Err(rest.message)
        else
          Ok([x] + rest.value)
  }

  // ---------------------------------------------------------------------
  // One operation

  /** Everything decided for one route and method before the operation
      object is built. */
  datatype Plan = Plan(
    operationId: string,
    summary: string,
    description: string,
    tags: Option<seq<string>>,
    parameters: seq<Parameter>,
    requestBodies: seq<(string, Schema)>,
    outcome: Returns,
    handlerName: string,
    throwsExamples: seq<(string, seq<(string, string)>)>,
    hasAuth: bool,
    registered: seq<(string, Resolver)>)

  /** The handler of a route that has one. */
  function MethodOf(h: Handler): HandlerMethod
    requires !h.OtherAction?
  {
    h.action
  }

  /** The decisions for route `route` and lower-cased method `verb`, in the
      source's order; the first exception ends them. */
  function PlanOperation(cx: Context, route: Route, verb: string): (r: Result<Plan>)
    ensures route.middleware.None? ==> r == Err("Undefined array key \"middleware\"")
    ensures RouteOperationId(route).Err? ==> r.Err?
    ensures r.Ok? ==>
      route.middleware.Some? && r.value.hasAuth == ("auth" in route.middleware.value) &&
      r.value.handlerName == MethodOf(route.handler).name
    ensures r.Ok? && verb !in BodyVerbs ==> r.value.requestBodies == []
  {
    if route.middleware.None? then Err("Undefined array key \"middleware\"")
    else match RouteOperationId(route)
    case Err(e) => Err(e)
    case Ok(initial) =>
      var m := MethodOf(route.handler);
      var ctx := ClassOf(route.handler);
      var doc := DocOf(m);
      var classIds := if route.handler.ControllerAction? then route.handler.classIds else [];
      var classTags := if route.handler.ControllerAction? then route.handler.classTags else [];
      match DocReturnSchemas(cx.env, ctx, doc.returnTags, cx.fuel)
      case Err(e) => Err(e)
      case Ok(docs) =>
        match ScanParams(cx, ctx, ParamTagMap(doc.params), m.params, ParamState([], [], false, []))
        case Err(e) => Err(e)
        case Ok(ps) =>
          match RequestProperties(ps.bodies)
          case Err(e) => Err(e)
          case Ok(props) =>
            match ScanReturns(cx, ctx, docs.value, RouteLabel(route), m.returnTypes, Returns([], false, []))
            case Err(e) => Err(e)
            case Ok(rs) =>
              match ThrowsExamples(cx.env, ctx, doc.throws)
              case Err(e) => Err(e)
              case Ok(examples) =>
                Ok(Plan(
                  DocOperationId(initial, classIds, doc.ids),
                  doc.summary,
                  doc.description,
                  OperationTags(classTags, doc.tags),
                  Values(Parameters(verb, ps.path, props)),
                  RequestBodies(verb, props, ps.bodyNullable),
                  rs,
                  m.name,
                  examples,
                  "auth" in route.middleware.value,
                  docs.registered + ps.registered + rs.registered))
  }

  /** The 200 response: described by the handler's name, with the merged
      return schemas as JSON content when there are any. */
  method SuccessResponse(p: Plan) returns (response: Response)
    ensures fresh(response)
    ensures response.description == p.handlerName
    ensures response.content ==
      if p.outcome.schemas == [] then []
      else [("application/json", MediaType(MergeSchemas(p.outcome.schemas, p.outcome.nullable), None))]
  {
    response := new Response(p.handlerName);
    if p.outcome.schemas != [] {
      var item := new ContentItem("application/json", MergeSchemas(p.outcome.schemas, p.outcome.nullable));
      response := response.PutContent(item);
    }
  }

  /** The 500 response: `{message}` content with one example per `@throws`
      tag, later tags with the same description replacing earlier ones. */
  method ErrorResponse(examples: seq<(string, seq<(string, string)>)>) returns (response: Response)
    ensures fresh(response)
    ensures response.description == "Exception"
    ensures response.content == [("application/json", MediaType(MessageSchema(),
      if |ExampleMap(examples)| > 0 then Some(ExampleMap(examples)) else None))]
  {
    var item := new ContentItem("application/json", MessageSchema());
    var i := 0;
    while i < |examples|
      invariant 0 <= i <= |examples|
      invariant fresh(item)
      invariant item.contentType == "application/json" && item.schema == MessageSchema()
      invariant item.examples == ExampleMap(examples[..i])
    {
      assert examples[..i + 1][..i] == examples[..i];
      item := item.PutExample(examples[i].0, examples[i].1);
      i := i + 1;
    }
    assert examples[..i] == examples;
    response := new Response("Exception");
    response := response.PutContent(item);
  }

  /** The examples as the content item stores them. */
  function ExampleMap(examples: seq<(string, seq<(string, string)>)>): seq<(string, Example)>
  {
    if examples == [] then []
    else
      var last := examples[|examples| - 1];
      Put(ExampleMap(examples[..|examples| - 1]), last.0, Example(last.1))
  }

  /** The example of the 401 response. */
  function UnauthenticatedExamples(): seq<(string, Example)>
  {
    [("Unauthenticated.", Example([("message", "Unauthenticated.")]))]
  }

  /** The 401 response. */
  method UnauthenticatedResponse() returns (response: Response)
    ensures fresh(response)
    ensures response.description == "Unauthenticated."
    ensures response.content == [("application/json", MediaType(MessageSchema(), Some(UnauthenticatedExamples())))]
  {
    var item := new ContentItem("application/json", MessageSchema());
    item := item.PutExample("Unauthenticated.", [("message", "Unauthenticated.")]);
    response := new Response("Unauthenticated.");
    response := response.PutContent(item);
  }

  /** The response codes a plan attaches, in order. */
  function ResponseCodes(p: Plan): seq<string>
  {
    ["200"] + (if |p.throwsExamples| > 0 then ["500"] else []) + (if p.hasAuth then ["401"] else [])
  }

  /** The content of the 200 response. */
  function SuccessContent(p: Plan): seq<(string, MediaType)>
  {
    if p.outcome.schemas == [] then []
    else [("application/json", MediaType(MergeSchemas(p.outcome.schemas, p.outcome.nullable), None))]
  }

  /** The content of the 500 response. */
  function ErrorContent(examples: seq<(string, seq<(string, string)>)>): seq<(string, MediaType)>
  {
    [("application/json", MediaType(MessageSchema(), if |ExampleMap(examples)| > 0 then Some(ExampleMap(examples)) else None))]
  }

  /** The content of the 401 response. */
  function UnauthenticatedContent(): seq<(string, MediaType)>
  {
    [("application/json", MediaType(MessageSchema(), Some(UnauthenticatedExamples())))]
  }

  /** Writes the request bodies into an operation that has none yet. */
  method AttachBodies(op: Operation, bodies: seq<(string, Schema)>)
    requires op.requestBody.None?
    modifies op
    ensures op.requestBody == (if bodies == [] then None else Some(BodyMap(bodies)))
    ensures op.operationId == old(op.operationId) && op.summary == old(op.summary) && op.description == old(op.description)
    ensures op.responses == old(op.responses) && op.parameters == old(op.parameters) && op.tags == old(op.tags)
  {
    var i := 0;
    while i < |bodies|
      invariant 0 <= i <= |bodies|
      invariant op.requestBody == (if i == 0 then None else Some(BodyMap(bodies[..i])))
      invariant op.operationId == old(op.operationId) && op.summary == old(op.summary) && op.description == old(op.description)
      invariant op.responses == old(op.responses) && op.parameters == old(op.parameters) && op.tags == old(op.tags)
    {
      assert bodies[..i + 1][..i] == bodies[..i];
      var _ := op.PutRequestBody(bodies[i].0, bodies[i].1);
      i := i + 1;
    }
    assert bodies[..i] == bodies;
  }

  /** Attaches the 200 response, the 500 response when the handler
      documents exceptions, and the 401 response when the route requires
      authentication, to an operation that has no responses yet. */
  method AttachResponses(op: Operation, p: Plan)
    requires op.responses.None?
    modifies op
    ensures op.responses.Some? && Keys(op.responses.value) == ResponseCodes(p)
    ensures var ok := Get(op.responses.value, "200");
      ok.Some? && fresh(ok.value) && ok.value.description == p.handlerName && ok.value.content == SuccessContent(p)
    ensures |p.throwsExamples| > 0 ==> var failed := Get(op.responses.value, "500");
      failed.Some? && failed.value.description == "Exception" && failed.value.content == ErrorContent(p.throwsExamples)
    ensures p.hasAuth ==> var denied := Get(op.responses.value, "401");
      denied.Some? && denied.value.description == "Unauthenticated." && denied.value.content == UnauthenticatedContent()
    ensures op.operationId == old(op.operationId) && op.summary == old(op.summary) && op.description == old(op.description)
    ensures op.requestBody == old(op.requestBody) && op.parameters == old(op.parameters) && op.tags == old(op.tags)
  {
    var ok := SuccessResponse(p);
    var _ := op.PutResponse("200", ok);
    ghost var codes: seq<string> := ["200"];
    assert Keys(op.responses.value) == codes;
    assert Get(op.responses.value, "200") == Some(ok);
    var failed: Response := ok;
    if |p.throwsExamples| > 0 {
      failed := ErrorResponse(p.throwsExamples);
      ghost var before := op.responses.value;
      var _ := op.PutResponse("500", failed);
      KeysPut(before, "500", failed);
      GetPut(before, "500", failed, "200");
      GetPut(before, "500", failed, "500");
      codes := codes + ["500"];
    }
    if p.hasAuth {
      var denied := UnauthenticatedResponse();
      ghost var before := op.responses.value;
      var _ := op.PutResponse("401", denied);
      KeysPut(before, "401", denied);
      GetPut(before, "401", denied, "200");
      GetPut(before, "401", denied, "500");
      GetPut(before, "401", denied, "401");
    }
  }

  /** Builds the operation object of a plan: id, summary, description,
      tags when there are some, the parameters, the request bodies, and the
      responses. */
  method BuildOperation(p: Plan) returns (op: Operation)
    ensures fresh(op)
    ensures op.operationId == p.operationId && op.summary == p.summary && op.description == p.description
    ensures op.tags == p.tags
    ensures op.parameters == Some(p.parameters)
    ensures op.requestBody == (if p.requestBodies == [] then None else Some(BodyMap(p.requestBodies)))
    ensures op.responses.Some? && Keys(op.responses.value) == ResponseCodes(p)
    ensures var ok := Get(op.responses.value, "200");
      ok.Some? && fresh(ok.value) && ok.value.description == p.handlerName && ok.value.content == SuccessContent(p)
  {
    op := new Operation(p.operationId);
    op.summary := p.summary;
    op.description := p.description;
    if p.tags.Some? {
      var _ := op.SetTags(p.tags.value);
    }
    AttachBodies(op, p.requestBodies);
    var _ := op.PutParameters(p.parameters);
    AttachResponses(op, p);
  }

  /** The request bodies by content type. */
  function BodyMap(bodies: seq<(string, Schema)>): seq<(string, Schema)>
  {
    if bodies == [] then []
    else Put(BodyMap(bodies[..|bodies| - 1]), bodies[|bodies| - 1].0, bodies[|bodies| - 1].1)
  }

  // ---------------------------------------------------------------------
  // One route group

  /** `strtolower` on ASCII letters. */
  function LowerCase(s: string): (r: string)
    ensures |r| == |s| && forall i | 0 <= i < |s| :: r[i] == UseImports.Lower(s[i])
  {
    seq(|s|, i requires 0 <= i < |s| => UseImports.Lower(s[i]))
  }

  /** A planned operation: its path, its method and its plan. */
  datatype Planned = Planned(path: string, verb: string, plan: Plan)

  /** The operations of one route, one per method that is not ignored,
      appended to `done`. */
  function RoutePlans(cx: Context, route: Route, verbs: seq<string>, done: seq<Planned>): Result<seq<Planned>>
  {
    if verbs == [] then Ok(done)
    else
      var verb := LowerCase(verbs[0]);
      if verb in cx.config.ignoredMethods then RoutePlans(cx, route, verbs[1..], done)
      else
        match PlanOperation(cx, route, verb)
        case Err(e) => Err(e)
        case Ok(p) => RoutePlans(cx, route, verbs[1..], done + [Planned("/" + route.uri, verb, p)])
  }

  /** The operations of a group's routes, in order, appended to `done`. */
  function GroupPlans(cx: Context, routes: seq<Route>, done: seq<Planned>): Result<seq<Planned>>
  {
    if routes == [] then Ok(done)
    else
      match RoutePlans(cx, routes[0], routes[0].methods, done)
      case Err(e) => Err(e)
      case Ok(more) => GroupPlans(cx, routes[1..], more)
  }

  /** Everything the planned operations registered, in order. */
  function PlansRegistered(ps: seq<Planned>): seq<(string, Resolver)>
  {
    if ps == [] then [] else PlansRegistered(ps[..|ps| - 1]) + ps[|ps| - 1].plan.registered
  }

  /** Every planned operation's path and method is present in `paths`. */
  predicate AllPresent(paths: seq<(string, seq<(string, Operation)>)>, ps: seq<Planned>)
  {
    forall j | 0 <= j < |ps| :: Get(MethodsOf(paths, ps[j].path), ps[j].verb).Some?
  }

  /** The success response of an operation, when it has one. */
  function SuccessObjects(op: Operation): set<Response>
    reads op
  {
    if op.responses.Some? && Get(op.responses.value, "200").Some? then {Get(op.responses.value, "200").value} else {}
  }

  /** `op` holds what `BuildOperation` writes for plan `p`: the id, summary,
      description and tags, the parameters, the request bodies by content
      type, the response codes, and the success response's description
      and content. */
  predicate Carries(op: Operation, p: Plan)
    reads op, SuccessObjects(op)
  {
    op.operationId == p.operationId && op.summary == p.summary && op.description == p.description &&
    op.tags == p.tags && op.parameters == Some(p.parameters) &&
    op.requestBody == (if p.requestBodies == [] then None else Some(BodyMap(p.requestBodies))) &&
    op.responses.Some? && Keys(op.responses.value) == ResponseCodes(p) &&
    Get(op.responses.value, "200").Some? &&
    Get(op.responses.value, "200").value.description == p.handlerName &&
    Get(op.responses.value, "200").value.content == SuccessContent(p)
  }

  /** The plan of the last planned operation with this path and method. */
  function LastPlan(ps: seq<Planned>, path: string, verb: string): (r: Option<Plan>)
    ensures r.Some? <==> exists j | 0 <= j < |ps| :: ps[j].path == path && ps[j].verb == verb
  {
    if ps == [] then None
    else if ps[|ps| - 1].path == path && ps[|ps| - 1].verb == verb then Some(ps[|ps| - 1].plan)
    else
      var r := LastPlan(ps[..|ps| - 1], path, verb);
      assert r.Some? <==> exists j | 0 <= j < |ps| :: ps[j].path == path && ps[j].verb == verb by {
        if r.Some? {
          var j :| 0 <= j < |ps| - 1 && ps[..|ps| - 1][j].path == path && ps[..|ps| - 1][j].verb == verb;
          assert ps[j] == ps[..|ps| - 1][j];
        }
        if exists j | 0 <= j < |ps| :: ps[j].path == path && ps[j].verb == verb {
          var j :| 0 <= j < |ps| && ps[j].path == path && ps[j].verb == verb;
          assert ps[..|ps| - 1][j] == ps[j];
        }
      }
      r
  }

  /** The operation `paths` holds under a path and method, when any. */
  function StoredOp(paths: seq<(string, seq<(string, Operation)>)>, path: string, verb: string): Option<Operation>
  {
    Get(MethodsOf(paths, path), verb)
  }

  /** Every planned path and method holds an operation carrying the last
      plan made for that path and method. */
  predicate Stored(paths: seq<(string, seq<(string, Operation)>)>, ps: seq<Planned>)
    reads set j | 0 <= j < |ps| && StoredOp(paths, ps[j].path, ps[j].verb).Some? :: StoredOp(paths, ps[j].path, ps[j].verb).value
    reads set j, o | 0 <= j < |ps| && StoredOp(paths, ps[j].path, ps[j].verb).Some? &&
                     o in SuccessObjects(StoredOp(paths, ps[j].path, ps[j].verb).value) :: o
  {
    forall j | 0 <= j < |ps| ::
      StoredOp(paths, ps[j].path, ps[j].verb).Some? && LastPlan(ps, ps[j].path, ps[j].verb).Some? &&
      Carries(StoredOp(paths, ps[j].path, ps[j].verb).value, LastPlan(ps, ps[j].path, ps[j].verb).value)
  }

  /** The last plan after one more planned operation: its own for its
      path and method, the earlier last plan for every other. */
  lemma LastPlanSnoc(ps: seq<Planned>, x: Planned, path: string, verb: string)
    ensures LastPlan(ps + [x], path, verb) ==
      (if x.path == path && x.verb == verb then Some(x.plan) else LastPlan(ps, path, verb))
  {
    assert (ps + [x])[..|ps|] == ps;
  }

  /** After `putPath`, the written path and method hold the new
      operation and every other pair holds what it held. */
  lemma StoredOpAfterPut(paths: seq<(string, seq<(string, Operation)>)>, path: string, verb: string, op: Operation,
                         p: string, v: string)
    ensures StoredOp(PutPathInto(paths, path, verb, op), p, v) ==
      (if p == path && v == verb then Some(op) else StoredOp(paths, p, v))
  {
    PutPathSpec(paths, path, verb, op, p, v);
    if p == path && v != verb {
      assert MethodsOf(paths, path) == (if Get(paths, path).Some? then Get(paths, path).value else []);
    }
  }

  /** The stored operations of the planned pairs, and their success
      responses, are objects that exist. */
  lemma StoredAllocated(paths: seq<(string, seq<(string, Operation)>)>, ps: seq<Planned>)
    ensures forall j | 0 <= j < |ps| && StoredOp(paths, ps[j].path, ps[j].verb).Some? ::
      allocated(StoredOp(paths, ps[j].path, ps[j].verb).value) &&
      allocated(SuccessObjects(StoredOp(paths, ps[j].path, ps[j].verb).value))
  {
    forall j | 0 <= j < |ps| && StoredOp(paths, ps[j].path, ps[j].verb).Some?
      ensures allocated(StoredOp(paths, ps[j].path, ps[j].verb).value) &&
        allocated(SuccessObjects(StoredOp(paths, ps[j].path, ps[j].verb).value))
    {
      var o := StoredOp(paths, ps[j].path, ps[j].verb).value;
      GetEntry(paths, ps[j].path);
      GetEntry(MethodsOf(paths, ps[j].path), ps[j].verb);
      if o.responses.Some? && Get(o.responses.value, "200").Some? {
        GetEntry(o.responses.value, "200");
      }
    }
  }

  /** Writes a built operation under its planned path and method: that
      pair holds it, every other pair holds what it held, and every planned
      pair, this one last, holds an operation carrying its last plan. */
  method Store(x: Planned, op: Operation, spec: Spec, ghost done: seq<Planned>)
    requires Carries(op, x.plan)
    requires AllPresent(OrEmpty(spec.paths), done)
    requires Stored(OrEmpty(spec.paths), done)
    modifies spec
    ensures StoredOp(OrEmpty(spec.paths), x.path, x.verb) == Some(op) && Carries(op, x.plan)
    ensures forall path, verb | path != x.path || verb != x.verb ::
      StoredOp(OrEmpty(spec.paths), path, verb) == StoredOp(old(OrEmpty(spec.paths)), path, verb)
    ensures AllPresent(OrEmpty(spec.paths), done + [x])
    ensures Stored(OrEmpty(spec.paths), done + [x])
  {
    ghost var before := OrEmpty(spec.paths);
    StoredAllocated(before, done);
    if op.responses.Some? && Get(op.responses.value, "200").Some? {
      GetEntry(op.responses.value, "200");
    }
    var _ := spec.PutPath(x.path, x.verb, op);
    forall path, verb | path != x.path || verb != x.verb
      ensures StoredOp(OrEmpty(spec.paths), path, verb) == StoredOp(before, path, verb)
    {
      StoredOpAfterPut(before, x.path, x.verb, op, path, verb);
    }
    StoredOpAfterPut(before, x.path, x.verb, op, x.path, x.verb);
    forall j | 0 <= j < |done + [x]|
      ensures var y := (done + [x])[j];
        StoredOp(OrEmpty(spec.paths), y.path, y.verb).Some? && LastPlan(done + [x], y.path, y.verb).Some? &&
        Carries(StoredOp(OrEmpty(spec.paths), y.path, y.verb).value, LastPlan(done + [x], y.path, y.verb).value)
    {
      var y := (done + [x])[j];
      LastPlanSnoc(done, x, y.path, y.verb);
      if y.path != x.path || y.verb != x.verb {
        assert y == done[j];
      }
    }
    forall j | 0 <= j < |done + [x]|
      ensures Get(MethodsOf(OrEmpty(spec.paths), (done + [x])[j].path), (done + [x])[j].verb).Some?
    {
      var y := (done + [x])[j];
      StoredOpAfterPut(before, x.path, x.verb, op, y.path, y.verb);
      if y.path != x.path || y.verb != x.verb {
        assert y == done[j];
      }
    }
  }

  /** Builds one planned operation, records its registrations and writes it
      under its path and method. */
  method Emit(x: Planned, spec: Spec, registry: Registry.SchemaRegistry<Resolver>, ghost done: seq<Planned>)
    requires registry.Valid()
    requires AllPresent(OrEmpty(spec.paths), done)
    requires Stored(OrEmpty(spec.paths), done)
    modifies spec, registry
    ensures registry.Valid()
    ensures registry.resolved == old(registry.resolved)
    ensures registry.pending == Registry.RegisterAll(old(registry.pending), old(registry.resolved), x.plan.registered)
    ensures AllPresent(OrEmpty(spec.paths), done + [x])
    ensures var op := StoredOp(OrEmpty(spec.paths), x.path, x.verb);
      op.Some? && fresh(op.value) && Carries(op.value, x.plan)
    ensures forall path, verb | path != x.path || verb != x.verb ::
      StoredOp(OrEmpty(spec.paths), path, verb) == StoredOp(old(OrEmpty(spec.paths)), path, verb)
    ensures Stored(OrEmpty(spec.paths), done + [x])
  {
    StoredAllocated(OrEmpty(spec.paths), done);
    registry.RegisterEach(x.plan.registered);
    var op := BuildOperation(x.plan);
    Store(x, op, spec, done);
  }

  /** Emits one planned operation after `done` and records it: the
      registry holds the registrations of every plan so far, and every
      planned path and method holds an operation carrying its last plan. */
  method Record(x: Planned, spec: Spec, registry: Registry.SchemaRegistry<Resolver>, done: seq<Planned>,
                ghost pending: seq<(string, Resolver)>, ghost resolved: seq<(string, Schema)>)
    returns (next: seq<Planned>)
    requires registry.Valid() && registry.resolved == resolved
    requires registry.pending == Registry.RegisterAll(pending, resolved, PlansRegistered(done))
    requires AllPresent(OrEmpty(spec.paths), done)
    requires Stored(OrEmpty(spec.paths), done)
    modifies spec, registry
    ensures next == done + [x]
    ensures registry.Valid() && registry.resolved == resolved
    ensures registry.pending == Registry.RegisterAll(pending, resolved, PlansRegistered(next))
    ensures AllPresent(OrEmpty(spec.paths), next) && Stored(OrEmpty(spec.paths), next)
  {
    Emit(x, spec, registry, done);
    Registry.RegisterAllAppend(pending, resolved, PlansRegistered(done), x.plan.registered);
    assert PlansRegistered(done + [x]) == PlansRegistered(done) + x.plan.registered by {
      assert (done + [x])[..|done|] == done;
    }
    next := done + [x];
  }

  /** One method of a route: unless ignored, its operation is planned,
      emitted and recorded after `done`; an exception comes back as
      `failure`, with the route's plans failing with that message. */
  method ProcessVerb(cx: Context, route: Route, verbs: seq<string>, k: nat, spec: Spec,
                     registry: Registry.SchemaRegistry<Resolver>, done: seq<Planned>,
                     ghost pending: seq<(string, Resolver)>, ghost resolved: seq<(string, Schema)>)
    returns (failure: Option<string>, next: seq<Planned>)
    requires k < |verbs|
    requires registry.Valid() && registry.resolved == resolved
    requires registry.pending == Registry.RegisterAll(pending, resolved, PlansRegistered(done))
    requires AllPresent(OrEmpty(spec.paths), done)
    requires Stored(OrEmpty(spec.paths), done)
    modifies spec, registry
    ensures registry.Valid() && registry.resolved == resolved
    ensures failure.Some? ==> RoutePlans(cx, route, verbs[k..], done) == Err(failure.value)
    ensures failure.None? ==>
      RoutePlans(cx, route, verbs[k + 1..], next) == RoutePlans(cx, route, verbs[k..], done) &&
      registry.pending == Registry.RegisterAll(pending, resolved, PlansRegistered(next)) &&
      AllPresent(OrEmpty(spec.paths), next) && Stored(OrEmpty(spec.paths), next)
  {
    assert verbs[k..][1..] == verbs[k + 1..];
    failure, next := None, done;
    var verb := LowerCase(verbs[k]);
    if verb !in cx.config.ignoredMethods {
      var planned := PlanOperation(cx, route, verb);
      if planned.Err? {
        return Some(planned.message), done;
      }
      next := Record(Planned("/" + route.uri, verb, planned.value), spec, registry, done, pending, resolved);
    }
  }

  /** The loop over one route's methods: each operation that is not
      ignored is built, its registrations recorded and the operation written
      under its path and method, after `done`; the first exception ends the
      loop. */
  method ProcessRoute(cx: Context, route: Route, spec: Spec, registry: Registry.SchemaRegistry<Resolver>,
                      done: seq<Planned>, ghost pending: seq<(string, Resolver)>, ghost resolved: seq<(string, Schema)>)
    returns (r: Result<seq<Planned>>)
    requires registry.Valid() && registry.resolved == resolved
    requires registry.pending == Registry.RegisterAll(pending, resolved, PlansRegistered(done))
    requires AllPresent(OrEmpty(spec.paths), done)
    requires Stored(OrEmpty(spec.paths), done)
    modifies spec, registry
    ensures registry.Valid() && registry.resolved == resolved
    ensures r == RoutePlans(cx, route, route.methods, done)
    ensures r.Ok? ==> registry.pending == Registry.RegisterAll(pending, resolved, PlansRegistered(r.value))
    ensures r.Ok? ==> AllPresent(OrEmpty(spec.paths), r.value)
    ensures r.Ok? ==> Stored(OrEmpty(spec.paths), r.value)
  {
    var verbs := route.methods;
    var planned := done;
    var k := 0;
    while k < |verbs|
      invariant 0 <= k <= |verbs|
      invariant registry.Valid() && registry.resolved == resolved
      invariant RoutePlans(cx, route, verbs[k..], planned) == RoutePlans(cx, route, verbs, done)
      invariant registry.pending == Registry.RegisterAll(pending, resolved, PlansRegistered(planned))
      invariant AllPresent(OrEmpty(spec.paths), planned)
      invariant Stored(OrEmpty(spec.paths), planned)
    {
      var failure;
      failure, planned := ProcessVerb(cx, route, verbs, k, spec, registry, planned, pending, resolved);
      if failure.Some? {
        return Err(failure.value);
      }
      k := k + 1;
    }
    assert verbs[k..] == [];
    return Ok(planned);
  }

  /** The loop over a group's routes and their methods: each operation is
      built, its registrations recorded and the operation written under its
      path and method; the first exception ends the run. */
  method ProcessGroup(cx: Context, routes: seq<Route>, spec: Spec, registry: Registry.SchemaRegistry<Resolver>)
    returns (r: Result<seq<Planned>>)
    requires registry.Valid()
    modifies spec, registry
    ensures registry.Valid()
    ensures r == GroupPlans(cx, routes, [])
    ensures r.Ok? ==> registry.resolved == old(registry.resolved)
    ensures r.Ok? ==> registry.pending == Registry.RegisterAll(old(registry.pending), old(registry.resolved), PlansRegistered(r.value))
    ensures r.Ok? ==> AllPresent(OrEmpty(spec.paths), r.value)
    ensures r.Ok? ==> Stored(OrEmpty(spec.paths), r.value)
  {
    var done: seq<Planned> := [];
    var i := 0;
    while i < |routes|
      invariant 0 <= i <= |routes|
      invariant registry.Valid()
      invariant GroupPlans(cx, routes[i..], done) == GroupPlans(cx, routes, [])
      invariant registry.resolved == old(registry.resolved)
      invariant registry.pending == Registry.RegisterAll(old(registry.pending), old(registry.resolved), PlansRegistered(done))
      invariant AllPresent(OrEmpty(spec.paths), done)
      invariant Stored(OrEmpty(spec.paths), done)
    {
      assert routes[i..][1..] == routes[i + 1..];
      var next := ProcessRoute(cx, routes[i], spec, registry, done, old(registry.pending), old(registry.resolved));
      if next.Err? {
        return Err(next.message);
      }
      done := next.value;
      i := i + 1;
    }
    return Ok(done);
  }
}
