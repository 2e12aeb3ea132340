/** What the command's decisions guarantee: route selection, the operation
    id and tags, the parameter and body split, the return-type dispatch and
    the responses. */
module CommandLemmas {
  import opened Wrappers
  import opened OrderedMaps
  import opened Schemas
  import opened Reflection
  import opened Definitions
  import opened Classifier
  import opened Command
  import Text
  import UseImports
  import ClassNames
  import Paginators

  // ---------------------------------------------------------------------
  // strStartsWith

  /** The cases the command's tests check; a single needle is the
      one-element list it is cast to. */
  lemma StrStartsWithExamples()
    ensures Text.StartsWithAny("hello world", ["hello"])
    ensures !Text.StartsWithAny("hello world", ["world"])
    ensures Text.StartsWithAny("hello world", ["foo", "hello"])
    ensures !Text.StartsWithAny("hello world", ["foo", "bar"])
    ensures !Text.StartsWithAny("hello world", [""])
    ensures !Text.StartsWithAny("hello world", [])
  {
    var s := "hello world";
    assert "hello" <= s;
    assert ["hello"][0] != [] && ["hello"][0] <= s;
    assert ["foo", "hello"][1] != [] && ["foo", "hello"][1] <= s;
    assert s[0] == 'h';
    var world: seq<string> := ["world"];
    forall i | 0 <= i < |world| ensures !(world[i] <= s) {
      assert world[i][0] == 'w';
    }
    var foobar: seq<string> := ["foo", "bar"];
    forall i | 0 <= i < |foobar| ensures !(foobar[i] <= s) {
      assert foobar[i][0] == 'f' || foobar[i][0] == 'b';
    }
  }

  /** Empty needles never match, so adding or dropping them changes nothing. */
  lemma EmptyNeedlesIgnored(s: string, needles: seq<string>, more: seq<string>)
    requires forall i | 0 <= i < |more| :: more[i] == []
    ensures Text.StartsWithAny(s, needles + more) == Text.StartsWithAny(s, needles)
  {
    if Text.StartsWithAny(s, needles + more) {
      var i :| 0 <= i < |needles + more| && (needles + more)[i] != [] && (needles + more)[i] <= s;
      assert i < |needles|;
      assert needles[i] == (needles + more)[i];
    }
    if Text.StartsWithAny(s, needles) {
      var i :| 0 <= i < |needles| && needles[i] != [] && needles[i] <= s;
      assert (needles + more)[i] == needles[i];
    }
  }

  // ---------------------------------------------------------------------
  // Route selection

  /** A route is kept exactly when its name (empty when it has none) does
      not start with an ignored prefix; no route is invented. */
  lemma {:induction false} KeptMembers(routes: seq<Route>, ignored: seq<string>)
    ensures |Kept(routes, ignored)| <= |routes|
    ensures forall r :: r in Kept(routes, ignored) <==> r in routes && !Text.StartsWithAny(OrText(r.name), ignored)
    decreases |routes|
  {
    if routes != [] {
      var init := routes[..|routes| - 1];
      KeptMembers(init, ignored);
      assert routes == init + [routes[|routes| - 1]];
    }
  }

  /** A group holds exactly the routes that match its kind and prefix, in
      the order they were declared. */
  lemma {:induction false} MatchingMembers(kind: string, prefix: string, routes: seq<Route>)
    ensures |Matching(kind, prefix, routes)| <= |routes|
    ensures forall r :: r in Matching(kind, prefix, routes) <==> r in routes && InGroup(kind, prefix, r)
    decreases |routes|
  {
    if routes != [] {
      var init := routes[..|routes| - 1];
      MatchingMembers(kind, prefix, init);
      assert routes == init + [routes[|routes| - 1]];
    }
  }

  /** A group key of any kind other than `uri` and `controller` collects
      nothing. */
  lemma {:induction false} OtherKindsCollectNothing(kind: string, prefix: string, routes: seq<Route>)
    requires kind != "uri" && kind != "controller"
    ensures Matching(kind, prefix, routes) == []
    decreases |routes|
  {
    if routes != [] {
      OtherKindsCollectNothing(kind, prefix, routes[..|routes| - 1]);
    }
  }

  /** A key `kind:prefix` splits into its kind and its prefix. */
  lemma GroupKeySplits(kind: string, prefix: string, routes: seq<Route>)
    requires ':' !in kind && ':' !in prefix
    ensures GroupRoutes(kind + ":" + prefix, routes) == Ok(Matching(kind, prefix, routes))
  {
    var key := kind + ":" + prefix;
    Text.IndexOfAfter(kind, ':', prefix);
    assert key == kind + [':'] + prefix;
    assert key[..|kind|] == kind;
    assert key[|kind| + 1..] == prefix;
    assert Text.Split(key, ':') == [kind, prefix];
  }

  /** A `uri:` group with an empty prefix holds every route. */
  lemma {:induction false} EmptyUriPrefixTakesAll(routes: seq<Route>)
    ensures Matching("uri", "", routes) == routes
    decreases |routes|
  {
    if routes != [] {
      EmptyUriPrefixTakesAll(routes[..|routes| - 1]);
      assert routes == routes[..|routes| - 1] + [routes[|routes| - 1]];
    }
  }

  // ---------------------------------------------------------------------
  // Operation id, tags and the handler

  /** A handler that is neither a controller string nor a closure stops the
      run with the route's id in the message, once the middleware entry has
      been read. */
  lemma UnknownHandlerFails(cx: Context, route: Route, verb: string)
    requires route.handler.OtherAction?
    ensures PlanOperation(cx, route, verb) ==
      if route.middleware.None? then Err("Undefined array key \"middleware\"")
      else Err("Unknown uses for route " + (if route.name.Some? then route.name.value else route.uri))
  {
  }

  /** The operation id, tags, authentication flag, handler name and
      exception examples of a planned operation: the first `@id` of the
      method wins, qualified by the first `@id` of the controller; without
      one the route's name, then `prefix.method` for a controller, then the
      URI for a closure. Tags are the class tags then the method tags, set
      only when there are some. */
  lemma PlanFacts(cx: Context, route: Route, verb: string)
    requires PlanOperation(cx, route, verb).Ok?
    ensures !route.handler.OtherAction?
    ensures var p := PlanOperation(cx, route, verb).value;
      var doc := DocOf(MethodOf(route.handler));
      var classIds := if route.handler.ControllerAction? then route.handler.classIds else [];
      var classTags := if route.handler.ControllerAction? then route.handler.classTags else [];
      (|doc.ids| > 0 && |classIds| > 0 ==> p.operationId == classIds[0] + "." + doc.ids[0]) &&
      (|doc.ids| > 0 && |classIds| == 0 ==> p.operationId == doc.ids[0]) &&
      (|doc.ids| == 0 && route.name.Some? ==> p.operationId == route.name.value) &&
      (|doc.ids| == 0 && route.name.None? && route.handler.ClosureAction? ==> p.operationId == route.uri) &&
      (|doc.ids| == 0 && route.name.None? && route.handler.ControllerAction? ==>
         p.operationId == route.actionPrefix.value + "." + Text.Split(route.handler.uses, '@')[1]) &&
      (p.tags.Some? <==> |classTags| + |doc.tags| > 0) &&
      (p.tags.Some? ==> p.tags.value == classTags + doc.tags)
  {
  }

  /** The rest of a plan: authentication from the `auth` middleware, one
      example per `@throws` tag, the handler's name, the doc comment's
      summary and description, and no request body for a method that
      carries none. */
  lemma PlanFields(cx: Context, route: Route, verb: string)
    requires PlanOperation(cx, route, verb).Ok?
    ensures var p := PlanOperation(cx, route, verb).value;
      var doc := DocOf(MethodOf(route.handler));
      (p.hasAuth <==> "auth" in route.middleware.value) &&
      |p.throwsExamples| == |doc.throws| &&
      p.handlerName == MethodOf(route.handler).name &&
      p.summary == doc.summary && p.description == doc.description &&
      (verb !in BodyVerbs ==> p.requestBodies == [])
  {
    var m := MethodOf(route.handler);
    var ctx := ClassOf(route.handler);
    var doc := DocOf(m);
    var ps := ScanParams(cx, ctx, ParamTagMap(doc.params), m.params, ParamState([], [], false, [])).value;
    var props := RequestProperties(ps.bodies).value;
    var examples := ThrowsExamples(cx.env, ctx, doc.throws).value;
    assert PlanOperation(cx, route, verb).value.requestBodies == RequestBodies(verb, props, ps.bodyNullable);
    assert PlanOperation(cx, route, verb).value.throwsExamples == examples;
  }

  // ---------------------------------------------------------------------
  // Parameters and bodies

  /** A parameter without a plain named type, or of a class that is neither
      a form request nor the plain request, is a required string path
      parameter described by its `@param` tag. */
  lemma PathParameterStep(cx: Context, ctx: Option<ClassInfo>, tags: seq<(string, ParamTag)>, p: SignatureParam, st: ParamState)
    requires p.typ.Unnamed? || (!cx.env.isKindOf(p.typ.name, FormRequest) && p.typ.name != HttpRequest)
    ensures var r := ParamStep(cx, ctx, tags, p, st);
      r.Ok? && r.value.bodies == st.bodies && r.value.bodyNullable == st.bodyNullable &&
      r.value.registered == st.registered &&
      Get(r.value.path, p.name) == Some(Parameter(p.name, "path", true, TypedSchema("string", false),
                                                 if Get(tags, p.name).Some? then Get(tags, p.name).value.description else "")) &&
      forall k | k != p.name :: Get(r.value.path, k) == Get(st.path, k)
  {
    var param := PathParameter(p.name, Get(tags, p.name));
    GetPut(st.path, p.name, param, p.name);
    forall k | k != p.name ensures Get(Put(st.path, p.name, param), k) == Get(st.path, k) {
      GetPut(st.path, p.name, param, k);
    }
  }

  /** A form request whose class docblock lists properties becomes the
      next request schema, and the body's nullability follows its type. */
  lemma FormRequestStep(cx: Context, ctx: Option<ClassInfo>, tags: seq<(string, ParamTag)>, p: SignatureParam,
                        st: ParamState, o: Out<Schema>)
    requires p.typ.Named? && cx.env.isKindOf(p.typ.name, FormRequest)
    requires ClassParser.ParseClass(cx.env, p.typ.name, p.typ.allowsNull, true, cx.fuel) == Ok(o)
    requires o.value.properties.Properties? && |o.value.properties.entries| > 0
    ensures ParamStep(cx, ctx, tags, p, st) ==
      Ok(ParamState(st.path, st.bodies + [o.value], p.typ.allowsNull, st.registered + o.registered))
  {
  }

  /** A form request whose docblock lists no property takes its properties
      from the keys of its `rules()` array, each a string. */
  lemma FormRequestRulesStep(cx: Context, ctx: Option<ClassInfo>, tags: seq<(string, ParamTag)>, p: SignatureParam,
                             st: ParamState, o: Out<Schema>, k: string)
    requires p.typ.Named? && cx.env.isKindOf(p.typ.name, FormRequest)
    requires ClassParser.ParseClass(cx.env, p.typ.name, p.typ.allowsNull, true, cx.fuel) == Ok(o)
    requires o.value.properties == Properties([])
    ensures var r := ParamStep(cx, ctx, tags, p, st);
      r.Ok? && |r.value.bodies| == |st.bodies| + 1 && r.value.bodyNullable == p.typ.allowsNull &&
      var body := r.value.bodies[|st.bodies|];
      body.properties.Properties? &&
      (k in Keys(body.properties.entries) <==> k in cx.rules(p.typ.name)) &&
      (k in cx.rules(p.typ.name) ==> Get(body.properties.entries, k) == Some(TypedSchema("string", false)))
  {
    RulePropertiesSpec(cx.rules(p.typ.name), k);
  }

  /** Each rule key becomes one string property. */
  lemma {:induction false} RulePropertiesSpec(keys: seq<string>, k: string)
    ensures k in Keys(RuleProperties(keys)) <==> k in keys
    ensures k in keys ==> Get(RuleProperties(keys), k) == Some(TypedSchema("string", false))
    decreases |keys|
  {
    if keys != [] {
      var init := keys[..|keys| - 1];
      var last := keys[|keys| - 1];
      RulePropertiesSpec(init, k);
      KeysPut(RuleProperties(init), last, TypedSchema("string", false));
      GetPut(RuleProperties(init), last, TypedSchema("string", false), k);
      assert keys == init + [last];
    }
  }

  /** The parameter scan only adds: earlier request schemas and
      registrations stay in front, and every path parameter is an earlier
      one or one of the scanned parameters. */
  lemma {:induction false} ScanParamsGrows(cx: Context, ctx: Option<ClassInfo>, tags: seq<(string, ParamTag)>,
                                           ps: seq<SignatureParam>, st: ParamState)
    requires ScanParams(cx, ctx, tags, ps, st).Ok?
    ensures var r := ScanParams(cx, ctx, tags, ps, st).value;
      st.bodies <= r.bodies && st.registered <= r.registered &&
      forall k | k in Keys(r.path) :: k in Keys(st.path) || exists i | 0 <= i < |ps| :: ps[i].name == k
    decreases |ps|
  {
    if ps != [] {
      var st1 := ParamStep(cx, ctx, tags, ps[0], st).value;
      ScanParamsGrows(cx, ctx, tags, ps[1..], st1);
      KeysPut(st.path, ps[0].name, PathParameter(ps[0].name, Get(tags, ps[0].name)));
      var r := ScanParams(cx, ctx, tags, ps, st).value;
      forall k | k in Keys(r.path) ensures k in Keys(st.path) || exists i | 0 <= i < |ps| :: ps[i].name == k {
        if k !in Keys(st.path) && k != ps[0].name {
          assert k in Keys(st1.path) || exists i | 0 <= i < |ps[1..]| :: ps[1..][i].name == k;
          if k !in Keys(st1.path) {
            var i :| 0 <= i < |ps[1..]| && ps[1..][i].name == k;
            assert ps[i + 1].name == k;
          }
        }
      }
    }
  }

  /** The `@param` tag of a variable is the last one written for it. */
  lemma {:induction false} ParamTagMapSpec(tags: seq<ParamTag>, v: string)
    ensures Get(ParamTagMap(tags), v).Some? <==> exists i | 0 <= i < |tags| :: tags[i].variable == v
    ensures Get(ParamTagMap(tags), v).Some? ==>
      Get(ParamTagMap(tags), v).value.variable == v && Get(ParamTagMap(tags), v).value in tags
    decreases |tags|
  {
    if tags != [] {
      var init := tags[..|tags| - 1];
      var last := tags[|tags| - 1];
      ParamTagMapSpec(init, v);
      GetPut(ParamTagMap(init), last.variable, last, v);
      assert tags == init + [last];
      if exists i | 0 <= i < |tags| :: tags[i].variable == v {
        var i :| 0 <= i < |tags| && tags[i].variable == v;
        if i < |init| {
          assert init[i] == tags[i];
        }
      }
    }
  }

  /** The kept `@param` tag of a variable is the last one naming it: no
      later tag names the variable. */
  lemma {:induction false} ParamTagMapLastWins(tags: seq<ParamTag>, v: string)
    requires Get(ParamTagMap(tags), v).Some?
    ensures exists i | 0 <= i < |tags| :: tags[i] == Get(ParamTagMap(tags), v).value &&
                                          forall j | i < j < |tags| :: tags[j].variable != v
    decreases |tags|
  {
    var init := tags[..|tags| - 1];
    var last := tags[|tags| - 1];
    GetPut(ParamTagMap(init), last.variable, last, v);
    if last.variable == v {
      assert tags[|tags| - 1] == Get(ParamTagMap(tags), v).value;
    } else {
      ParamTagMapLastWins(init, v);
      var i :| 0 <= i < |init| && init[i] == Get(ParamTagMap(init), v).value &&
               forall j | i < j < |init| :: init[j].variable != v;
      assert tags[i] == init[i];
      forall j | i < j < |tags| ensures tags[j].variable != v {
        if j < |init| {
          assert tags[j] == init[j];
        }
      }
    }
  }

  /** Merging the request schemas fails exactly when one of them has no
      properties; otherwise a name is a request property exactly when some
      request schema has it. */
  lemma {:induction false} RequestPropertiesSpec(bodies: seq<Schema>, k: string)
    ensures RequestProperties(bodies).Ok? <==> forall i | 0 <= i < |bodies| :: bodies[i].properties.Properties?
    ensures RequestProperties(bodies).Ok? ==>
      (k in Keys(RequestProperties(bodies).value) <==>
       exists i | 0 <= i < |bodies| :: k in Keys(PropertyEntries(bodies[i])))
    decreases |bodies|
  {
    if bodies != [] {
      var init := bodies[..|bodies| - 1];
      var last := bodies[|bodies| - 1];
      RequestPropertiesSpec(init, k);
      LastSplit(bodies, k);
      if RequestProperties(bodies).Ok? {
        KeysMergeKeepsPrefix(RequestProperties(init).value, last.properties.entries);
      }
    }
  }

  /** Every request schema has properties exactly when all but the last
      do and the last does. */
  lemma LastSplit(bodies: seq<Schema>, k: string)
    requires bodies != []
    ensures var init := bodies[..|bodies| - 1];
      ((forall i | 0 <= i < |bodies| :: bodies[i].properties.Properties?) <==>
       (forall i | 0 <= i < |init| :: init[i].properties.Properties?) && bodies[|bodies| - 1].properties.Properties?)
    ensures var init := bodies[..|bodies| - 1];
      ((exists i | 0 <= i < |bodies| :: k in Keys(PropertyEntries(bodies[i]))) <==>
       (exists i | 0 <= i < |init| :: k in Keys(PropertyEntries(init[i]))) || k in Keys(PropertyEntries(bodies[|bodies| - 1])))
  {
    var init := bodies[..|bodies| - 1];
    assert forall i | 0 <= i < |init| :: init[i] == bodies[i];
    SomeHasSplit(bodies, init, k);
  }

  lemma SomeHasSplit(bodies: seq<Schema>, init: seq<Schema>, k: string)
    requires bodies != [] && init == bodies[..|bodies| - 1]
    ensures (exists i | 0 <= i < |bodies| :: k in Keys(PropertyEntries(bodies[i]))) <==>
      (exists i | 0 <= i < |init| :: k in Keys(PropertyEntries(init[i]))) || k in Keys(PropertyEntries(bodies[|bodies| - 1]))
  {
    ExistsSnoc(bodies, init, b => k in Keys(PropertyEntries(b)));
  }

  /** Some element of a non-empty sequence satisfies `p` exactly when
      some element of all but the last does, or the last does. */
  lemma ExistsSnoc<T>(s: seq<T>, init: seq<T>, p: T -> bool)
    requires s != [] && init == s[..|s| - 1]
    ensures (exists i | 0 <= i < |s| :: p(s[i])) <==>
      (exists i | 0 <= i < |init| :: p(init[i])) || p(s[|s| - 1])
  {
    if exists i | 0 <= i < |s| :: p(s[i]) {
      var i :| 0 <= i < |s| && p(s[i]);
      if i < |init| {
        assert init[i] == s[i];
      }
    }
    if exists i | 0 <= i < |init| :: p(init[i]) {
      var i :| 0 <= i < |init| && p(init[i]);
      assert init[i] == s[i];
    }
  }

  /** For post, put and patch with request properties the form body is
      always present and the JSON body exactly when no property is a
      binary string, both the object of the properties; any other method,
      or no property, gives no body. */
  lemma RequestBodyRule(verb: string, props: seq<(string, Schema)>, nullable: bool)
    ensures var bodies := RequestBodies(verb, props, nullable);
      var body := ObjectSchema(props, None, nullable);
      (verb in BodyVerbs && |props| > 0 ==>
         Get(bodies, "application/x-www-form-urlencoded") == Some(body) &&
         (Get(bodies, "application/json").Some? <==> !AnyContainsBinaryString(props)) &&
         (Get(bodies, "application/json").Some? ==> Get(bodies, "application/json") == Some(body)) &&
         (forall k | k in Keys(bodies) :: k == "application/json" || k == "application/x-www-form-urlencoded") &&
         BodyMap(bodies) == bodies) &&
      (!(verb in BodyVerbs && |props| > 0) ==> bodies == [])
  {
    var body := ObjectSchema(props, None, nullable);
    var form := ("application/x-www-form-urlencoded", body);
    var json := ("application/json", body);
    var none: seq<(string, Schema)> := [];
    var bodies := RequestBodies(verb, props, nullable);
    KeysLength(bodies);
    assert BodyMap([form]) == [form] by {
      assert [form][..0] == none;
    }
    assert BodyMap([json, form]) == [json, form] by {
      var both := [json, form];
      assert both[..1] == [json];
      assert [json][..0] == none;
      assert BodyMap([json]) == [json];
      assert Keys([json]) == [json.0];
      PutNew([json], form.0, form.1);
      assert BodyMap(both) == Put(BodyMap([json]), form.0, form.1);
    }
  }

  /** For the other methods, a request property becomes a required query
      parameter with the property's schema, the last property of that name
      winning, and every other parameter is kept. */
  lemma {:induction false} QueryParametersSpec(path: seq<(string, Parameter)>, props: seq<(string, Schema)>, k: string)
    ensures Get(WithQueryParameters(path, props), k) ==
      if LastFor(props, k).Some? then Some(Parameter(k, "query", true, LastFor(props, k).value, "")) else Get(path, k)
    decreases |props|
  {
    if props != [] {
      var last := props[|props| - 1];
      QueryParametersSpec(path, props[..|props| - 1], k);
      GetPut(WithQueryParameters(path, props[..|props| - 1]), last.0, QueryParameter(last.0, last.1), k);
    }
  }

  /** With a body method the request properties are not parameters. */
  lemma BodyMethodKeepsPathParameters(verb: string, path: seq<(string, Parameter)>, props: seq<(string, Schema)>)
    requires verb in BodyVerbs
    ensures Parameters(verb, path, props) == path
  {
  }

  // ---------------------------------------------------------------------
  // Return dispatch

  /** `void` and `never` add nothing. */
  lemma VoidAddsNothing(cx: Context, ctx: Option<ClassInfo>, docs: seq<Schema>, handler: string, t: ReturnType, acc: Returns)
    requires t.name == "void" || t.name == "never"
    requires !cx.env.isKindOf(t.name, SupportCollection)
    requires !IsPaginator(cx.env, t.name) && !IsResource(cx.env, t.name) && cx.env.classes(t.name).None?
    ensures ReturnStep(cx, ctx, docs, handler, t, acc) == Ok(acc)
  {
  }

  /** A built-in type adds the schema of its `TYPE_MAP` entry. */
  lemma BuiltinAddsTypeMapSchema(cx: Context, ctx: Option<ClassInfo>, docs: seq<Schema>, handler: string, t: ReturnType, acc: Returns)
    requires TypeMapFields(t.name).Some? && t.text !in cx.config.ignoredRouteReturns
    requires t.name != "array" && t.name != "iterable" && !cx.env.isKindOf(t.name, SupportCollection)
    requires !IsPaginator(cx.env, t.name) && !IsResource(cx.env, t.name) && cx.env.classes(t.name).None?
    ensures ReturnStep(cx, ctx, docs, handler, t, acc) ==
      Ok(acc.(schemas := acc.schemas + [CustomSchema(TypeMapFields(t.name).value)]))
  {
  }

  /** A type that is no known kind, no class, not built in and not
      `void`/`never` stops the run. */
  lemma UnknownReturnFails(cx: Context, ctx: Option<ClassInfo>, docs: seq<Schema>, handler: string, t: ReturnType, acc: Returns)
    requires t.text !in cx.config.ignoredRouteReturns
    requires !cx.env.isKindOf(t.name, SupportCollection)
    requires !IsPaginator(cx.env, t.name) && !IsResource(cx.env, t.name) && cx.env.classes(t.name).None?
    requires TypeMapFields(t.name).None? && t.name != "void" && t.name != "never"
    ensures ReturnStep(cx, ctx, docs, handler, t, acc).Err?
  {
  }

  /** An ignored return type changes nothing. */
  lemma IgnoredReturnSkipped(cx: Context, ctx: Option<ClassInfo>, docs: seq<Schema>, handler: string, t: ReturnType, acc: Returns)
    requires t.text in cx.config.ignoredRouteReturns
    ensures ReturnStep(cx, ctx, docs, handler, t, acc) == Ok(acc)
  {
  }

  /** The `int` entry of `TYPE_MAP` is a 32-bit integer: exactly a type and
      a format field. */
  lemma TypeMapInt()
    ensures var s := CustomSchema(TypeMapFields("int").value);
      s.typ == Some("integer") && s.format == Some("int32") && Fields(s) == {"type", "format"}
  {
    var m := TypeMapFields("int").value;
    CustomSchemaFields(m);
    assert (set i | 0 <= i < |m| :: m[i].0) == {"type", "format"} by {
      assert m[0].0 == "type" && m[1].0 == "format";
    }
  }

  /** The `array` and `iterable` entries are arrays whose `items` is the
      plain array `{type: object}`. */
  lemma TypeMapArray(name: string)
    requires name == "array" || name == "iterable"
    ensures var s := CustomSchema(TypeMapFields(name).value);
      s.typ == Some("array") && s.items.Some? && s.items.value.literal &&
      s.items.value.typ == Some("object") && Fields(s) == {"type", "items"}
  {
    var m := TypeMapFields(name).value;
    CustomSchemaFields(m);
    assert (set i | 0 <= i < |m| :: m[i].0) == {"type", "items"} by {
      assert m[0].0 == "type" && m[1].0 == "items";
    }
    var items: seq<(string, string)> := [("type", "object")];
    assert LiteralNode(items) == SetText(LiteralNode([]), "type", "object") by {
      assert items[..0] == [];
    }
  }

  /** A paginator return type without `@return` tags registers its envelope
      around an empty object under the envelope's name, chosen in the
      source's order, and stands for a reference to it, nullable as the type
      is; a nullable type makes the response nullable. */
  lemma PaginatorReturn(cx: Context, ctx: Option<ClassInfo>, handler: string, t: ReturnType, acc: Returns)
    requires t.text !in cx.config.ignoredRouteReturns && IsPaginator(cx.env, t.name)
    ensures var r := ReturnStep(cx, ctx, [], handler, t, acc);
      var id := PaginatorChoiceAsWritten(cx.env, t.name).0;
      r.Ok? && r.value.schemas == acc.schemas + [RefSchema(id, t.allowsNull)] &&
      r.value.nullable == (acc.nullable || t.allowsNull) &&
      r.value.registered == acc.registered + [(id, FixedJob(PaginatorChoiceAsWritten(cx.env, t.name).1))]
    ensures cx.env.isKindOf(t.name, PaginatorContract) ==> PaginatorChoiceAsWritten(cx.env, t.name).0 == "Paginator"
  {
  }

  /** The paginator envelopes as the source chooses them: any plain
      paginator, length-aware or not, gets the simple envelope; one that is
      only length-aware the length-aware one; any other the cursor one. */
  lemma PaginatorChoiceAsWrittenShape(env: Env, name: string)
    ensures var c := PaginatorChoiceAsWritten(env, name);
      (env.isKindOf(name, PaginatorContract) ==>
         c.0 == "Paginator" && Paginators.IsEnvelope(c.1, Paginators.PaginatorKeys, false)) &&
      (!env.isKindOf(name, PaginatorContract) && env.isKindOf(name, LengthAwarePaginatorContract) ==>
         c.0 == "LengthAwarePaginator" && Paginators.IsEnvelope(c.1, Paginators.LengthAwareKeys, false)) &&
      (!env.isKindOf(name, PaginatorContract) && !env.isKindOf(name, LengthAwarePaginatorContract) ==>
         c.0 == "CursorPaginator" && Paginators.IsEnvelope(c.1, Paginators.CursorKeys, false))
  {
    var empty := ObjectSchema([], None, false);
    Paginators.LengthAwarePaginatorLayout(empty, false);
    Paginators.PaginatorLayout(empty, false);
    Paginators.CursorPaginatorLayout(empty, false);
  }

  /** The paginator envelopes, as the corrected choice makes them: a
      length-aware paginator gets the length-aware envelope, one that is
      only a plain paginator the simple one, and any other the cursor one. */
  lemma PaginatorChoiceShape(env: Env, name: string)
    ensures var c := PaginatorChoice(env, name);
      var empty := ObjectSchema([], None, false);
      (env.isKindOf(name, LengthAwarePaginatorContract) ==>
         c.0 == "LengthAwarePaginator" && Paginators.IsEnvelope(c.1, Paginators.LengthAwareKeys, false)) &&
      (!env.isKindOf(name, LengthAwarePaginatorContract) && env.isKindOf(name, PaginatorContract) ==>
         c.0 == "Paginator" && Paginators.IsEnvelope(c.1, Paginators.PaginatorKeys, false)) &&
      (!env.isKindOf(name, LengthAwarePaginatorContract) && !env.isKindOf(name, PaginatorContract) ==>
         c.0 == "CursorPaginator" && Paginators.IsEnvelope(c.1, Paginators.CursorKeys, false))
  {
    var empty := ObjectSchema([], None, false);
    Paginators.LengthAwarePaginatorLayout(empty, false);
    Paginators.PaginatorLayout(empty, false);
    Paginators.CursorPaginatorLayout(empty, false);
  }

  /** As written, a length-aware paginator type, which Laravel's contract
      also makes a plain paginator, gets the simple envelope: it has no
      `total` and no `last_page`, which the corrected choice provides. */
  lemma LengthAwarePaginatorLosesTotal(env: Env, name: string)
    requires env.isKindOf(name, LengthAwarePaginatorContract) && env.isKindOf(name, PaginatorContract)
    ensures PaginatorChoiceAsWritten(env, name).0 == "Paginator"
    ensures "total" !in Keys(PropertyEntries(PaginatorChoiceAsWritten(env, name).1))
    ensures "last_page" !in Keys(PropertyEntries(PaginatorChoiceAsWritten(env, name).1))
    ensures PaginatorChoice(env, name).0 == "LengthAwarePaginator"
    ensures "total" in Keys(PropertyEntries(PaginatorChoice(env, name).1))
    ensures "last_page" in Keys(PropertyEntries(PaginatorChoice(env, name).1))
  {
    var empty := ObjectSchema([], None, false);
    var simple := Paginators.PaginatorSchema(empty, false);
    var full := Paginators.LengthAwarePaginatorSchema(empty, false);
    Paginators.PaginatorLayout(empty, false);
    Paginators.LengthAwarePaginatorLayout(empty, false);
    assert PaginatorChoiceAsWritten(env, name) == ("Paginator", simple);
    assert PaginatorChoice(env, name) == ("LengthAwarePaginator", full);
    EnvelopeTotals();
  }

  /** Of the two envelopes' key lists only the length-aware one has the
      totals. */
  lemma EnvelopeTotals()
    ensures "total" !in Paginators.PaginatorKeys && "last_page" !in Paginators.PaginatorKeys
    ensures "total" in Paginators.LengthAwareKeys && "last_page" in Paginators.LengthAwareKeys
  {
    var simple := Paginators.PaginatorKeys;
    forall k | k in simple ensures |k| != 5 && |k| != 9 {
      var i :| 0 <= i < |simple| && simple[i] == k;
    }
    assert Paginators.LengthAwareKeys[11] == "total";
    assert Paginators.LengthAwareKeys[3] == "last_page";
  }

  /** A generic JSON resource with `@return` tags stands for `{data: T}`
      for each tag's schema `T`, replacing what was collected before. */
  lemma GenericResourceWrapsDocs(cx: Context, ctx: ClassInfo, docs: seq<Schema>, handler: string, t: ReturnType, acc: Returns)
    requires t.text !in cx.config.ignoredRouteReturns
    requires !((t.name == "array" || t.name == "iterable" || cx.env.isKindOf(t.name, SupportCollection)) && |docs| > 0)
    requires !IsPaginator(cx.env, t.name) && IsResource(cx.env, t.name)
    requires ClassNames.GetClassFullname(cx.env, UseImports.LastSegment(t.name), ctx) == Ok(JsonResource)
    requires |docs| > 0
    ensures var r := ReturnStep(cx, Some(ctx), docs, handler, t, acc);
      r.Ok? && |r.value.schemas| == |docs| &&
      (forall i | 0 <= i < |docs| :: Get(PropertyEntries(r.value.schemas[i]), "data") == Some(docs[i])) &&
      r.value.nullable == (acc.nullable || t.allowsNull) && r.value.registered == acc.registered
  {
  }

  /** Any other existing class registers `parseClass` of the class under its
      short name and stands for a reference to it, nullable as the type is. */
  lemma ClassReturn(cx: Context, ctx: ClassInfo, docs: seq<Schema>, handler: string, t: ReturnType, acc: Returns, full: string)
    requires t.text !in cx.config.ignoredRouteReturns
    requires !((t.name == "array" || t.name == "iterable" || cx.env.isKindOf(t.name, SupportCollection)) && |docs| > 0)
    requires !IsPaginator(cx.env, t.name) && !IsResource(cx.env, t.name) && cx.env.classes(t.name).Some?
    requires ClassNames.GetClassFullname(cx.env, UseImports.LastSegment(t.name), ctx) == Ok(full)
    requires full != ResourceCollection && full != JsonResource
    ensures var short := UseImports.LastSegment(t.name);
      ReturnStep(cx, Some(ctx), docs, handler, t, acc) ==
        Ok(Returns(acc.schemas + [RefSchema(short, t.allowsNull)], acc.nullable || t.allowsNull,
                   acc.registered + [(short, ClassJob(t.name, false))]))
  {
  }

  /** Class lookups need the handler's class: for a closure, a return type
      that resolves a class name stops the run. */
  lemma ClosureCannotResolveClasses(cx: Context, docs: seq<Schema>, handler: string, t: ReturnType, acc: Returns)
    requires t.text !in cx.config.ignoredRouteReturns
    requires !((t.name == "array" || t.name == "iterable" || cx.env.isKindOf(t.name, SupportCollection)) && |docs| > 0)
    requires !IsPaginator(cx.env, t.name) && (IsResource(cx.env, t.name) || cx.env.classes(t.name).Some?)
    ensures ReturnStep(cx, None, docs, handler, t, acc).Err?
  {
  }

  /** Scanning the return type only adds: registrations stay in front and
      a nullable response stays nullable. */
  lemma {:induction false} ScanReturnsGrows(cx: Context, ctx: Option<ClassInfo>, docs: seq<Schema>, handler: string,
                                            ts: seq<ReturnType>, acc: Returns)
    requires ScanReturns(cx, ctx, docs, handler, ts, acc).Ok?
    ensures var r := ScanReturns(cx, ctx, docs, handler, ts, acc).value;
      acc.registered <= r.registered && (acc.nullable ==> r.nullable)
    decreases |ts|
  {
    if ts != [] {
      var acc1 := ReturnStep(cx, ctx, docs, handler, ts[0], acc).value;
      ScanReturnsGrows(cx, ctx, docs, handler, ts[1..], acc1);
    }
  }

  // ---------------------------------------------------------------------
  // Responses

  /** Every operation gets a 200 response first; a 500 response exactly
      when exceptions are documented; a 401 response exactly when the route
      requires authentication. */
  lemma ResponseCodesSpec(p: Plan)
    ensures ResponseCodes(p)[0] == "200"
    ensures "500" in ResponseCodes(p) <==> |p.throwsExamples| > 0
    ensures "401" in ResponseCodes(p) <==> p.hasAuth
    ensures UniqueKeys(seq(|ResponseCodes(p)|, i requires 0 <= i < |ResponseCodes(p)| => (ResponseCodes(p)[i], 0)))
  {
  }

  /** Each documented exception gives one example named by its description
      whose message is the class's full name; a later tag with the same
      description replaces the earlier one. */
  lemma {:induction false} ExampleMapSpec(examples: seq<(string, seq<(string, string)>)>, name: string)
    ensures Get(ExampleMap(examples), name) ==
      if LastFor(examples, name).Some? then Some(Example(LastFor(examples, name).value)) else None
    ensures |ExampleMap(examples)| > 0 <==> |examples| > 0
    decreases |examples|
  {
    if examples != [] {
      var init := examples[..|examples| - 1];
      var last := examples[|examples| - 1];
      ExampleMapSpec(init, name);
      GetPut(ExampleMap(init), last.0, Example(last.1), name);
      KeysPut(ExampleMap(init), last.0, Example(last.1));
      KeysLength(Put(ExampleMap(init), last.0, Example(last.1)));
    }
  }

  /** The example of a documented exception names the thrown class by its
      full name, resolved in the handler's class: for an object type its
      class name, for a collection type such as `FooException<Bar>` its
      outer class. */
  lemma ThrowsExampleNamesClass(env: Env, ctx: ClassInfo, typ: TypeDesc, description: string)
    requires NamesClass(typ)
    requires ClassNames.GetClassFullname(env, ClassNameOf(typ), ctx).Ok?
    ensures typ.CollectionT? ==> ClassNameOf(typ) == typ.name
    ensures ThrowsExample(env, Some(ctx), ThrowsTag(typ, description)) ==
      Ok((description, [("message", ClassNames.GetClassFullname(env, ClassNameOf(typ), ctx).value)]))
  {
  }

  /** A `@throws` tag whose type names no class fails as PHP does: a null
      fqsen for a bare object type, no `getFqsen` method, named with the
      type's class, for any other type. */
  lemma ThrowsExampleWithoutClass(env: Env, ctx: Option<ClassInfo>, typ: TypeDesc, description: string)
    requires !NamesClass(typ)
    ensures ThrowsExample(env, ctx, ThrowsTag(typ, description)) ==
      if typ.ObjectT? then Err("Call to a member function getName() on null")
      else Err("Call to undefined method " + TypeClass(typ) + "::getFqsen()")
  {
  }

  // ---------------------------------------------------------------------
  // A route group

  /** Planning a route keeps the operations planned before it, and every
      new one is under the route's path with a lower-cased method that is
      not ignored. */
  lemma {:induction false} RoutePlansShape(cx: Context, route: Route, verbs: seq<string>, done: seq<Planned>)
    requires RoutePlans(cx, route, verbs, done).Ok?
    ensures var r := RoutePlans(cx, route, verbs, done).value;
      done <= r && |r| <= |done| + |verbs| &&
      forall j | |done| <= j < |r| :: r[j].path == "/" + route.uri && r[j].verb !in cx.config.ignoredMethods
    decreases |verbs|
  {
    if verbs != [] {
      var verb := LowerCase(verbs[0]);
      if verb in cx.config.ignoredMethods {
        RoutePlansShape(cx, route, verbs[1..], done);
      } else {
        var p := PlanOperation(cx, route, verb).value;
        RoutePlansShape(cx, route, verbs[1..], done + [Planned("/" + route.uri, verb, p)]);
      }
    }
  }

  /** The operations of a group keep their routes' order, and none is for
      an ignored method. */
  lemma {:induction false} GroupPlansShape(cx: Context, routes: seq<Route>, done: seq<Planned>)
    requires GroupPlans(cx, routes, done).Ok?
    ensures var r := GroupPlans(cx, routes, done).value;
      done <= r && forall j | |done| <= j < |r| :: r[j].verb !in cx.config.ignoredMethods
    decreases |routes|
  {
    if routes != [] {
      RoutePlansShape(cx, routes[0], routes[0].methods, done);
      var more := RoutePlans(cx, routes[0], routes[0].methods, done).value;
      GroupPlansShape(cx, routes[1..], more);
    }
  }
}
