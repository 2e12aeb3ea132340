/** The TypeScript writer: one `export type` per component schema, written
    dependency-first with a fallback for cycles, then a response type and a
    route-name constant for the 200 response of every operation. */
module Inertia {
  import opened Wrappers
  import opened OrderedMaps
  import opened Schemas
  import opened Definitions
  import Text
  import UseImports
  import Command
  import CommandLemmas

  // ---------------------------------------------------------------------
  // From a schema node to a TypeScript type

  /** What the writer reads where a component is missing: PHP's null, on
      which no field is set. */
  const Missing: Schema := Blank.(literal := true)

  /** `components['schemas'][name]` */
  function SchemaOf(schemas: Option<seq<(string, Schema)>>, name: string): Schema
  {
    if schemas.Some? && Get(schemas.value, name).Some? then Get(schemas.value, name).value else Missing
  }

  /** `findReferences`: the basenames of the `$ref`s met through `oneOf`,
      `items` and `properties`, in that order, without looking below a
      `$ref`. A plain array has no fields to look through. */
  function References(s: Schema): (r: seq<string>)
    ensures s.literal ==> r == []
    ensures !s.literal && s.ref.Some? ==> r == [Text.Basename(s.ref.value)]
    decreases s, 2
  {
    if s.literal then []
    else if s.ref.Some? then [Text.Basename(s.ref.value)]
    else
      (if s.oneOf.Variants? then VariantReferences(s, |s.oneOf.list|) else []) +
      (if s.items.Some? then References(s.items.value) else []) +
      (if s.properties.Properties? then PropertyReferences(s, |s.properties.entries|) else [])
  }

  function VariantReferences(s: Schema, n: nat): seq<string>
    requires s.oneOf.Variants? && n <= |s.oneOf.list|
    decreases s, 1, n
  {
    if n == 0 then [] else VariantReferences(s, n - 1) + References(s.oneOf.list[n - 1])
  }

  function PropertyReferences(s: Schema, n: nat): seq<string>
    requires s.properties.Properties? && n <= |s.properties.entries|
    decreases s, 1, n
  {
    if n == 0 then [] else PropertyReferences(s, n - 1) + References(s.properties.entries[n - 1].1)
  }

  function Suffix(s: Schema): string
  {
    if s.nullable then " | null" else ""
  }

  /** The optional marker of a property: `?` unless the property's node is
      nullable. */
  function Marker(p: Schema): string
  {
    if p.nullable && !p.literal then "" else "?"
  }

  /** The primitive switch, on `type` or `any` when there is none. */
  function PrimitiveType(typ: Option<string>): string
  {
    if typ == Some("string") then "string"
    else if typ == Some("integer") || typ == Some("number") then "number"
    else if typ == Some("boolean") then "boolean"
    else "any"
  }

  /** `convertToTypeScript`'s result. A plain array has no field set, so
      it falls through to `any` without a null suffix. */
  function TsType(s: Schema): (r: string)
    ensures s.literal ==> r == "any"
    ensures !s.literal && s.nullable ==> |r| >= 7 && r[|r| - 7..] == " | null"
    ensures !s.literal && !s.nullable && s.ref.Some? ==> r == Text.Basename(s.ref.value)
    decreases s, 2
  {
    if s.literal then "any"
    else if s.ref.Some? then Text.Basename(s.ref.value) + Suffix(s)
    else if s.oneOf.Variants? then "(" + Text.Join(VariantTypes(s, |s.oneOf.list|), " | ") + ")" + Suffix(s)
    else if s.typ == Some("array") then
      (if s.items.Some? then TsType(s.items.value) + "[]" else "any[]") + Suffix(s)
    else if s.typ == Some("object") then
      (if s.properties.Properties? then "{ " + Text.Join(FieldTypes(s, |s.properties.entries|), "; ") + " }"
       else "Record<string, any>") + Suffix(s)
    else PrimitiveType(s.typ) + Suffix(s)
  }

  function VariantTypes(s: Schema, n: nat): (r: seq<string>)
    requires s.oneOf.Variants? && n <= |s.oneOf.list|
    ensures |r| == n
    decreases s, 1, n
  {
    if n == 0 then [] else VariantTypes(s, n - 1) + [TsType(s.oneOf.list[n - 1])]
  }

  /** One `name?: type` field of an inline object type. */
  function FieldTypes(s: Schema, n: nat): (r: seq<string>)
    requires s.properties.Properties? && n <= |s.properties.entries|
    ensures |r| == n
    decreases s, 1, n
  {
    if n == 0 then []
    else
      var e := s.properties.entries[n - 1];
      FieldTypes(s, n - 1) + [e.0 + Marker(e.1) + ": " + TsType(e.1)]
  }

  /** The references `convertToTypeScript` meets, in the order it meets
      them: only the branch it takes is visited. */
  function TsRefs(s: Schema): seq<string>
    decreases s, 2
  {
    if s.literal then []
    else if s.ref.Some? then [Text.Basename(s.ref.value)]
    else if s.oneOf.Variants? then VariantTsRefs(s, |s.oneOf.list|)
    else if s.typ == Some("array") then (if s.items.Some? then TsRefs(s.items.value) else [])
    else if s.typ == Some("object") && s.properties.Properties? then FieldTsRefs(s, |s.properties.entries|)
    else []
  }

  function VariantTsRefs(s: Schema, n: nat): seq<string>
    requires s.oneOf.Variants? && n <= |s.oneOf.list|
    decreases s, 1, n
  {
    if n == 0 then [] else VariantTsRefs(s, n - 1) + TsRefs(s.oneOf.list[n - 1])
  }

  function FieldTsRefs(s: Schema, n: nat): seq<string>
    requires s.properties.Properties? && n <= |s.properties.entries|
    decreases s, 1, n
  {
    if n == 0 then [] else FieldTsRefs(s, n - 1) + TsRefs(s.properties.entries[n - 1].1)
  }

  /** The pending list after conversion meets `refs`: a reference to a
      component that is neither written nor pending is appended. */
  function Enqueue(pending: seq<string>, processed: seq<string>, schemas: Option<seq<(string, Schema)>>,
                   refs: seq<string>): seq<string>
    decreases |refs|
  {
    if refs == [] then pending
    else
      var r := refs[0];
      var next := if schemas.Some? && Get(schemas.value, r).Some? && r !in processed && r !in pending
                  then pending + [r] else pending;
      Enqueue(next, processed, schemas, refs[1..])
  }

  /** Every component is written or pending. */
  predicate Covered(schemas: Option<seq<(string, Schema)>>, pending: seq<string>, processed: seq<string>)
  {
    schemas.Some? ==> forall n | n in Keys(schemas.value) :: n in pending || n in processed
  }

  predicate Distinct(s: seq<string>)
  {
    forall i, j | 0 <= i < j < |s| :: s[i] != s[j]
  }

  // ---------------------------------------------------------------------
  // Interfaces

  /** `canGenerateSchema`: not yet written, and every name it references,
      other than its own, already written. */
  predicate Generable(schemas: Option<seq<(string, Schema)>>, processed: seq<string>, name: string)
  {
    name !in processed &&
    forall d | d in References(SchemaOf(schemas, name)) :: d in processed || d == name
  }

  /** The state of the worklist loop: every component is written or
      pending, never both, and none twice; what is written so far is in
      dependency order. */
  predicate Worklist(schemas: Option<seq<(string, Schema)>>, pending: seq<string>, processed: seq<string>)
  {
    schemas.Some? &&
    Distinct(pending) && Distinct(processed) &&
    (forall n | n in pending :: n !in processed) &&
    (forall n | n in Keys(schemas.value) :: n in pending || n in processed) &&
    (forall n | n in pending :: n in Keys(schemas.value)) &&
    (forall n | n in processed :: n in Keys(schemas.value)) &&
    DependencyOrdered(schemas, processed)
  }

  /** No component still to write can be written. */
  predicate NoneGenerable(schemas: Option<seq<(string, Schema)>>, processed: seq<string>)
  {
    schemas.Some? ==> forall n | n in Keys(schemas.value) && n !in processed :: !Generable(schemas, processed, n)
  }

  /** Each written name was generable when it was written, or it was
      written to break a cycle because nothing else was. */
  predicate DependencyOrdered(schemas: Option<seq<(string, Schema)>>, ps: seq<string>)
  {
    forall i | 0 <= i < |ps| :: Generable(schemas, ps[..i], ps[i]) || NoneGenerable(schemas, ps[..i])
  }

  /** One property line of an interface. */
  function PropertyLine(name: string, p: Schema): string
  {
    "  " + name + Marker(p) + ": " + TsType(p) + ";\n"
  }

  function PropertyLines(entries: seq<(string, Schema)>): string
  {
    if entries == [] then ""
    else
      var e := entries[|entries| - 1];
      PropertyLines(entries[..|entries| - 1]) + PropertyLine(e.0, e.1)
  }

  function EntryRefs(entries: seq<(string, Schema)>): seq<string>
  {
    if entries == [] then [] else EntryRefs(entries[..|entries| - 1]) + TsRefs(entries[|entries| - 1].1)
  }

  function Entries(s: Schema): seq<(string, Schema)>
  {
    if !s.literal && s.properties.Properties? then s.properties.entries else []
  }

  /** `generateInterface` for a name not yet written. */
  function InterfaceText(name: string, s: Schema): string
  {
    Opening(name) + PropertyLines(Entries(s)) + "}\n\n"
  }

  function Opening(name: string): string
  {
    "export type " + name + " = {\n"
  }

  /** The interfaces of the written names, in the order they were written. */
  function Interfaces(schemas: Option<seq<(string, Schema)>>, ps: seq<string>): string
  {
    if ps == [] then ""
    else Interfaces(schemas, ps[..|ps| - 1]) + InterfaceText(ps[|ps| - 1], SchemaOf(schemas, ps[|ps| - 1]))
  }

  /** The schema part of the output: present when the description has
      components. */
  function SchemaSection(schemas: Option<seq<(string, Schema)>>, processed: seq<string>): string
  {
    if schemas.Some? then "// Schema \n" + Interfaces(schemas, processed) + "\n" else ""
  }

  const Header: string := "// Generated TypeScript types from Spec specification\n\n"

  // ---------------------------------------------------------------------
  // Response types

  /** The schema of the response's `application/json` content, if any. */
  function JsonSchema(content: seq<(string, MediaType)>): Option<Schema>
  {
    if Get(content, "application/json").Some? then Some(Get(content, "application/json").value.schema) else None
  }

  /** The type name of an operation: its id with every `.` as `_`. */
  function TypeName(operationId: string): (r: string)
    ensures '.' !in r
    ensures |r| == |operationId|
  {
    Text.ReplaceChar(operationId, '.', '_')
  }

  // ---------------------------------------------------------------------
  // Operation ids from paths

  /** `preg_replace('/\{([^}]+)\}/', 'By$1', $path)`: a `{` followed by at
      least one character before the next `}` becomes `By` and those
      characters; scanning resumes after the `}`. */
  function ExpandPlaceholders(s: string): string
    decreases |s|
  {
    if s == [] then ""
    else if s[0] == '{' && '}' in s[1..] && Text.IndexOf(s[1..], '}') > 0 then
      var j := Text.IndexOf(s[1..], '}');
      "By" + s[1..j + 1] + ExpandPlaceholders(s[j + 2..])
    else [s[0]] + ExpandPlaceholders(s[1..])
  }

  /** ASCII upper-casing, as `ucfirst` and `ucwords` do. */
  function Upper(c: char): char
  {
    if 'a' <= c <= 'z' then (c as int - 32) as char else c
  }

  /** `ucwords($s, '_')`: the first character and every one after a `_`
      upper-cased. */
  function UcWords(s: string): (r: string)
    ensures |r| == |s|
    ensures forall i | 0 <= i < |s| :: r[i] == if i == 0 || s[i - 1] == '_' then Upper(s[i]) else s[i]
  {
    seq(|s|, i requires 0 <= i < |s| => if i == 0 || s[i - 1] == '_' then Upper(s[i]) else s[i])
  }

  /** `str_replace($c, '', $s)` for one character. */
  function RemoveChar(s: string, c: char): (r: string)
    ensures c !in r
    ensures forall x | x in r :: x in s
  {
    if s == [] then [] else (if s[0] == c then [] else [s[0]]) + RemoveChar(s[1..], c)
  }

  /** `ucfirst` */
  function UcFirst(s: string): (r: string)
    ensures |r| == |s|
  {
    if s == [] then s else [Upper(s[0])] + s[1..]
  }

  /** `pathToOperationId`: the lower-cased method, then the path with
      placeholders spelled `By<name>`, separators turned into word breaks
      and every word capitalised. */
  function PathToOperationId(path: string, verb: string): (r: string)
    ensures |r| >= |verb| && r[..|verb|] == Command.LowerCase(verb)
  {
    var expanded := ExpandPlaceholders(path);
    var underscored := Text.ReplaceChar(Text.ReplaceChar(expanded, '/', '_'), '-', '_');
    var trimmed := Text.TrimChar(underscored, '_');
    Command.LowerCase(verb) + UcFirst(RemoveChar(UcWords(trimmed), '_'))
  }

  /** The two lines written for a 200 response. */
  function SuccessLines(operationId: string, description: string, json: Option<Schema>): string
  {
    TypeLine(operationId, description, if json.Some? then TsType(json.value) else "void") +
    RouteLine(operationId, description)
  }

  function TypeLine(operationId: string, description: string, tsType: string): string
  {
    "export type " + TypeName(operationId) + " = " + tsType + ";" + " // " + description + "\n"
  }

  function RouteLine(operationId: string, description: string): string
  {
    "export const route_" + TypeName(operationId) + " = '" + operationId + "';" + " // " + description + "\n"
  }

  /** What the writer reads of one response: its status code, its
      description and its content. */
  datatype Outcome = Outcome(status: string, description: string, content: seq<(string, MediaType)>)

  /** What the writer reads of one operation: its id and its responses. */
  datatype Endpoint = Endpoint(operationId: string, responses: Option<seq<Outcome>>)

  /** The lines written for the responses of one operation, in order:
      only a 200 response writes any. */
  function OutcomeLines(operationId: string, os: seq<Outcome>): string
  {
    if os == [] then ""
    else
      var last := os[|os| - 1];
      OutcomeLines(operationId, os[..|os| - 1]) +
      (if last.status == "200" then SuccessLines(operationId, last.description, JsonSchema(last.content)) else "")
  }

  /** The references met converting the 200 responses' JSON schemas. */
  function OutcomeRefs(os: seq<Outcome>): seq<string>
  {
    if os == [] then []
    else
      var last := os[|os| - 1];
      OutcomeRefs(os[..|os| - 1]) +
      (if last.status == "200" && JsonSchema(last.content).Some? then TsRefs(JsonSchema(last.content).value) else [])
  }

  /** `generateApiTypes` of one operation. */
  function ApiTypesText(e: Endpoint): string
  {
    if e.responses.Some? then OutcomeLines(e.operationId, e.responses.value) + "\n" else ""
  }

  function ApiRefs(e: Endpoint): seq<string>
  {
    if e.responses.Some? then OutcomeRefs(e.responses.value) else []
  }

  function MethodsText(methods: seq<(string, Endpoint)>): string
  {
    if methods == [] then ""
    else MethodsText(methods[..|methods| - 1]) + ApiTypesText(methods[|methods| - 1].1)
  }

  /** The route section: the API types of every operation, path by path
      and method by method. */
  function RoutesText(paths: seq<(string, seq<(string, Endpoint)>)>): string
  {
    if paths == [] then ""
    else RoutesText(paths[..|paths| - 1]) + MethodsText(paths[|paths| - 1].1)
  }

  // ---------------------------------------------------------------------
  // Reading the description's objects

  function ResponseObjects(rs: seq<(string, Response)>): set<object>
  {
    set p | p in rs :: p.1 as object
  }

  function OutcomesOf(rs: seq<(string, Response)>): (r: seq<Outcome>)
    reads ResponseObjects(rs)
    ensures |r| == |rs|
    ensures forall i | 0 <= i < |rs| :: r[i] == Outcome(rs[i].0, rs[i].1.description, rs[i].1.content)
  {
    if rs == [] then []
    else
      var last := rs[|rs| - 1];
      assert ResponseObjects(rs[..|rs| - 1]) <= ResponseObjects(rs) by {
        forall p | p in rs[..|rs| - 1] ensures p in rs { }
      }
      OutcomesOf(rs[..|rs| - 1]) + [Outcome(last.0, last.1.description, last.1.content)]
  }

  function OperationObjects(op: Operation): set<object>
    reads op
  {
    {op as object} + (if op.responses.Some? then ResponseObjects(op.responses.value) else {})
  }

  function EndpointOf(op: Operation): Endpoint
    reads OperationObjects(op)
  {
    Endpoint(op.operationId, if op.responses.Some? then Some(OutcomesOf(op.responses.value)) else None)
  }

  function MethodObjects(methods: seq<(string, Operation)>): set<object>
    reads set q | q in methods :: q.1
  {
    set q, o | q in methods && o in OperationObjects(q.1) :: o
  }

  function EndpointsOf(methods: seq<(string, Operation)>): (r: seq<(string, Endpoint)>)
    reads (set q | q in methods :: q.1), MethodObjects(methods)
    ensures |r| == |methods|
  {
    if methods == [] then []
    else
      var last := methods[|methods| - 1];
      assert MethodObjects(methods[..|methods| - 1]) <= MethodObjects(methods) by {
        forall q | q in methods[..|methods| - 1] ensures q in methods { }
      }
      EndpointsOf(methods[..|methods| - 1]) + [(last.0, EndpointOf(last.1))]
  }

  function PathObjects(paths: seq<(string, seq<(string, Operation)>)>): set<object>
    reads set p, q | p in paths && q in p.1 :: q.1
  {
    set p, o | p in paths && o in MethodObjects(p.1) :: o
  }

  /** The paths as the writer reads them. */
  function RoutesOf(paths: seq<(string, seq<(string, Operation)>)>): (r: seq<(string, seq<(string, Endpoint)>)>)
    reads (set p, q | p in paths && q in p.1 :: q.1), PathObjects(paths)
    ensures |r| == |paths|
  {
    if paths == [] then []
    else
      var last := paths[|paths| - 1];
      assert PathObjects(paths[..|paths| - 1]) <= PathObjects(paths) by {
        forall p | p in paths[..|paths| - 1] ensures p in paths { }
      }
      RoutesOf(paths[..|paths| - 1]) + [(last.0, EndpointsOf(last.1))]
  }

  // ---------------------------------------------------------------------
  // The writer

  class Writer {
    var paths: seq<(string, seq<(string, Endpoint)>)>
    var schemas: Option<seq<(string, Schema)>>
    var processed: seq<string>
    var pending: seq<string>

    constructor (spec: Spec)
      ensures paths == old(RoutesOf(OrEmpty(spec.paths))) && schemas == spec.components
      ensures processed == [] && pending == []
    {
      paths := RoutesOf(OrEmpty(spec.paths));
      schemas := spec.components;
      processed := [];
      pending := [];
    }

    /** `output`: the header, the component schemas, then the route
      section. */
    method Output() returns (out: string)
      requires processed == [] && pending == []
      requires schemas.Some? ==> UniqueKeys(schemas.value)
      modifies this
      ensures schemas == old(schemas) && paths == old(paths) && pending == []
      ensures schemas.None? ==> processed == []
      ensures schemas.Some? ==> Distinct(processed) && forall n :: n in processed <==> n in Keys(schemas.value)
      ensures DependencyOrdered(schemas, processed)
      ensures out == Header + SchemaSection(schemas, processed) + "// Route & Response Types\n" + RoutesText(paths)
    {
      var section := "";
      if schemas.Some? {
        var interfaces := WriteSchemas();
        section := "// Schema \n" + interfaces + "\n";
      }
      var routes := WriteRoutes();
      out := Header + section + "// Route & Response Types\n" + routes;
    }

    /** The worklist loop of `output`: every component schema exactly
      once, each after the components it references unless no remaining
      one could be written (a cycle), in which case the first pending one
      is. */
    method WriteSchemas() returns (text: string)
      requires schemas.Some? && UniqueKeys(schemas.value) && processed == [] && pending == []
      modifies this
      ensures schemas == old(schemas) && paths == old(paths) && pending == []
      ensures Distinct(processed) && forall n :: n in processed <==> n in Keys(schemas.value)
      ensures DependencyOrdered(schemas, processed)
      ensures text == Interfaces(schemas, processed)
    {
      KeysLength(schemas.value);
      pending := pending + Keys(schemas.value);
      text := "";
      while pending != []
        invariant schemas == old(schemas) && paths == old(paths)
        invariant Worklist(schemas, pending, processed)
        invariant text == Interfaces(schemas, processed)
        decreases |pending|
      {
        var initialCount := |pending|;
        var found, i := FirstGenerable();
        if found {
          var interface := EmitAt(i);
          text := text + interface;
        }
        if |pending| == initialCount {
          assert NoneGenerable(schemas, processed) by {
            forall n | n in Keys(schemas.value) && n !in processed
              ensures !Generable(schemas, processed, n)
            {
              var j :| 0 <= j < |pending| && pending[j] == n;
            }
          }
          var interface := EmitFirst();
          text := text + interface;
        }
      }
    }

    /** A generable name at index `i` is written, then removed from the
      pending list. */
    method EmitAt(i: nat) returns (interface: string)
      requires Worklist(schemas, pending, processed) && i < |pending|
      requires Generable(schemas, processed, pending[i])
      modifies this
      ensures Worklist(schemas, pending, processed)
      ensures processed == old(processed) + [old(pending)[i]]
      ensures pending == old(pending)[..i] + old(pending)[i + 1..]
      ensures Interfaces(schemas, processed) == Interfaces(schemas, old(processed)) + interface
      ensures schemas == old(schemas) && paths == old(paths)
    {
      var schemaName := pending[i];
      ghost var done, queue := processed, pending;
      interface := GenerateInterface(schemaName, SchemaOf(schemas, schemaName));
      EnqueueKeeps(queue, processed, schemas, EntryRefs(Entries(SchemaOf(schemas, schemaName))));
      DropOne(pending, i);
      pending := pending[..i] + pending[i + 1..];
      Emitted(schemas, done, schemaName);
    }

    /** When nothing pending is generable: the first pending name is
      shifted off the list, then written anyway. */
    method EmitFirst() returns (interface: string)
      requires Worklist(schemas, pending, processed) && pending != []
      requires NoneGenerable(schemas, processed)
      modifies this
      ensures Worklist(schemas, pending, processed)
      ensures processed == old(processed) + [old(pending)[0]]
      ensures pending == old(pending)[1..]
      ensures Interfaces(schemas, processed) == Interfaces(schemas, old(processed)) + interface
      ensures schemas == old(schemas) && paths == old(paths)
    {
      var schemaName := pending[0];
      DropOne(pending, 0);
      pending := pending[1..];
      ghost var done, queue := processed, pending;
      interface := GenerateInterface(schemaName, SchemaOf(schemas, schemaName));
      EnqueueKeeps(queue, processed, schemas, EntryRefs(Entries(SchemaOf(schemas, schemaName))));
      Emitted(schemas, done, schemaName);
    }

    /** The inner `foreach` of the worklist loop: the first pending name
      that can be generated, if any. */
    method FirstGenerable() returns (found: bool, i: nat)
      ensures found ==> i < |pending| && Generable(schemas, processed, pending[i])
      ensures forall j | 0 <= j < (if found then i else |pending|) :: !Generable(schemas, processed, pending[j])
    {
      i := 0;
      while i < |pending|
        invariant 0 <= i <= |pending|
        invariant forall j | 0 <= j < i :: !Generable(schemas, processed, pending[j])
      {
        var ok := CanGenerateSchema(pending[i]);
        if ok {
          return true, i;
        }
        i := i + 1;
      }
      return false, i;
    }

    /** The route section of `output`: the API types of every operation,
      path by path. While every component is written or pending,
      converting their schemas queues nothing. */
    method WriteRoutes() returns (text: string)
      requires Covered(schemas, pending, processed)
      modifies this
      ensures text == RoutesText(paths)
      ensures pending == old(pending) && processed == old(processed)
      ensures schemas == old(schemas) && paths == old(paths)
    {
      text := "";
      var p := 0;
      while p < |paths|
        invariant 0 <= p <= |paths|
        invariant schemas == old(schemas) && paths == old(paths)
        invariant pending == old(pending) && processed == old(processed)
        invariant text == RoutesText(paths[..p])
      {
        var section := WriteMethods(paths[p].0, paths[p].1);
        assert paths[..p + 1][..p] == paths[..p];
        text := text + section;
        p := p + 1;
      }
      assert paths[..p] == paths;
    }

    /** The inner `foreach` of the route section: the API types of every
      method of one path. */
    method WriteMethods(path: string, methods: seq<(string, Endpoint)>) returns (text: string)
      requires Covered(schemas, pending, processed)
      modifies this
      ensures text == MethodsText(methods)
      ensures pending == old(pending) && processed == old(processed)
      ensures schemas == old(schemas) && paths == old(paths)
    {
      text := "";
      var m := 0;
      while m < |methods|
        invariant 0 <= m <= |methods|
        invariant schemas == old(schemas) && paths == old(paths)
        invariant pending == old(pending) && processed == old(processed)
        invariant text == MethodsText(methods[..m])
      {
        EnqueueKeeps(pending, processed, schemas, ApiRefs(methods[m].1));
        var apiTypes := GenerateApiTypes(path, methods[m].0, methods[m].1);
        assert methods[..m + 1][..m] == methods[..m];
        text := text + apiTypes;
        m := m + 1;
      }
      assert methods[..m] == methods;
    }

    /** `convertToTypeScript`: the type, and every referenced component
      not yet written or pending queued. */
    method ConvertToTypeScript(s: Schema) returns (r: string)
      modifies this
      ensures r == TsType(s)
      ensures pending == Enqueue(old(pending), processed, schemas, TsRefs(s))
      ensures processed == old(processed) && schemas == old(schemas) && paths == old(paths)
    {
      r := TsType(s);
      pending := Enqueue(pending, processed, schemas, TsRefs(s));
    }

    /** `canGenerateSchema` */
    method CanGenerateSchema(name: string) returns (ok: bool)
      ensures ok == Generable(schemas, processed, name)
    {
      if name in processed {
        return false;
      }
      var dependencies := References(SchemaOf(schemas, name));
      var i := 0;
      while i < |dependencies|
        invariant 0 <= i <= |dependencies|
        invariant forall j | 0 <= j < i :: dependencies[j] in processed || dependencies[j] == name
      {
        if dependencies[i] !in processed && dependencies[i] != name {
          return false;
        }
        i := i + 1;
      }
      return true;
    }

    /** `generateInterface`: nothing for a name already written; otherwise
      the name is recorded as written and its `export type` produced. */
    method GenerateInterface(name: string, s: Schema) returns (text: string)
      modifies this
      ensures name in old(processed) ==> text == "" && processed == old(processed) && pending == old(pending)
      ensures name !in old(processed) ==> text == InterfaceText(name, s) && processed == old(processed) + [name]
      ensures name !in old(processed) ==> pending == Enqueue(old(pending), processed, schemas, EntryRefs(Entries(s)))
      ensures schemas == old(schemas) && paths == old(paths)
    {
      if name in processed {
        return "";
      }
      processed := processed + [name];
      var lines := "";
      var entries := Entries(s);
      var i := 0;
      while i < |entries|
        invariant 0 <= i <= |entries|
        invariant lines == PropertyLines(entries[..i])
        invariant pending == Enqueue(old(pending), processed, schemas, EntryRefs(entries[..i]))
        invariant processed == old(processed) + [name] && schemas == old(schemas) && paths == old(paths)
      {
        var (propName, propSchema) := entries[i];
        var optional := Marker(propSchema);
        var tsType := ConvertToTypeScript(propSchema);
        EnqueueAppend(old(pending), processed, schemas, EntryRefs(entries[..i]), TsRefs(propSchema));
        assert entries[..i + 1][..i] == entries[..i];
        lines := lines + ("  " + propName + optional + ": " + tsType + ";\n");
        i := i + 1;
      }
      assert entries[..i] == entries;
      text := Opening(name) + lines + "}\n\n";
    }

    /** The body of `generateApiTypes` for the 200 response: the response
      type, `void` without a JSON schema, and the route constant. */
    method SuccessResponse(operationId: string, description: string, json: Option<Schema>) returns (lines: string)
      modifies this
      ensures lines == SuccessLines(operationId, description, json)
      ensures json.Some? ==> pending == Enqueue(old(pending), processed, schemas, TsRefs(json.value))
      ensures json.None? ==> pending == old(pending)
      ensures processed == old(processed) && schemas == old(schemas) && paths == old(paths)
    {
      var tsType := "void";
      if json.Some? {
        tsType := ConvertToTypeScript(json.value);
      }
      lines := TypeLine(operationId, description, tsType) + RouteLine(operationId, description);
    }

    /** `generateApiTypes`: for the 200 response of an operation its type
      and its route constant; the id is the operation's own, which is
      always set. */
    method GenerateApiTypes(path: string, verb: string, op: Endpoint) returns (text: string)
      modifies this
      ensures text == ApiTypesText(op)
      ensures pending == Enqueue(old(pending), processed, schemas, ApiRefs(op))
      ensures processed == old(processed) && schemas == old(schemas) && paths == old(paths)
    {
      var operationId := op.operationId;
      text := "";
      if op.responses.Some? {
        var rs := op.responses.value;
        var i := 0;
        while i < |rs|
          invariant 0 <= i <= |rs|
          invariant text == OutcomeLines(operationId, rs[..i])
          invariant pending == Enqueue(old(pending), processed, schemas, OutcomeRefs(rs[..i]))
          invariant processed == old(processed) && schemas == old(schemas) && paths == old(paths)
        {
          var response := rs[i];
          OutcomesStep(operationId, rs, i);
          if response.status == "200" {
            var json := JsonSchema(response.content);
            var lines := SuccessResponse(operationId, response.description, json);
            if json.Some? {
              EnqueueAppend(old(pending), processed, schemas, OutcomeRefs(rs[..i]), TsRefs(json.value));
            }
            text := text + lines;
          }
          i := i + 1;
        }
        assert rs[..i] == rs;
        text := text + "\n";
      }
    }
  }

  /** One more response: its success lines and its references, if it is
      the 200 one, follow those of the responses before it. */
  lemma OutcomesStep(operationId: string, os: seq<Outcome>, i: nat)
    requires i < |os|
    ensures OutcomeLines(operationId, os[..i + 1]) == OutcomeLines(operationId, os[..i]) +
      (if os[i].status == "200" then SuccessLines(operationId, os[i].description, JsonSchema(os[i].content)) else "")
    ensures os[i].status == "200" && JsonSchema(os[i].content).Some? ==>
      OutcomeRefs(os[..i + 1]) == OutcomeRefs(os[..i]) + TsRefs(JsonSchema(os[i].content).value)
    ensures !(os[i].status == "200" && JsonSchema(os[i].content).Some?) ==> OutcomeRefs(os[..i + 1]) == OutcomeRefs(os[..i])
  {
    assert os[..i + 1][..i] == os[..i];
    var refs := OutcomeRefs(os[..i]);
    assert refs + [] == refs;
  }

  // ---------------------------------------------------------------------
  // What the writer's steps keep

  /** Conversion over two runs of references is conversion over the first,
      then over the second. */
  lemma {:induction false} EnqueueAppend(pending: seq<string>, processed: seq<string>,
                                         schemas: Option<seq<(string, Schema)>>, a: seq<string>, b: seq<string>)
    ensures Enqueue(pending, processed, schemas, a + b) ==
            Enqueue(Enqueue(pending, processed, schemas, a), processed, schemas, b)
    decreases |a|
  {
    if a != [] {
      assert (a + b)[0] == a[0];
      assert (a + b)[1..] == a[1..] + b;
      var r := a[0];
      var next := if schemas.Some? && Get(schemas.value, r).Some? && r !in processed && r !in pending
                  then pending + [r] else pending;
      assert Enqueue(pending, processed, schemas, a) == Enqueue(next, processed, schemas, a[1..]);
      assert Enqueue(pending, processed, schemas, a + b) == Enqueue(next, processed, schemas, a[1..] + b);
      EnqueueAppend(next, processed, schemas, a[1..], b);
    } else {
      assert a + b == b;
    }
  }

  /** While every component is written or pending, conversion queues
      nothing. */
  lemma {:induction false} EnqueueKeeps(pending: seq<string>, processed: seq<string>,
                                        schemas: Option<seq<(string, Schema)>>, refs: seq<string>)
    requires Covered(schemas, pending, processed)
    ensures Enqueue(pending, processed, schemas, refs) == pending
    decreases |refs|
  {
    if refs != [] {
      if schemas.Some? {
        GetSomeIffKey(schemas.value, refs[0]);
      }
      EnqueueKeeps(pending, processed, schemas, refs[1..]);
    }
  }

  /** Conversion only appends, and what it appends is each met reference
      to a component that was neither written nor pending, once. */
  lemma {:induction false} EnqueueAdds(pending: seq<string>, processed: seq<string>,
                                       schemas: Option<seq<(string, Schema)>>, refs: seq<string>)
    ensures var r := Enqueue(pending, processed, schemas, refs);
      pending <= r &&
      (forall n | n in r[|pending|..] :: n in refs && schemas.Some? && n in Keys(schemas.value) && n !in processed) &&
      (Distinct(pending) ==> Distinct(r)) &&
      (forall n | n in refs && schemas.Some? && n in Keys(schemas.value) && n !in processed :: n in r)
    decreases |refs|
  {
    if refs != [] {
      var x := refs[0];
      if schemas.Some? {
        GetSomeIffKey(schemas.value, x);
      }
      var next := if schemas.Some? && Get(schemas.value, x).Some? && x !in processed && x !in pending
                  then pending + [x] else pending;
      EnqueueAdds(next, processed, schemas, refs[1..]);
      var r := Enqueue(pending, processed, schemas, refs);
      assert r == Enqueue(next, processed, schemas, refs[1..]);
      forall n | n in r[|pending|..]
        ensures n in refs && schemas.Some? && n in Keys(schemas.value) && n !in processed
      {
        var k :| 0 <= k < |r[|pending|..]| && r[|pending|..][k] == n;
        if |pending| + k >= |next| {
          assert r[|next|..][|pending| + k - |next|] == n;
          assert n in refs[1..];
        } else {
          assert next == pending + [x] && n == x;
        }
      }
      if Distinct(pending) {
        assert Distinct(next);
      }
      forall n | n in refs && schemas.Some? && n in Keys(schemas.value) && n !in processed
        ensures n in r
      {
        if n == x {
          assert x in next;
          assert next <= r;
        } else {
          assert n in refs[1..];
        }
      }
    }
  }

  /** Dropping one entry of a list without repeats keeps it without
      repeats and loses exactly that entry. */
  lemma DropOne(s: seq<string>, i: nat)
    requires Distinct(s) && i < |s|
    ensures Distinct(s[..i] + s[i + 1..])
    ensures forall n :: n in s[..i] + s[i + 1..] <==> n in s && n != s[i]
  {
    var t := s[..i] + s[i + 1..];
    forall n | n in s && n != s[i] ensures n in t {
      var j :| 0 <= j < |s| && s[j] == n;
      if j < i {
        assert t[j] == n;
      } else {
        assert t[j - 1] == n;
      }
    }
    forall a, b | 0 <= a < b < |t| ensures t[a] != t[b] {
      var a' := if a < i then a else a + 1;
      var b' := if b < i then b else b + 1;
      assert t[a] == s[a'] && t[b] == s[b'];
    }
  }

  /** Writing one more name keeps the dependency order, provided the name
      was generable or nothing was, and adds its interface to the text. */
  lemma Emitted(schemas: Option<seq<(string, Schema)>>, done: seq<string>, name: string)
    requires DependencyOrdered(schemas, done)
    requires Generable(schemas, done, name) || NoneGenerable(schemas, done)
    ensures DependencyOrdered(schemas, done + [name])
    ensures Interfaces(schemas, done + [name]) == Interfaces(schemas, done) + InterfaceText(name, SchemaOf(schemas, name))
  {
    var ps := done + [name];
    assert ps[..|done|] == done;
    forall i | 0 <= i < |ps|
      ensures Generable(schemas, ps[..i], ps[i]) || NoneGenerable(schemas, ps[..i])
    {
      if i < |done| {
        assert ps[..i] == done[..i];
        assert ps[i] == done[i];
      }
    }
  }
}
