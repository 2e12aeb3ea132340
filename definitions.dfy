/** The containers an API description is assembled in: a content item, a
    response, an operation and the whole description. Each is an object
    whose keyed maps its methods update in place; fields the PHP classes
    create on first write are `Option`s that start as `None`. Every update
    method returns the object itself, so calls can be chained. */
module Definitions {
  import opened Wrappers
  import opened OrderedMaps
  import opened Schemas

  /** One named example: the source stores `['value' => $value]`, where
      the value is a string-keyed map of strings. */
  datatype Example = Example(value: seq<(string, string)>)

  /** What a response or request holds for one content type. */
  datatype MediaType = MediaType(schema: Schema, examples: Option<seq<(string, Example)>>)

  /** A path, query or form parameter of an operation. */
  datatype Parameter = Parameter(name: string, location: string, required: bool, schema: Schema, description: string)

  /** A schema together with the examples to publish for one content type. */
  class ContentItem {
    var contentType: string
    var schema: Schema
    var examples: seq<(string, Example)>

    constructor (contentType: string, schema: Schema)
      ensures this.contentType == contentType && this.schema == schema && examples == []
    {
      this.contentType := contentType;
      this.schema := schema;
      examples := [];
    }

    /** `putExample`: `examples[name]['value'] = value`. */
    method PutExample(name: string, value: seq<(string, string)>) returns (self: ContentItem)
      modifies this
      ensures examples == Put(old(examples), name, Example(value))
      ensures contentType == old(contentType) && schema == old(schema)
      ensures self == this
    {
      examples := Put(examples, name, Example(value));
      self := this;
    }
  }

  /** The content-type entry after `putContent`: the schema is always
      written; the examples only when there are some, and otherwise the
      entry keeps whatever examples it had. */
  function ContentEntry(prior: Option<MediaType>, schema: Schema, examples: seq<(string, Example)>): MediaType
  {
    MediaType(schema, if |examples| > 0 then Some(examples) else ExamplesOf(prior))
  }

  /** The examples an entry that may not exist holds. */
  function ExamplesOf(entry: Option<MediaType>): Option<seq<(string, Example)>>
  {
    if entry.Some? then entry.value.examples else None
  }

  function PutContentInto(content: seq<(string, MediaType)>, contentType: string, schema: Schema, examples: seq<(string, Example)>): seq<(string, MediaType)>
  {
    Put(content, contentType, ContentEntry(Get(content, contentType), schema, examples))
  }

  /** After `putContent`, the content type reads back the new schema; its
      examples are the item's when it has any and the previous ones
      otherwise; every other content type reads as before; and a content
      type not present before is added at the end. */
  lemma PutContentSpec(content: seq<(string, MediaType)>, contentType: string, schema: Schema,
                       examples: seq<(string, Example)>, other: string)
    ensures var r := PutContentInto(content, contentType, schema, examples);
      Get(r, contentType).Some? && Get(r, contentType).value.schema == schema &&
      (|examples| > 0 ==> Get(r, contentType).value.examples == Some(examples)) &&
      (|examples| == 0 ==> Get(r, contentType).value.examples == ExamplesOf(Get(content, contentType))) &&
      (other != contentType ==> Get(r, other) == Get(content, other)) &&
      Keys(r) == (if contentType in Keys(content) then Keys(content) else Keys(content) + [contentType])
  {
    var entry := ContentEntry(Get(content, contentType), schema, examples);
    GetPut(content, contentType, entry, contentType);
    GetPut(content, contentType, entry, other);
    KeysPut(content, contentType, entry);
  }

  /** A response: a description and its content by content type. */
  class Response {
    var description: string
    var content: seq<(string, MediaType)>

    constructor (description: string)
      ensures this.description == description && content == []
    {
      this.description := description;
      content := [];
    }

    /** `putContent` */
    method PutContent(item: ContentItem) returns (self: Response)
      modifies this
      ensures content == PutContentInto(old(content), item.contentType, item.schema, item.examples)
      ensures description == old(description)
      ensures self == this
    {
      content := PutContentInto(content, item.contentType, item.schema, item.examples);
      self := this;
    }
  }

  /** One operation of the description. */
  class Operation {
    var operationId: string
    var summary: string
    var description: string
    var responses: Option<seq<(string, Response)>>
    var parameters: Option<seq<Parameter>>
    /** `requestBody['content'][contentType]['schema']`, by content type. */
    var requestBody: Option<seq<(string, Schema)>>
    var tags: Option<seq<string>>

    constructor (operationId: string)
      ensures this.operationId == operationId && summary == "" && description == ""
      ensures responses.None? && parameters.None? && requestBody.None? && tags.None?
    {
      this.operationId := operationId;
      summary := "";
      description := "";
      responses := None;
      parameters := None;
      requestBody := None;
      tags := None;
    }

    /** `putResponse`: `responses[code] = response`. */
    method PutResponse(code: string, response: Response) returns (self: Operation)
      modifies this
      ensures responses == Some(Put(OrEmpty(old(responses)), code, response))
      ensures operationId == old(operationId) && summary == old(summary) && description == old(description)
      ensures parameters == old(parameters) && requestBody == old(requestBody) && tags == old(tags)
      ensures self == this
    {
      responses := Some(Put(OrEmpty(responses), code, response));
      self := this;
    }

    /** `putParameters` replaces the whole list. */
    method PutParameters(list: seq<Parameter>) returns (self: Operation)
      modifies this
      ensures parameters == Some(list)
      ensures operationId == old(operationId) && summary == old(summary) && description == old(description)
      ensures responses == old(responses) && requestBody == old(requestBody) && tags == old(tags)
      ensures self == this
    {
      parameters := Some(list);
      self := this;
    }

    /** `putRequestBody`: `requestBody['content'][contentType]['schema'] = schema`. */
    method PutRequestBody(contentType: string, schema: Schema) returns (self: Operation)
      modifies this
      ensures requestBody == Some(Put(OrEmpty(old(requestBody)), contentType, schema))
      ensures operationId == old(operationId) && summary == old(summary) && description == old(description)
      ensures responses == old(responses) && parameters == old(parameters) && tags == old(tags)
      ensures self == this
    {
      requestBody := Some(Put(OrEmpty(requestBody), contentType, schema));
      self := this;
    }

    /** `setTags` replaces the tag list. */
    method SetTags(list: seq<string>) returns (self: Operation)
      modifies this
      ensures tags == Some(list)
      ensures operationId == old(operationId) && summary == old(summary) && description == old(description)
      ensures responses == old(responses) && parameters == old(parameters) && requestBody == old(requestBody)
      ensures self == this
    {
      tags := Some(list);
      self := this;
    }
  }

  /** A map field that does not exist yet reads as the empty map. */
  function OrEmpty<T>(m: Option<seq<T>>): seq<T>
  {
    if m.Some? then m.value else []
  }

  /** Writing one key of a keyed field that may not exist yet: the key
      reads back the value, every other key reads as before, and the field
      exists afterwards whether or not it did. */
  lemma PutKeyedSpec<V>(m: Option<seq<(string, V)>>, key: string, v: V, other: string)
    ensures Get(Put(OrEmpty(m), key, v), key) == Some(v)
    ensures other != key ==> Get(Put(OrEmpty(m), key, v), other) == (if m.Some? then Get(m.value, other) else None)
  {
    GetPut(OrEmpty(m), key, v, key);
    GetPut(OrEmpty(m), key, v, other);
  }

  /** `paths[path][verb] = operation` on the two-level map. */
  function PutPathInto(paths: seq<(string, seq<(string, Operation)>)>, path: string, verb: string, op: Operation): seq<(string, seq<(string, Operation)>)>
  {
    Put(paths, path, Put(MethodsOf(paths, path), verb, op))
  }

  /** The operations under a path, by method; none when the path is absent. */
  function MethodsOf(paths: seq<(string, seq<(string, Operation)>)>, path: string): seq<(string, Operation)>
  {
    var methods := Get(paths, path);
    if methods.Some? then methods.value else []
  }

  /** After `putPath`, the path and method read back the operation; the
      other methods under that path and every other path are kept. */
  lemma PutPathSpec(paths: seq<(string, seq<(string, Operation)>)>, path: string, verb: string, op: Operation,
                    otherPath: string, otherMethod: string)
    ensures var r := PutPathInto(paths, path, verb, op);
      Get(r, path).Some? && Get(Get(r, path).value, verb) == Some(op) &&
      (otherMethod != verb ==> Get(Get(r, path).value, otherMethod) == Get(MethodsOf(paths, path), otherMethod)) &&
      (otherPath != path ==> Get(r, otherPath) == Get(paths, otherPath))
  {
    var inner := MethodsOf(paths, path);
    var written := Put(inner, verb, op);
    GetPut(paths, path, written, path);
    GetPut(paths, path, written, otherPath);
    GetPut(inner, verb, op, verb);
    GetPut(inner, verb, op, otherMethod);
  }

  /** The whole description: its paths and its component schemas, both
      absent until first written. */
  class Spec {
    var paths: Option<seq<(string, seq<(string, Operation)>)>>
    var components: Option<seq<(string, Schema)>>

    constructor ()
      ensures paths.None? && components.None?
    {
      paths := None;
      components := None;
    }

    /** `putPath`: `paths[path][verb] = operation`. */
    method PutPath(path: string, verb: string, op: Operation) returns (self: Spec)
      modifies this
      ensures paths == Some(PutPathInto(OrEmpty(old(paths)), path, verb, op))
      ensures components == old(components)
      ensures self == this
    {
      paths := Some(PutPathInto(OrEmpty(paths), path, verb, op));
      self := this;
    }
  }
}
