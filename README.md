# laravel-type-generator, modelled in Dafny

This project models the core of laravel-type-generator, a Laravel package
that reads an application's routes, controllers, form requests, Eloquent
models and API resources, and describes them as an OpenAPI-like document. A
writer then turns that document into TypeScript types for Inertia front ends.

The model follows the package's own parts:

- **Schemas** (`schemas.dfy`, `paginators.dfy`): the schema nodes (`Schema`,
  `StringSchema`, `ObjectSchema`, `ArraySchema`, `RefSchema`, `OneOfSchema`,
  `CustomSchema`) and the five paginator envelopes. Each is a node of one
  record datatype whose fields are optional. A node read as a plain PHP array
  is marked `literal`.
- **Registry** (`registry.dfy`): `SchemaHelper` as a class `SchemaRegistry`.
  - Resolvers wait in a pending map and are drained into the resolved map.
  - `mergeSchemas` and `containsBinaryString` are functions over nodes.
- **Definitions** (`definitions.dfy`): `ContentItem`, `Response`, `Operation`
  and `Spec` as classes whose methods update their maps in place.
- **CodeHelper** (`code_helper.dfy`, `use_imports.dfy`): the import table of
  a file, the extraction of literal values from expressions, and the
  rendering of type nodes as text.
- **Class names** (`class_names.dfy`): `getClassFullname`.
- **Classification** (`classify.dfy`, `model_helper.dfy`):
  - `DocBlockHelper.parseTagType`, `ModelHelper.parseModel` and
    `ResourceHelper.parseResource`, as mutually recursive functions;
  - they return a value and the registrations they made, or an error.
- **Class parsing** (`class_parser.dfy`): `ClassHelper.parseClass`.
- **Command** (`command.dfy`): the decisions of `GenerateTypeCommand`:
  - route filtering and grouping;
  - the operation id and tags;
  - parameters, request bodies and query parameters;
  - return types and paginators;
  - the responses.
- **Inertia writer** (`inertia.dfy`): the `Inertia` writer as a class, with its
  dependency-ordered worklist of component names, TypeScript conversion,
  route constants and `pathToOperationId`.

The `*_lemmas.dfy` files state what these operations promise, across calls.

Everything outside the package's own code is an input of the model:

- PHP reflection, phpDocumentor doc blocks, PhpParser syntax trees, the
  database column catalogue, class existence and the inflector reach the model
  through an `Env` value.
- The routes and the configuration are plain values.

## Model

| member | source | states |
|---|---|---|
| CodeHelper.ExtractScalarValue | src/Helpers/CodeHelper.php:202-215 | a value comes back exactly for string, integer and float literals and constant names; a constant reads as its name |
| CodeHelper.ExtractStringValue | src/Helpers/CodeHelper.php:158-164 | a value comes back exactly for a string literal |
| CodeHelper.ExtractArgumentValue | src/Helpers/CodeHelper.php:141-156 | `X` for `X::class`, the string for a string literal, an integer result exactly for an integer literal, `$name` for a variable, `unknown` for every node of no handled kind |
| CodeHelper.ReadersAgree | src/Helpers/CodeHelper.php:141-215 | the three readers give the same value for a string literal, and the argument and scalar readers agree on an integer literal |
| CodeHelper.ExtractArrayValues | src/Helpers/CodeHelper.php:166-180 | the loop returns the string-literal elements of an array node, nothing for any other node |
| CodeHelper.StringItemsExact | src/Helpers/CodeHelper.php:166-180 | a string is extracted iff some element is a string literal with that value; no more values than elements |
| CodeHelper.ExtractAssocArrayValues | src/Helpers/CodeHelper.php:182-200 | the loop returns the fold of `$values[$key] = $value` over elements with a scalar key |
| CodeHelper.AssocLastWins | src/Helpers/CodeHelper.php:189-197 | each key reads back the value of the last element carrying it |
| CodeHelper.ParserUnionRendersUnknown | src/Helpers/CodeHelper.php:217-234 | as written, the parser's `int\|string` union node renders as `unknown` |
| CodeHelper.TypeStringAsWritten | src/Helpers/CodeHelper.php:217-234 | as written, a name renders as itself, a parser union or any other node as `unknown`, and a nullable type ends in `\|null` |
| CodeHelper.TypeString | src/Helpers/CodeHelper.php:217-234 | a name renders as itself, an unknown node as `unknown`, and a nullable type ends in `\|null` |
| CodeHelper.RenderingsAgree | src/Helpers/CodeHelper.php:217-234 | the rendering as written and the corrected one agree on every node without a parser union |
| CodeHelper.UnionRoundTrip | src/Helpers/CodeHelper.php:223-228 | a rendered union of plain names splits back on `\|` into the names, in order |
| CodeHelper.NullableRoundTrip | src/Helpers/CodeHelper.php:229-231 | `?Name` renders as `Name\|null` and splits back into the name and `null` |
| UseImports.HeadStopsAtClass | src/Helpers/CodeHelper.php:43-54 | only the text before the first `class` is scanned, whatever follows |
| UseImports.NoContinuationLeft | src/Helpers/CodeHelper.php:57 | after joining split namespaces no backslash is followed by a newline |
| UseImports.JoinWithoutNewline | src/Helpers/CodeHelper.php:57 | text without a newline is left unchanged by the join |
| UseImports.CollapseClean | src/Helpers/CodeHelper.php:59 | after collapsing, every whitespace is a plain space and no two spaces are adjacent |
| UseImports.CollapseIdentity | src/Helpers/CodeHelper.php:59 | text already clean is unchanged |
| UseImports.UseBlocks | src/Helpers/CodeHelper.php:61 | every matched `use` body is non-empty and has no semicolon |
| UseImports.UseStatement | src/Helpers/CodeHelper.php:61 | a single `use X;` yields exactly the body `X` |
| UseImports.JoinSplitParts | src/Helpers/CodeHelper.php:67 | splitting at the commas outside braces loses nothing: joining the pieces with commas restores the statement |
| UseImports.SplitPartsPlain | src/Helpers/CodeHelper.php:67 | with no braces every comma splits, as `explode` would |
| UseImports.SplitPartsGroup | src/Helpers/CodeHelper.php:67 | a statement whose commas all lie inside its final group is one piece |
| UseImports.ClosesFirstAtGroupEnd | src/Helpers/CodeHelper.php:67 | the lookahead `(?![^{]*})` rejects a comma followed by `}` before any `{` |
| UseImports.GroupMatch | src/Helpers/CodeHelper.php:72 | a match splits the clause into a non-empty prefix, `\{`, a non-empty inner text and `}` |
| UseImports.SplitAs | src/Helpers/CodeHelper.php:77-78 | no split exactly when ` as ` occurs nowhere, in any letter case |
| UseImports.GetImports | src/Helpers/CodeHelper.php:40-101 | the loops produce the import map of every clause in order, without duplicate keys |
| UseImports.AddBlock | src/Helpers/CodeHelper.php:67-97 | the clause loop merges each clause's entries into the map |
| UseImports.AddPart | src/Helpers/CodeHelper.php:69-96 | one clause: grouped, aliased or simple entries merged into the map |
| UseImports.AddGroup | src/Helpers/CodeHelper.php:74-83 | the group loop merges one entry per name |
| UseImports.ImportsLastWins | src/Helpers/CodeHelper.php:79-95 | a later entry for a short name overwrites an earlier one |
| UseImportForms.LastSegmentSuffix | src/Helpers/CodeHelper.php:93-94 | `end(explode('\\', ...))` is a backslash-free suffix that is the whole name or follows a backslash |
| UseImportForms.SimpleImport | src/Helpers/CodeHelper.php:90-96 | `use A\B\C;` maps `C` to `A\B\C` |
| UseImportForms.AliasedImport | src/Helpers/CodeHelper.php:85-89 | `use A\B as Alias;` maps `Alias` to `A\B` |
| UseImportForms.GroupMatchOf | src/Helpers/CodeHelper.php:72 | the grouped form is recognised with its base and inner text |
| UseImportForms.GroupedImport | src/Helpers/CodeHelper.php:72-84 | a group maps each comma-separated name under its base |
| UseImportForms.PlainGroupName | src/Helpers/CodeHelper.php:80-82 | a group name maps to itself under the base, with or without the space after the comma |
| UseImportForms.AliasedGroupName | src/Helpers/CodeHelper.php:77-79 | `Name as Alias` in a group maps the alias to the name under the base |
| UseImportForms.GroupedPair | src/Helpers/CodeHelper.php:72-84 | `use Base\{Name, Other as Alias};` maps `Name` and `Alias`, in that order |
| UseImportForms.SingleUseBlocks | src/Helpers/CodeHelper.php:43-61 | a head holding one `use` statement yields that clause |
| UseImportForms.SingleUseFile | src/Helpers/CodeHelper.php:40-101 | a file whose head is one plain `use` statement imports exactly that name |
| ClassNames.GetClassFullname | src/Helpers/ClassHelper.php:156-173 | a resolved name is the imported one or names an existing class |
| ClassNames.ResolutionOrder | src/Helpers/ClassHelper.php:156-173 | the import map wins, then the name as written, then the name in the namespace; failure exactly when none applies |
| ClassNames.ResolvesImportedName | src/Helpers/ClassHelper.php:161-164 | in a file with one `use` of a qualified name, its last segment resolves to it whatever classes exist |
| ModelHelper.ScanSettings | src/Helpers/ModelHelper.php:62-110 | the loop over the class declarations yields exactly the settings the first pass defines: the `$table`, `$connection`, `$hidden` and `$casts` read from properties and setting methods |
| ModelHelper.ScanProperties | src/Helpers/ModelHelper.php:65-86 | the property callback over a declaration's properties: `connection` and `table` take a string default, `hidden` and `casts` merge their array defaults |
| ModelHelper.ScanMethods | src/Helpers/ModelHelper.php:88-109 | the method callback: only public, non-static `casts`, `hidden`, `getCasts`, `getHidden`, `getTable` and `getConnectionName` are read, each return merged or assigned by name |
| ModelHelper.HiddenGrows | src/Helpers/ModelHelper.php:77-79 | hidden names only accumulate: reading more declarations never un-hides a name |
| ModelHelper.HiddenGrowsProperties | src/Helpers/ModelHelper.php:77-79 | the property callback only adds hidden names |
| ModelHelper.HiddenGrowsMethods | src/Helpers/ModelHelper.php:101-102 | the method callback only adds hidden names |
| ModelHelper.HiddenPropertyHides | src/Helpers/ModelHelper.php:77-79 | a `$hidden` property listing string literals hides each of them, whatever else the model declares before or after |
| ModelHelper.ReadNodesAppend | src/Helpers/ModelHelper.php:62-110 | reading two runs of declarations is reading the first and then the second from where it left off |
| ModelHelper.BeforeColon | src/Helpers/ModelHelper.php:160 | the part before the first `:` is a prefix of the type and holds no `:` |
| ModelHelper.ColumnSchema | src/Helpers/ModelHelper.php:157-201 | a column that gives a schema gives a non-literal one carrying the column's nullable flag, typed string, integer, number or boolean |
| ModelHelper.MappedSchema | src/Helpers/ModelHelper.php:167-201 | a mapped type with a case gives a schema with the given nullable flag and one of the four JSON types |
| ModelHelper.MapColumns | src/Helpers/ModelHelper.php:150-202 | the column loop computes the properties that the column pass defines |
| ModelHelper.ColumnPropertiesSpec | src/Helpers/ModelHelper.php:150-202 | for distinct column names, each column's name reads back its schema unless it is hidden or has no case; every other name keeps its earlier value |
| ModelHelper.HiddenColumnsDropped | src/Helpers/ModelHelper.php:153-155 | a hidden name never becomes a column property |
| ModelHelper.ColumnPropertiesNames | src/Helpers/ModelHelper.php:150-202 | every name the column loop lists is the name of a column |
| ModelHelper.CastOverridesColumnType | src/Helpers/ModelHelper.php:162-163 | a cast decides the schema, whatever type the database reports |
| ModelHelper.TypeBeforeColon | src/Helpers/ModelHelper.php:160 | only the part of a column type before the first `:` counts |
| ModelHelper.ColumnTypeMapping | src/Helpers/ModelHelper.php:123-197 | without a cast, each mapped database type gives its schema: string types a string, integer types an integer, decimal types a number, boolean types a boolean, date types a date-time string |
| ModelHelper.CastTypeMapping | src/Helpers/ModelHelper.php:162-197 | a cast to an integer, boolean or date type gives that schema whatever the column's type; a cast to `json`/`jsonb` gives none |
| ModelHelper.JsonColumnsDropped | src/Helpers/ModelHelper.php:146-147 | a `json` or `jsonb` column maps to `array`, which has no case, so it gives no property |
| ModelHelper.FindRelationCall | src/Helpers/ModelHelper.php:251-306 | a relation found in the returned expressions is one of them, a `$this->...` call of a known relation method of that kind; when the first returned expression is a relation call whose class has no `RELATION_TYPE` entry, the search throws `Undefined array key` naming that class |
| ModelHelper.RelationSchema | src/Helpers/ModelHelper.php:286-298 | a relation gives a nullable property referring to the related model, directly for a single relation and through an array exactly for a multiple one |
| ModelHelper.FirstRelationCallDecides | src/Helpers/ModelHelper.php:250-304 | the first `$this->…` call of a listed relation method decides and earlier returns count for nothing: a class without `RELATION_TYPE` entry throws; no argument or a `$`-prefixed first argument gives nothing; otherwise the first argument's text is resolved in the class, and the relation names that full name and its last segment with the listed kind |
| ModelHelper.NoRelationCall | src/Helpers/ModelHelper.php:250-262 | without a `$this->…` call of a listed relation method among the returns there is no relation |
| ModelHelper.ClassArgumentRelation | src/Helpers/ModelHelper.php:265-278 | `return $this->relation(X::class)` relates the method to `X` resolved in the class, named by the last segment of its full name |
| ModelHelper.UntypedRelationCalls | src/Helpers/ModelHelper.php:25-50 | `$this->morphToMany(...)` and `$this->morphedByMany(...)` are relation calls whose classes `MorphToMany` and `MorphedByMany` have no kind |
| ModelHelper.LookUpCallName | src/Helpers/ModelHelper.php:45-46 | the relation methods `morphToMany` and `morphedByMany` read back their relation classes |
| ModelHelper.UnlistedRelationKind | src/Helpers/ModelHelper.php:25-36 | `RELATION_TYPE` lists neither `MorphToMany` nor `MorphedByMany` |
| Classifier.NonNull | src/Helpers/DocBlockHelper.php:265-270 | the members of a compound type other than `null`: none is `null`, and every other member is kept |
| Classifier.ShapeKeys | src/Helpers/DocBlockHelper.php:282-283 | the keys of an array shape, one per item, in order |
| Classifier.PaginatorRef | src/Helpers/DocBlockHelper.php:349-438 | a paginator collection succeeds exactly when its inner type names a class, registers the envelope job under that name plus the envelope's suffix, and is a non-nullable reference to it; an object type without class name throws `getName()` on null |
| Classifier.LastTagClass | src/Helpers/ResourceHelper.php:27-30 | the tag loop succeeds exactly when every tag's type has a class name (an object or a collection type), gives nothing exactly for no tags, and otherwise the last tag's class |
| Classifier.ParseTagType | src/Helpers/DocBlockHelper.php:37-451 | `null`, `$this`, unknown types and a class-less object throw; scalars and classes keep the nullable flag; a compound is a OneOf with one variant per non-null member, nullable exactly when `null` is a member |
| Classifier.ParseMembers | src/Helpers/DocBlockHelper.php:265-271 | one schema per non-null member of the compound |
| Classifier.ParseEntries | src/Helpers/DocBlockHelper.php:282-290 | the entries carry the shape's keys in order |
| Classifier.ParseObject | src/Helpers/DocBlockHelper.php:56-259 | a class type comes out with the nullable flag it is classified with |
| Classifier.ParseResourceClass | src/Helpers/DocBlockHelper.php:77-244 | a resource is a reference to its own short name with the given flag, and its component is the last thing registered; without a usable `@return` tag the attribute scan runs as written, so a file declaring any method throws the method callback's `TypeError` (see `ClassifierLemmas.ResourceScanThrows`) |
| Classifier.ScannedAttributesAsWritten | src/Helpers/DocBlockHelper.php:117-148 | the scan with the callbacks as written throws the `TypeError` of the un-imported `ClassMethod` parameter exactly when a class node of the file declares a method; otherwise it reads the same names as the corrected scan |
| Classifier.ParseResource | src/Helpers/ResourceHelper.php:14-65 | with the backing model chosen as the source writes it, a resource without a backing model throws `Cannot understand which model class of resource` and its name, and one with `@property` tags and no `@mixin` throws `Undefined variable $mixinTag` |
| Classifier.FilterAttributes | src/Helpers/ResourceHelper.php:58-62 | earlier names keep their places: the filter only overwrites or appends |
| Classifier.ParseModel | src/Helpers/ModelHelper.php:52-318 | a parsed model is an object carrying the nullable flag it was asked for |
| Classifier.ParseCollection | src/Helpers/DocBlockHelper.php:307-444 | a collection whose class cannot be located throws, and so does one of a class no rule knows, with the collection's name in the message |
| Classifier.Relationships | src/Helpers/ModelHelper.php:210-309 | when no method is a relation candidate the pass finds no relationship and registers nothing; a first candidate that reflection does not know throws `Method <class>::<name>() does not exist` |
| Classifier.MethodRelation | src/Helpers/ModelHelper.php:210-300 | a candidate method that reflection does not know throws `getMethod`'s `Method <class>::<name>() does not exist`, naming the model's full name |
| Classifier.DocRelation | src/Helpers/ModelHelper.php:229-248 | once a relation `@return` tag has been classified, a later tag cannot take the relationship away |
| ClassifierLemmas.ScalarTypes | src/Helpers/DocBlockHelper.php:39-55 | string, int, float and bool become the matching JSON type with the given flag, `mixed` a non-nullable string; none registers anything |
| ClassifierLemmas.ObjectTypes | src/Helpers/DocBlockHelper.php:56-259 | a `DateTimeInterface` is a date-time string, an uploaded file a binary string, and any other class that is not a resource a reference carrying the flag, with the class registered under the name as written |
| ClassifierLemmas.ResourceTypes | src/Helpers/DocBlockHelper.php:77-244 | a resource class is always a reference to its own component, registered last |
| ClassifierLemmas.NullableScalarIsOneOf | src/Helpers/DocBlockHelper.php:261-276 | `string\|null` is a nullable OneOf with one non-nullable string variant, not a nullable string |
| ClassifierLemmas.ArrayTypes | src/Helpers/DocBlockHelper.php:293-300 | `T[]` succeeds exactly when `T` does as non-nullable, and is a non-nullable array of it with the same registrations |
| ClassifierLemmas.ArrayShapeKeys | src/Helpers/DocBlockHelper.php:277-292 | an array shape is a non-nullable object whose property names are exactly the shape's keys, in the shape's order when no key repeats |
| ClassifierLemmas.MergeDistinct | src/Helpers/SchemaHelper.php:12-24 | merging distinct keys absent from the target appends them in order |
| ClassifierLemmas.PaginatorOrder | src/Helpers/DocBlockHelper.php:349-444 | for a collection that is no resource, array-like collection or relation: the data paginator, then length-aware before simple, then the data cursor paginator, then the cursor paginator; anything else throws |
| ClassifierLemmas.CursorEnvelopesShareName | src/Helpers/DocBlockHelper.php:405-438 | both cursor envelopes are referenced and registered under the same name |
| ClassifierLemmas.ResourceModelChoice | src/Helpers/ResourceHelper.php:19-48 | the backing model is the last `@mixin`; without one the last `@property`; without one the last `@property-read` |
| ClassifierLemmas.ResourceModelChoiceAsWritten | src/Helpers/ResourceHelper.php:19-48 | as written, the backing model is the last `@mixin`; without one any `@property` tag throws `Undefined variable $mixinTag`; without one the last `@property-read` |
| ClassifierLemmas.CollectionTagNamesModel | src/Helpers/ResourceHelper.php:40-46 | a `@property-read` tag of a collection type names that collection class as the backing model |
| ClassifierLemmas.UnnamedTagThrows | src/Helpers/ResourceHelper.php:27-30 | an object tag without a class name and a scalar tag both throw |
| ClassifierLemmas.PropertyFallbackDiverges | src/Helpers/ResourceHelper.php:32-38 | with only a `@property` tag the loop as written throws, while the corrected choice names the tagged model |
| ClassifierLemmas.ModelNameAgreesWithoutProperty | src/Helpers/ResourceHelper.php:19-48 | the written and the corrected choice agree on every doc comment without `@property` |
| ClassifierLemmas.ResourceWithoutModel | src/Helpers/ResourceHelper.php:51-53 | a resource with no doc comment, or none of the three tags, throws |
| ClassifierLemmas.PropertyOnlyResourceThrows | src/Helpers/ResourceHelper.php:32-38 | a resource with `@property` tags and no `@mixin` throws `Undefined variable $mixinTag` before any model is parsed |
| ClassifierLemmas.ResourceUsesModel | src/Helpers/ResourceHelper.php:55-64 | once the choice as written names a model, it is parsed with the resource's own flag, and the resource keeps exactly the model's properties that it lists, with the model's registrations |
| ClassifierLemmas.FilterAttributesSpec | src/Helpers/ResourceHelper.php:58-62 | a listed name the model has maps to the model's schema, any other name keeps its earlier value, and no earlier name is lost |
| ClassifierLemmas.FilterAttributesOrder | src/Helpers/ResourceHelper.php:58-62 | no name appears twice, and distinct listed names all present in the model come out exactly in the listed order |
| ClassifierLemmas.MethodRelationKeeps | src/Helpers/ModelHelper.php:210-309 | one method of the relationship pass adds at most its own name and leaves every other relationship as it was |
| ClassifierLemmas.RelationshipNames | src/Helpers/ModelHelper.php:213-224 | static, private or parameterised methods, accessors, mutators, scopes, magic methods and hidden names never become relationships |
| ClassifierLemmas.ModelHidesHidden | src/Helpers/ModelHelper.php:153-155 | a hidden name is never among a model's properties, neither as a column nor as a relationship |
| ClassifierLemmas.ModelRequiresColumns | src/Helpers/ModelHelper.php:313-317 | the columns come first and are exactly the required names; the relationships follow them |
| ClassifierLemmas.DefaultTable | src/Helpers/ModelHelper.php:112-115 | without a table setting, the table comes from the short class name |
| ClassifierLemmas.MethodRelationFromCode | src/Helpers/ModelHelper.php:250-300 | a method without doc comment that returns a known relation call gets that relationship, and registers the related model under its short name as a non-nullable class |
| ClassifierLemmas.RelationFromCode | src/Helpers/ModelHelper.php:210-300 | such a candidate method is the only relationship of a one-method model |
| ClassifierLemmas.MethodRelationCodeError | src/Helpers/ModelHelper.php:249-276 | for a method without doc comment, an exception while reading its returned relation call is the method's exception |
| ClassifierLemmas.MorphToManyThrows | src/Helpers/ModelHelper.php:261-266 | a method without doc comment returning `$this->morphToMany(...)` throws `Undefined array key` naming `MorphToMany` |
| ClassifierLemmas.ScannedAttributesCollects | src/Helpers/DocBlockHelper.php:203-226 | the corrected scan reads every key returned by the listed public, non-static method of any class node |
| ClassifierLemmas.ResourceScanThrows | src/Helpers/DocBlockHelper.php:117-148 | a resource whose listed method has no usable `@return` tag, in a file declaring any method, throws the method callback's `TypeError` |
| ClassifierLemmas.ToArrayScanThrows | src/Helpers/DocBlockHelper.php:203-226 | for a file declaring `toArray()` returning `['id' => 1]`, the corrected scan reads `id` while the scan as written throws |
| Schemas.TypedSchema | src/Definitions/Schemas/Schema.php:10-18 | a plain node has the given type and nullable flag, and carries `nullable` only when it is set |
| Schemas.StringSchema | src/Definitions/Schemas/StringSchema.php:10-20 | a string node with the given format, carrying `nullable` only when it is set |
| Schemas.ObjectSchema | src/Definitions/Schemas/ObjectSchema.php:11-26 | an object node with the given properties, carrying `required` only when given and `nullable` only when set |
| Schemas.NodeClass | src/Definitions/Schemas/Schema.php:3-8 | the class a node is named by lies in the package's schema namespace |
| Schemas.NodeClassOfConstructors | src/Definitions/Schemas/Schema.php:8-18 | a node built by `Schema`, `StringSchema`, `ObjectSchema`, `ArraySchema`, `RefSchema` or `OneOfSchema` is named by that class |
| Schemas.ArraySchema | src/Definitions/Schemas/ArraySchema.php:7-16 | an array node of the given items, carrying `nullable` only when set |
| Schemas.RefSchema | src/Definitions/Schemas/RefSchema.php:10-20 | a reference node whose `$ref` is the components prefix followed by the name |
| Schemas.RefNameRoundTrip | src/Definitions/Schemas/RefSchema.php:15 | the base name of a reference's `$ref` is the name it was built from, for a non-empty name without `/` |
| Schemas.OneOfSchema | src/Definitions/Schemas/OneOfSchema.php:10-18 | a node whose only fields are the variant list and, when set, `nullable` |
| Schemas.PutPropertyItem | src/Definitions/Schemas/ObjectSchema.php:28-32 | writing a property changes the node's property map and nothing else |
| Schemas.PutPropertyItemSpec | src/Definitions/Schemas/ObjectSchema.php:28-32 | the written name reads back the written node, every other name reads as before, existing names keep their order and a new name goes last |
| Schemas.LiteralNode | src/Definitions/Schemas/CustomSchema.php:10-17 | a plain PHP array stands for a literal node |
| Schemas.CustomSchema | src/Definitions/Schemas/CustomSchema.php:10-17 | a custom node is an object node that carries no `nullable` |
| Schemas.CustomSchemaFields | src/Definitions/Schemas/CustomSchema.php:13-16 | every key of the map becomes a field with that key's value, and no other field is set |
| Schemas.MergeSchemas | src/Helpers/SchemaHelper.php:12-24 | one schema is returned itself, nullable when it was or when asked; any other number becomes a OneOf of the list in order with the given flag |
| Schemas.ContainsBinaryStringIffReachable | src/Helpers/SchemaHelper.php:26-43 | the search reports a binary string exactly when one is reachable from the node through its fields |
| Schemas.StringSchemaBinary | src/Helpers/SchemaHelper.php:28-31 | a string node is found exactly when its format is `binary` |
| Paginators.PaginatorLayout | src/Definitions/Schemas/PaginatorSchema.php:10-65 | the simple paginator has its ten keys in order, a `data` array of the inner schema, no `links`, four integer fields and strings otherwise |
| Paginators.LinkLayout | src/Definitions/Schemas/LengthAwarePaginatorSchema.php:49-66 | a link entry has `url` and `label` strings and an `active` boolean, in that order |
| Paginators.LengthAwarePaginatorLayout | src/Definitions/Schemas/LengthAwarePaginatorSchema.php:12-97 | the length-aware paginator has its thirteen keys in order ending with `data`, the `links` list, six integer fields and strings otherwise |
| Paginators.LengthAwareFieldsLayout | src/Definitions/Schemas/LengthAwarePaginatorSchema.php:12-97 | the thirteen fields in order, whatever the `links` node is: `data`, `links`, six integer fields and strings otherwise |
| Paginators.LengthAwareFieldsKeys | src/Definitions/Schemas/LengthAwarePaginatorSchema.php:12-97 | the thirteen keys are distinct and in the paginator's order |
| Paginators.CursorPaginatorLayout | src/Definitions/Schemas/CursorPaginatorSchema.php:10-53 | the cursor paginator has its seven keys in order; `next_cursor` is a string while `prev_cursor` is an integer |
| Paginators.LengthAwareMeta | src/Definitions/Schemas/DataPaginatorSchema.php:17-21 | the length-aware fields without `data` and `links` are the eleven meta keys, in order |
| Paginators.SimpleMeta | src/Definitions/Schemas/DataPaginatorSchema.php:22-24 | the simple paginator's fields without `data` are the nine meta keys; removing the absent `links` changes nothing |
| Paginators.DataPaginatorLayout | src/Definitions/Schemas/DataPaginatorSchema.php:12-45 | top-level `links`, `data`, `meta`; `links` and `data` as in the length-aware envelope; `meta` a non-nullable OneOf of the two meta layouts |
| Paginators.DataCursorPaginatorLayout | src/Definitions/Schemas/DataCursorPaginatorSchema.php:11-31 | top-level `data` and `meta`; `data` as in the cursor envelope and `meta` an object of its six other fields |
| Registry.RegisterSpec | src/Helpers/SchemaHelper.php:45-51 | registering a resolved name changes nothing; otherwise the name reads back the new resolver and every other name is unchanged |
| Registry.RegisterAllKeys | src/Helpers/SchemaHelper.php:45-51 | registration never drops a pending name, only adds registered ones, and every registered name ends up pending or already resolved |
| Registry.RegisterAllUnique | src/Helpers/SchemaHelper.php:45-51 | registration keeps each pending name once and never makes a resolved name pending |
| Registry.RegisterAllAppend | src/Helpers/SchemaHelper.php:45-51 | registering two batches one after the other is registering their concatenation |
| Registry.ResultsConcat | src/Helpers/SchemaHelper.php:55-61 | the results of two runs of resolvers are the results of each, in order |
| Registry.ResultsAppend | src/Helpers/SchemaHelper.php:57-58 | one more successful resolver adds its name and schema at the end |
| Registry.SchemaRegistry.constructor | src/Helpers/SchemaHelper.php:9-10 | the registry starts with no pending resolver and no schema |
| Registry.SchemaRegistry.RegisterSchema | src/Helpers/SchemaHelper.php:45-51 | the pending map becomes the registration of the resolver, the resolved map is unchanged, and both stay disjoint and duplicate-free |
| Registry.SchemaRegistry.RegisterEach | src/Helpers/SchemaHelper.php:45-51 | the registrations of a resolver are applied in order, the resolved map unchanged |
| Registry.SchemaRegistry.ResolveEntry | src/Helpers/SchemaHelper.php:57-59 | running one pending resolver fails exactly when it throws, leaving both maps; otherwise its schema is appended under its name, it leaves the pending map and its registrations are applied |
| Registry.SchemaRegistry.ResolvePass | src/Helpers/SchemaHelper.php:56-60 | one pass runs a prefix of the pending snapshot, all of it unless a resolver throws, and appends to the resolved map each run name with its own resolver's schema, in order |
| Registry.SchemaRegistry.ResolveStep | src/Helpers/SchemaHelper.php:57-59 | one iteration of the pass over the snapshot: a throwing resolver changes nothing; otherwise the entry's name joins the resolved map with its resolver's schema after the earlier results, every later snapshot name is still pending, and every pending pair comes from the snapshot or from the registrations made so far |
| Registry.SchemaRegistry.ResolveAllSchemas | src/Helpers/SchemaHelper.php:53-64 | draining runs the resolvers pending at the start first and then only resolvers registered by earlier runs, appends each run name with its own resolver's schema, and on success leaves nothing pending and returns the resolved map |
| Definitions.ContentItem.constructor | src/Definitions/Items/ContentItem.php:6-11 | a content item starts with its type, its schema and no examples |
| Definitions.ContentItem.PutExample | src/Definitions/Items/ContentItem.php:13-17 | the examples map gets `name` set to the value, nothing else changes, and the item itself is returned |
| Definitions.PutContentSpec | src/Definitions/Response.php:16-24 | the content type reads back the new schema, its examples are the item's when it has any and the earlier ones otherwise, every other content type is unchanged and a new one goes last |
| Definitions.Response.constructor | src/Definitions/Response.php:9-14 | a response starts with its description and no content |
| Definitions.Response.PutContent | src/Definitions/Response.php:16-24 | the content map becomes the content after writing the item, the description is unchanged, and the response itself is returned |
| Definitions.Operation.constructor | src/Definitions/Operation.php:12-18 | an operation starts with its id, empty summary and description, and no responses, parameters, request body or tags |
| Definitions.Operation.PutResponse | src/Definitions/Operation.php:20-24 | the responses map gets the code set, every other field is unchanged |
| Definitions.Operation.PutParameters | src/Definitions/Operation.php:26-30 | the parameter list is replaced, every other field is unchanged |
| Definitions.Operation.PutRequestBody | src/Definitions/Operation.php:32-36 | the request body's content type gets the schema, every other field is unchanged |
| Definitions.Operation.SetTags | src/Definitions/Operation.php:38-42 | the tag list is replaced, every other field is unchanged |
| Definitions.PutKeyedSpec | src/Definitions/Operation.php:20-24 | writing one key of a map field that may not exist yet reads that key back and leaves every other key as it was |
| Definitions.PutPathSpec | src/Definitions/Spec.php:16-20 | the path and method read back the operation; other methods under the path and every other path are kept |
| Definitions.Spec.constructor | src/Definitions/Spec.php:12-14 | a spec starts with no paths and no components |
| Definitions.Spec.PutPath | src/Definitions/Spec.php:16-20 | the paths map becomes the map with the operation written under path and method, components unchanged, and the spec itself is returned |
| ClassParser.DocProperties | src/Helpers/ClassHelper.php:38-47 | the `@property` loop only adds registrations to those made before it |
| ClassParser.Variables | src/Helpers/ClassHelper.php:44-45 | one variable name per tag, in order |
| ClassParser.VarSchemas | src/Helpers/ClassHelper.php:78-83 | one schema per `@var` tag of an `array` property |
| ClassParser.CollectMembers | src/Helpers/ClassHelper.php:66-130 | collecting a property's members keeps what was collected and registered before, the property becomes nullable exactly when it was or `null` is a member, and `$classFullname` is unchanged when no member added a schema |
| ClassParser.MemberStep | src/Helpers/ClassHelper.php:67-128 | one member only sets the flag when it is `null`, keeps what was collected and registered before, and changes `$classFullname` only when it adds a schema; only a class name whose full name is a date class ends the parse |
| ClassParser.PropertyStep | src/Helpers/ClassHelper.php:53-144 | an untyped public property is skipped; a step never loses a registration, whether the pass goes on or a date class ends it |
| ClassParser.ScanPublicProperties | src/Helpers/ClassHelper.php:50-145 | the loop over the public properties computes the property pass, stopping at the first exception or date class |
| ClassParser.ParseClass | src/Helpers/ClassHelper.php:21-154 | an Eloquent model is handed to the model parser; a date class is a non-nullable date-time string; an unknown class throws; any other class is a non-required object, or a date-time string, with the flag it was asked for |
| ClassParser.RunResolver | src/Helpers/SchemaHelper.php:57 | a closure that returns a fixed component yields that schema and registers nothing; a JSON:API `@return` closure fails exactly when the classified type has no `properties`, with PHP's `Undefined property: <node class>::$properties` |
| ClassParserLemmas.DocPropertiesKeys | src/Helpers/ClassHelper.php:44-46 | the `@property` entries are keyed exactly by the tags' variable names plus the names present before, each once |
| ClassParserLemmas.NativeProperty | src/Helpers/ClassHelper.php:85-100 | a native `bool`, `int`, `float` or `string` property becomes `boolean`, `integer`, `number` or `string`, nullable exactly when its type allows null, and registers nothing |
| ClassParserLemmas.NullableNativeProperty | src/Helpers/ClassHelper.php:71-72 | a union of a native type with `null`, in either order, is that type made nullable |
| ClassParserLemmas.ClassProperty | src/Helpers/ClassHelper.php:105-127 | a property typed with another non-date class is a reference to the name as written, nullable as its type, that class is registered to be parsed with the outer class's flag, and its full name overwrites `$classFullname` |
| ClassParserLemmas.DateClassProperty | src/Helpers/ClassHelper.php:108-115 | a property whose class resolves to a date class ends the whole parse, which returns a date-time string instead of an object |
| ClassParserLemmas.DocblockFallback | src/Helpers/ClassHelper.php:133-140 | a typed property that collected nothing takes its `@property` entry, which is removed from the unused ones; without such an entry the class throws, naming the current `$classFullname` and the property, and `$classFullname` is left as it was |
| ClassParserLemmas.MessageNamesLastClass | src/Helpers/ClassHelper.php:108-138 | after a property typed with class `X`, a later `array` property without `@var` or `@property` entry throws naming `X`'s full name, not the parsed class's |
| ClassParserLemmas.BareArrayCollectsNothing | src/Helpers/ClassHelper.php:73-84 | an `array` property without a doc comment collects nothing |
| ClassParserLemmas.StepKeys | src/Helpers/ClassHelper.php:53-144 | one step keeps the properties already written, writes the property's own name when it is typed, and keeps the unused entries free of repeats |
| ClassParserLemmas.ScanKeys | src/Helpers/ClassHelper.php:53-144 | a pass that runs to the end has written every typed public property and lost none written before |
| ClassParserLemmas.ObjectLayout | src/Helpers/ClassHelper.php:147 | the merge keeps the written properties in front, and an unused `@property` entry replaces a written property of the same name |
| ClassParserLemmas.ParseClassLayout | src/Helpers/ClassHelper.php:33-153 | a plain class that runs to the end is a non-required object with its flag, holding every typed public property and reading the unused `@property` entries where they exist |
| ClassParserLemmas.OnlyFromDocblock | src/Helpers/ClassHelper.php:38-50 | with `onlyFromDocblock` the object holds exactly the `@property` entries, one per tag variable |
| ClassParserLemmas.PaginatorJobShape | src/Helpers/DocBlockHelper.php:352-437 | a paginator closure builds its non-nullable envelope with that envelope's own keys around the classified inner type |
| ClassParserLemmas.EnvelopeJob | src/Helpers/DocBlockHelper.php:89-105 | a JSON:API `@return` closure wraps the classified type's properties in the envelope, and without properties fails with `Undefined property: <node class>::$properties` |
| ClassParserLemmas.JsonApiJobShape | src/Helpers/DocBlockHelper.php:89-105 | the JSON:API closure succeeds exactly when the classified type has properties, and then builds `{id: string, attributes: {...}}` from them |
| Command.StrStartsWith | src/Commands/GenerateTypeCommand.php:739-748 | the loop answers true exactly when some non-empty needle is a prefix of the haystack |
| Command.FilterRoutes | src/Commands/GenerateTypeCommand.php:78-80 | the filter keeps exactly the routes whose name does not start with an ignored prefix, in order |
| Command.CollectGroup | src/Commands/GenerateTypeCommand.php:84-106 | the loop fills a group with the routes its `uri:` or `controller:` key selects, and fails on a key without `:` only when there is a route |
| Command.RouteOperationId | src/Commands/GenerateTypeCommand.php:132-185 | the route's id fails exactly for a handler of no known shape, or a nameless controller whose `prefix` action entry is unset or whose string has no `@`; an unset `prefix` throws `Undefined array key "prefix"`; otherwise the id is the route name, or for a closure the URI |
| Command.DocReturnSchemas | src/Commands/GenerateTypeCommand.php:206-211 | one schema per `@return` tag; a closure has no reflection class, so tags on it fail with `parseTagType`'s type error on its third argument |
| Command.RequestBodies | src/Commands/GenerateTypeCommand.php:340-361 | a body exists exactly for post, put and patch with some property; the form body comes last, and every body is the object of the merged properties |
| Command.Parameters | src/Commands/GenerateTypeCommand.php:362-372 | body methods keep exactly the path parameters; the other methods keep them and gain one parameter per request property |
| Command.SplitParameters | src/Commands/GenerateTypeCommand.php:251-333 | the loop over the signature parameters computes the parameter scan |
| Command.TypeMapFields | src/Commands/GenerateTypeCommand.php:55-66 | every `TYPE_MAP` entry is a map of fields a custom schema can carry |
| Command.ParamStep | src/Commands/GenerateTypeCommand.php:251-333 | one signature parameter only adds: earlier request schemas and registrations stay in front, and the path parameters are unchanged or gain this parameter, described by its `@param` tag |
| Command.ReturnStep | src/Commands/GenerateTypeCommand.php:385-617 | one member of the declared return type only adds: earlier registrations stay in front and a nullable response stays nullable; paginators are told apart in the source's order |
| Command.ResourceReturn | src/Commands/GenerateTypeCommand.php:481-560 | a resource return type keeps earlier registrations in front and a nullable response nullable |
| Command.ExistingClassReturn | src/Commands/GenerateTypeCommand.php:562-601 | another existing class keeps earlier registrations in front and a nullable response nullable |
| Command.BuiltinReturn | src/Commands/GenerateTypeCommand.php:603-615 | a built-in type, `void` or `never` registers nothing and leaves the nullability as it was |
| Command.RouteLabel | src/Commands/GenerateTypeCommand.php:614 | the label of the return-type error is the route's name (empty without one), a dash and the controller entry's method part, `Closure` without a controller entry |
| Command.DispatchReturns | src/Commands/GenerateTypeCommand.php:385-617 | the loop over the members of the declared return type computes the return scan |
| Command.ThrowsExamples | src/Commands/GenerateTypeCommand.php:651-664 | the examples succeed exactly when every tag's example does, and are then one per tag, in order, each that tag's example; a failure is the exception of a failing tag |
| Command.ThrowsExample | src/Commands/GenerateTypeCommand.php:651-663 | a tag's example exists exactly when its type names a class (an object type with a name, or a collection type) that resolves; it is then named by the description and its message is the resolved full name; a nameless object type and a type without `getFqsen` throw the matching PHP errors |
| Command.PlanOperation | src/Commands/GenerateTypeCommand.php:130-246 | a route without `middleware` action entry throws `Undefined array key "middleware"`; a route whose id fails has no plan; a plan records whether `auth` is in the middleware and the handler method, and holds no body for methods other than post, put and patch |
| Command.SuccessResponse | src/Commands/GenerateTypeCommand.php:620-634 | the 200 response is described by the handler's name, and holds JSON content of the merged return schemas exactly when there are some |
| Command.ErrorResponse | src/Commands/GenerateTypeCommand.php:640-671 | the 500 response is described `Exception`, with `{message}` JSON content and the examples of the `@throws` tags |
| Command.UnauthenticatedResponse | src/Commands/GenerateTypeCommand.php:674-693 | the 401 response is described `Unauthenticated.`, with `{message}` JSON content and its one example |
| Command.AttachBodies | src/Commands/GenerateTypeCommand.php:340-362 | the request bodies are written into the operation by content type, every other field unchanged |
| Command.AttachResponses | src/Commands/GenerateTypeCommand.php:635-694 | the operation gets exactly the plan's response codes, a 200 response always, a 500 response when exceptions are documented, a 401 response when the route requires authentication |
| Command.BuildOperation | src/Commands/GenerateTypeCommand.php:187-694 | a fresh operation with the plan's id, summary, description, tags, parameters, request bodies and responses |
| Command.LowerCase | src/Commands/GenerateTypeCommand.php:124 | lower-casing keeps the length and lowers each ASCII letter |
| Command.Emit | src/Commands/GenerateTypeCommand.php:696-700 | one planned operation applies its registrations to the registry; its path and method then hold a fresh operation carrying the plan's id, summary, description, tags, parameters, request bodies, response codes and success response; every other path and method holds what it held; every planned pair, this one last, holds an operation carrying the last plan made for it |
| Command.Store | src/Commands/GenerateTypeCommand.php:696-700 | `putPath` of a built operation: that path and method hold it, every other pair holds what it held, and every planned pair holds an operation carrying its last plan |
| Command.Record | src/Commands/GenerateTypeCommand.php:124-701 | after one more planned operation is emitted, the registry holds every plan's registrations in order and every planned path and method holds an operation carrying its last plan |
| Command.LastPlan | src/Commands/GenerateTypeCommand.php:696-700 | a plan is found for a path and method exactly when some planned operation has that path and method; it is the last such plan, since `putPath` overwrites |
| Command.LastPlanSnoc | src/Commands/GenerateTypeCommand.php:696-700 | after one more planned operation, its own plan is the last for its path and method and every other pair keeps its last plan |
| Command.StoredOpAfterPut | src/Definitions/Spec.php:16-20 | after `putPath` the written path and method hold the new operation and every other pair holds what it held |
| Command.ProcessGroup | src/Commands/GenerateTypeCommand.php:108-701 | the loop over a group's routes and methods follows the plans exactly; on success the registry holds all their registrations, and every planned path and method holds an operation carrying the fields of the last plan made for it (a later route with the same path and method overwrites) |
| Command.ProcessRoute | src/Commands/GenerateTypeCommand.php:123-701 | the loop over one route's methods follows that route's plans exactly; on success the registry holds their registrations after the earlier ones, and every planned path and method so far holds an operation carrying the last plan made for it |
| Command.ProcessVerb | src/Commands/GenerateTypeCommand.php:124-701 | one step of that loop keeps the route's outcome: the plans from the next method on, after the updated list, are the plans from this method on; the registry holds the list's registrations and each listed path and method holds an operation carrying its last plan; an exception is the route's outcome with the same message |
| CommandLemmas.StrStartsWithExamples | tests/Unit/TypeGenerator/Commands/GenerateTypeCommandTest.php:203-223 | the prefix test answers the cases the command's tests check |
| CommandLemmas.EmptyNeedlesIgnored | src/Commands/GenerateTypeCommand.php:742 | empty needles never match, so adding them changes nothing |
| CommandLemmas.KeptMembers | src/Commands/GenerateTypeCommand.php:78-80 | a route is kept exactly when its name, empty when it has none, starts with no ignored prefix; no route is invented |
| CommandLemmas.MatchingMembers | src/Commands/GenerateTypeCommand.php:89-105 | a group holds exactly the routes matching its kind and prefix, in declaration order |
| CommandLemmas.OtherKindsCollectNothing | src/Commands/GenerateTypeCommand.php:92-104 | a key of any kind other than `uri` and `controller` collects nothing |
| CommandLemmas.GroupKeySplits | src/Commands/GenerateTypeCommand.php:90 | a key `kind:prefix` splits into its kind and its prefix |
| CommandLemmas.EmptyUriPrefixTakesAll | src/Commands/GenerateTypeCommand.php:92-97 | a `uri:` group with an empty prefix holds every route |
| CommandLemmas.UnknownHandlerFails | src/Commands/GenerateTypeCommand.php:130-185 | a handler that is neither a controller string nor a closure stops the run, naming the route, once the `middleware` entry has been read |
| CommandLemmas.PlanFacts | src/Commands/GenerateTypeCommand.php:132-246 | the operation id is the method's first `@id`, qualified by the controller's first `@id`; without one the route name, then `prefix.method`, then the URI; tags are the class tags then the method tags, set only when there are some |
| CommandLemmas.PlanFields | src/Commands/GenerateTypeCommand.php:130-246 | authentication exactly when the middleware lists `auth`; one example per `@throws` tag; the handler's name, summary and description; no request body for a method other than post, put and patch |
| CommandLemmas.PathParameterStep | src/Commands/GenerateTypeCommand.php:251-333 | a parameter of no form-request or request type is a required string path parameter described by its `@param` tag, and nothing else changes |
| CommandLemmas.FormRequestStep | src/Commands/GenerateTypeCommand.php:269-273 | a form request whose docblock lists properties becomes the next request schema and sets the body's nullability |
| CommandLemmas.FormRequestRulesStep | src/Commands/GenerateTypeCommand.php:274-305 | a form request whose docblock lists none takes one string property per `rules()` key |
| CommandLemmas.RulePropertiesSpec | src/Commands/GenerateTypeCommand.php:286-300 | a name is a rule property exactly when it is a rule key, and then it is a string |
| CommandLemmas.ScanParamsGrows | src/Commands/GenerateTypeCommand.php:251-333 | the parameter scan keeps earlier request schemas and registrations in front, and every path parameter is an earlier one or a scanned parameter |
| CommandLemmas.ParamTagMapSpec | src/Commands/GenerateTypeCommand.php:213-218 | a variable has a `@param` tag exactly when one names it, and the one kept is one of them |
| CommandLemmas.ParamTagMapLastWins | src/Commands/GenerateTypeCommand.php:213-218 | the kept `@param` tag of a variable is the last one naming it: no later tag names the variable |
| CommandLemmas.RequestPropertiesSpec | src/Commands/GenerateTypeCommand.php:335-338 | merging request schemas fails exactly when one has no properties; otherwise a name is a request property exactly when some request schema has it |
| CommandLemmas.RequestBodyRule | src/Commands/GenerateTypeCommand.php:340-362 | for post, put and patch with properties the form body is always present and the JSON body exactly when no property is a binary string; otherwise no body |
| CommandLemmas.QueryParametersSpec | src/Commands/GenerateTypeCommand.php:362-376 | for the other methods a request property becomes a required query parameter with the last schema of that name, every other parameter kept |
| CommandLemmas.BodyMethodKeepsPathParameters | src/Commands/GenerateTypeCommand.php:340-362 | with a body method the request properties are not parameters |
| CommandLemmas.VoidAddsNothing | src/Commands/GenerateTypeCommand.php:609-612 | `void` and `never` add nothing |
| CommandLemmas.BuiltinAddsTypeMapSchema | src/Commands/GenerateTypeCommand.php:603-607 | a built-in type adds the schema of its `TYPE_MAP` entry |
| CommandLemmas.UnknownReturnFails | src/Commands/GenerateTypeCommand.php:613-615 | a type that is no known kind, class or built-in, and not `void`/`never`, stops the run |
| CommandLemmas.IgnoredReturnSkipped | src/Commands/GenerateTypeCommand.php:386-388 | an ignored return type changes nothing |
| CommandLemmas.TypeMapInt | src/Commands/GenerateTypeCommand.php:56 | `int` is an integer of format `int32`, with exactly those two fields |
| CommandLemmas.TypeMapArray | src/Commands/GenerateTypeCommand.php:62-63 | `array` and `iterable` are arrays whose items are the plain array `{type: object}` |
| CommandLemmas.PaginatorReturn | src/Commands/GenerateTypeCommand.php:408-480 | a paginator return type without `@return` tags registers the envelope the source's order picks under its name and is a reference to it, nullable as the type; any plain paginator gets the simple envelope; a nullable type makes the response nullable |
| CommandLemmas.PaginatorChoiceAsWrittenShape | src/Commands/GenerateTypeCommand.php:422-479 | in the source's order a plain paginator, length-aware or not, gets the simple envelope, a paginator only length-aware the length-aware one, and any other the cursor one |
| CommandLemmas.PaginatorChoiceShape | src/Commands/GenerateTypeCommand.php:422-479 | with the length-aware test first, a length-aware paginator gets the length-aware envelope, a plain paginator the simple one and any other the cursor one |
| CommandLemmas.LengthAwarePaginatorLosesTotal | src/Commands/GenerateTypeCommand.php:422-455 | as written, a length-aware paginator gets the simple envelope without `total` and `last_page`; the corrected choice has both |
| CommandLemmas.EnvelopeTotals | src/Definitions/Schemas/LengthAwarePaginatorSchema.php:33-91 | only the length-aware envelope has `total` and `last_page` |
| CommandLemmas.GenericResourceWrapsDocs | src/Commands/GenerateTypeCommand.php:481-519 | a generic JSON resource with `@return` tags stands for `{data: T}` for each tag's schema, replacing what was collected |
| CommandLemmas.ClassReturn | src/Commands/GenerateTypeCommand.php:562-601 | any other existing class registers its parsed class under its short name and is a reference to it, nullable as the type |
| CommandLemmas.ClosureCannotResolveClasses | src/Commands/GenerateTypeCommand.php:481-601 | for a closure, a return type that needs a class lookup stops the run |
| CommandLemmas.ScanReturnsGrows | src/Commands/GenerateTypeCommand.php:385-617 | the return scan keeps earlier registrations in front, and a nullable response stays nullable |
| CommandLemmas.ResponseCodesSpec | src/Commands/GenerateTypeCommand.php:635-694 | 200 comes first; 500 exactly when exceptions are documented; 401 exactly when the route requires authentication; no code twice |
| CommandLemmas.ExampleMapSpec | src/Commands/GenerateTypeCommand.php:651-664 | each documented exception gives an example named by its description, a later one with the same description replacing it; there are examples exactly when there are tags |
| CommandLemmas.ThrowsExampleNamesClass | src/Commands/GenerateTypeCommand.php:653-663 | the example names the thrown class by its full name, resolved in the handler's class, for an object type and for a collection type such as `FooException<Bar>` alike |
| CommandLemmas.ThrowsExampleWithoutClass | src/Commands/GenerateTypeCommand.php:653-654 | a nameless object type throws `getName() on null`; any other type without a class throws `Call to undefined method <type class>::getFqsen()` |
| CommandLemmas.RoutePlansShape | src/Commands/GenerateTypeCommand.php:123-130 | planning a route keeps earlier operations, adds at most one per method, each under the route's path and for a method that is not ignored |
| CommandLemmas.GroupPlansShape | src/Commands/GenerateTypeCommand.php:113-130 | a group's operations follow its routes' order, none for an ignored method |
| Inertia.TypeName | src/Writers/Inertia/Inertia.php:226 | a type name has no `.` and the id's length |
| Inertia.UcWords | src/Writers/Inertia/Inertia.php:252 | the first character and every one after `_` is upper-cased, every other kept |
| Inertia.RemoveChar | src/Writers/Inertia/Inertia.php:252 | the removed character no longer occurs and no character is invented |
| Inertia.UcFirst | src/Writers/Inertia/Inertia.php:252 | capitalising keeps the length |
| Inertia.PathToOperationId | src/Writers/Inertia/Inertia.php:247-253 | an id made from a path starts with the lower-cased method |
| Inertia.References | src/Writers/Inertia/Inertia.php:98-121 | a plain array has no references, and a `$ref` node gives its basename alone, without looking below it |
| Inertia.TsType | src/Writers/Inertia/Inertia.php:144-215 | a plain array is `any`, every other nullable node ends in ` \| null`, and a non-nullable reference is its component name |
| Inertia.OutcomesOf | src/Writers/Inertia/Inertia.php:223-242 | the writer reads each response as its status, description and content, in order |
| Inertia.Writer.constructor | src/Writers/Inertia/Inertia.php:12-19 | the writer starts from the description's paths and components, with nothing written or pending |
| Inertia.Writer.Output | src/Writers/Inertia/Inertia.php:24-70 | the text is the header, the interfaces in the order written, then the route section; every component is written exactly once, in dependency order, and nothing is left pending |
| Inertia.Writer.WriteSchemas | src/Writers/Inertia/Inertia.php:29-57 | the worklist loop writes every component exactly once, each after the components it references unless a cycle leaves none generable, and its text is their interfaces in that order |
| Inertia.Writer.EmitAt | src/Writers/Inertia/Inertia.php:41-47 | a generable pending name is written, then removed from the pending list, keeping the worklist state |
| Inertia.Writer.EmitFirst | src/Writers/Inertia/Inertia.php:50-54 | with nothing generable, the first pending name is shifted off and written anyway, keeping the worklist state |
| Inertia.Writer.FirstGenerable | src/Writers/Inertia/Inertia.php:41-48 | the first pending name that is generable, or none when no pending name is |
| Inertia.Writer.WriteRoutes | src/Writers/Inertia/Inertia.php:59-67 | the route section is the API types of every operation, path by path; with every component written or pending it queues nothing |
| Inertia.Writer.WriteMethods | src/Writers/Inertia/Inertia.php:63-65 | the API types of every method of one path, queueing nothing |
| Inertia.Writer.ConvertToTypeScript | src/Writers/Inertia/Inertia.php:144-215 | the TypeScript type of a node, queueing each referenced component not yet written or pending |
| Inertia.Writer.CanGenerateSchema | src/Writers/Inertia/Inertia.php:72-89 | a name can be written exactly when it is not yet written and every other name it references is |
| Inertia.Writer.GenerateInterface | src/Writers/Inertia/Inertia.php:123-142 | a written name gives nothing; otherwise it is recorded as written and its `export type` produced, its properties' references queued |
| Inertia.Writer.SuccessResponse | src/Writers/Inertia/Inertia.php:225-239 | the 200 response writes its type, `void` without JSON content, and its route constant, queueing the references of the JSON schema |
| Inertia.Writer.GenerateApiTypes | src/Writers/Inertia/Inertia.php:217-245 | the text is the lines of the operation's 200 responses, and only their references are queued |
| Inertia.OutcomesStep | src/Writers/Inertia/Inertia.php:223-242 | one more response adds its success lines and references only when it is the 200 one |
| Inertia.EnqueueAppend | src/Writers/Inertia/Inertia.php:150-161 | converting two runs of references is converting the first, then the second |
| Inertia.EnqueueKeeps | src/Writers/Inertia/Inertia.php:150-161 | while every component is written or pending, conversion queues nothing |
| Inertia.EnqueueAdds | src/Writers/Inertia/Inertia.php:150-161 | conversion only appends, each met component that was neither written nor pending exactly once |
| Inertia.DropOne | src/Writers/Inertia/Inertia.php:44-45 | removing one pending name keeps the list duplicate-free and loses exactly that name |
| Inertia.Emitted | src/Writers/Inertia/Inertia.php:38-55 | writing a generable name, or any when none is generable, keeps the dependency order and appends its interface |
| InertiaLemmas.RefType | src/Writers/Inertia/Inertia.php:150-161 | a reference is written as the component name, with ` \| null` when nullable, and is the one reference met |
| InertiaLemmas.ArrayType | src/Writers/Inertia/Inertia.php:169-176 | an array is its items' type followed by `[]` |
| InertiaLemmas.BuiltinTypes | src/Writers/Inertia/Inertia.php:178-214 | the built-in return types become `number`, `string`, `boolean`, a record or `any[]`, and meet no reference |
| InertiaLemmas.TsRefsAreReferences | src/Writers/Inertia/Inertia.php:98-121 | every reference conversion meets is one `findReferences` reports |
| InertiaLemmas.EntryRefsAreReferences | src/Writers/Inertia/Inertia.php:98-121 | the references met writing the properties of a node are among those `findReferences` reports |
| InertiaLemmas.GenerableQueuesNothing | src/Writers/Inertia/Inertia.php:72-89 | writing the interface of a generable component meets only written components or itself, so it queues nothing new |
| InertiaLemmas.NoSuccessWritesNothing | src/Writers/Inertia/Inertia.php:223-242 | an operation without a 200 response writes nothing and meets no reference |
| InertiaLemmas.SuccessWritesTypeAndRoute | src/Writers/Inertia/Inertia.php:225-239 | a single 200 JSON response writes the converted type and the route constant under the dotless type name |
| InertiaLemmas.NoPlaceholders | src/Writers/Inertia/Inertia.php:249 | a path without `{` is left as it is |
| InertiaLemmas.Placeholder | src/Writers/Inertia/Inertia.php:249 | a placeholder `{name}` becomes `By` and the name |
| InertiaLemmas.ExpandPrefix | src/Writers/Inertia/Inertia.php:249 | text before any `{` is copied unchanged |
| InertiaLemmas.TrimCharWithin | src/Writers/Inertia/Inertia.php:251 | trimming keeps only characters of the string |
| InertiaLemmas.UcWordsWithin | src/Writers/Inertia/Inertia.php:252 | capitalising words keeps each character or makes it an upper-case letter |
| InertiaLemmas.SeparatorsReplaced | src/Writers/Inertia/Inertia.php:250 | after both replacements no `/` or `-` is left |
| InertiaLemmas.WordsJoined | src/Writers/Inertia/Inertia.php:252 | capitalising and dropping `_` leaves no `_`, `/` or `-` |
| InertiaLemmas.OperationIdShape | src/Writers/Inertia/Inertia.php:247-253 | an id made from a path starts with the lower-cased method, and what follows has no `_`, `/` or `-` |

## Left out

- Console output (`info`, `warn`), the test that the output directory exists and the writing of files (src/Commands/GenerateTypeCommand.php:704-729) are I/O.
- The Laravel route facade and `config()` are replaced by plain inputs.
- The loop over the configured specs and writers in `handle` is left out. `Command.ProcessGroup` models one group of one spec, and `resolveAllSchemas` is modelled on the registry it fills.
- PHP reflection, doc-block parsing, PhpParser syntax trees, the database column catalogue, `class_exists`, `is_subclass_of` and `isKindOf` are answers of an `Env` value, not computations.
- `Str::snake` and `Str::pluralStudly` (src/Helpers/ModelHelper.php:114) are Laravel inflection. They are the uninterpreted `defaultTable` of the `Env`.
- Reading a file from disk for `getImports` is left out: the file's contents are an input. The regular expressions of src/Helpers/CodeHelper.php:57-87 are not run through PCRE; each is emulated by a character scan over the raw text (`UseImports.ContinuationAt`, `Collapse`, `KeywordAt`, `ClosesFirst`, `GroupMatch`, `AsAt`).
- Reading an undefined array key is a PHP warning, which Laravel's error handler turns into an `ErrorException`. The model follows that convention everywhere: such a read is an `Err` whose message is `Undefined array key` followed by the key. This covers `[1]` of a split with no separator, the `prefix` and `middleware` action entries of a route (`Command.Route` holds them as options), and the `RELATION_TYPE` entry of `morphToMany` and `morphedByMany`. The `uses` action entry is taken as always set, because Laravel's route actions always carry one.
- Reading an undefined variable or an undefined property is a warning too, and becomes an exception the same way. `Undefined variable $mixinTag` is the message of a resource's `@property` loop (src/Helpers/ResourceHelper.php:35). `Undefined property: <class>::$properties` is the message when a node without `properties` is read at src/Helpers/DocBlockHelper.php:100 and src/Commands/GenerateTypeCommand.php:274 and 337. `Schemas.NodeClass` tells the node's PHP class from the fields its constructor sets; a `CustomSchema` is never read there.
- A PHP `TypeError` message ends with `, called in <file> on line <n>`. The model leaves that suffix out, because file paths and line numbers are not modelled (`Command.NoTagContext`, `Command.NoFullnameContext`, `Classifier.MethodCallbackTypeError`). The closure is named `DocBlockHelper::{closure}` as PHP 8.0-8.3 name it.
- Registry.SchemaRegistry.ResolveAllSchemas: requires `Closed(run, universe)`: every resolver registers names from one finite set. That is the case in which the package's `while` loop terminates; a resolver chain that keeps inventing names would loop forever there and is not modelled.
- `Env.classes` follows `class_exists`: an interface or trait has no `ClassInfo`, although `new ReflectionClass` would accept it. `ClassHelper::isKindOf` is called by the package but its body is not part of this model; it is the `isKindOf` oracle of the `Env`.
- Float literal values (src/Helpers/CodeHelper.php:208) are opaque text.
- The resource branches of `parseTagType` that scan method source (src/Helpers/DocBlockHelper.php:77-246) read the attribute names from the class's syntax-tree nodes, given as `ClassInfo.nodes`; the file is not read and parsed. The scan runs as written: the method callback's `TypeError` is under "## Findings".
- Classifier.ParseTagType: the mutual recursion between doc types, classes, models and resources is bounded by a `fuel` count. Running out of fuel is an error, whereas the package would recurse further.
- Literal array keys (`CodeHelper.AssocEntries`, the `$casts` of `ModelHelper.Settings`) are `Literal` values compared structurally. PHP's coercion of numeric strings and floats to integer keys is not modelled, so `'1' => …` and `1 => …` are two entries here and one in PHP. All other keys are strings.
- `in_array` with loose comparison is modelled as equality of strings.
- `array_unique` over the hidden names is not modelled, because only membership of a name is ever used.
- Inertia.Writer.constructor: the writer reads a snapshot of the operations and responses, taken as values when it is built. Aliasing between the writer and `Operation` objects changed afterwards is not captured.
- Inertia.Writer.SuccessResponse: the `??` fallback to `pathToOperationId` is unreachable, because the command always sets an operation id. `Inertia.PathToOperationId` is modelled and proved on its own.
- src/Writers/OpenAPI/OpenAPI.php is only `json_encode`, and src/Writers/Writer.php is an interface.
- src/TypeServiceProvider.php, src/routes/routes.php and src/config/type-generator.php are framework registration and configuration data.
- `Parameter`, `PathItem` and `ResponseItem` hold no behaviour. They are plain datatypes.

The model follows the code where it differs from what the package's documentation suggests:

- `registerSchema` replaces a resolver that is still pending under the same name.
- `string|null` in a doc block becomes a nullable OneOf with a single string variant, not a nullable string.
- `mixed` becomes a non-nullable string.
- `json` and `jsonb` columns give no property at all.
- `resolveAllSchemas` iterates over a snapshot of the pending map, as PHP's `foreach` does.
- A resource whose doc comment has a `@property` tag but no `@mixin` throws: the `@property` loop reads `$mixinTag`, which is unset there. `Classifier.ParseResource` uses this choice as written.
- A controller method returning a length-aware paginator gets the simple `Paginator` envelope, because the `Paginator` test comes first. `Command.ReturnStep` uses this order as written.
- A resource scanned for its attribute names throws a `TypeError` at the first method its file declares, because the scan's method callback is typed with an un-imported `ClassMethod`. `Classifier.ParseResourceClass` uses this scan as written.
- The corrected halves of the Findings below are modelled and proved beside the as-written ones, but nothing else calls them.
- The Inertia writer puts `?` on a property when its schema is NOT nullable, which is the reverse of TypeScript's usual meaning.
- An object with no properties is written `{  }`.
- The writer compares the status with the string `"200"`, and always writes a description, because it is always set.

## Findings

| source | as written | input that shows it | evidently intended | confidence | as-written member | corrected member |
|---|---|---|---|---|---|---|
| src/Helpers/ResourceHelper.php:32-38 | the `@property` loop reads `$mixinTag`, which is not defined there, so any `@property` tag throws | a resource whose doc comment holds only `@property Model $x` | the `@property` tag's own type names the backing model, as the `@property-read` loop does | not executed | Classifier.ResourceModelNameAsWritten, ClassifierLemmas.PropertyFallbackDiverges | Classifier.ResourceModelName, ClassifierLemmas.ResourceModelChoice |
| src/Helpers/CodeHelper.php:217-234 | `getTypeString` tests for the PHPStan `UnionType` imported at line 32, so a PhpParser union type is rendered `unknown` | the parameter type `int\|string` | the members joined by `\|` | not executed | CodeHelper.TypeStringAsWritten, CodeHelper.ParserUnionRendersUnknown | CodeHelper.TypeString, CodeHelper.UnionRoundTrip |
| src/Commands/GenerateTypeCommand.php:422-455 | the test for `Paginator` comes before the test for `LengthAwarePaginator`, a subclass of it, so the length-aware branch is never reached | a controller returning `LengthAwarePaginator` | the length-aware envelope, with `total` and `last_page` | not executed | Command.PaginatorChoiceAsWritten, CommandLemmas.LengthAwarePaginatorLosesTotal | Command.PaginatorChoice, CommandLemmas.PaginatorChoiceShape |
| src/Helpers/DocBlockHelper.php:131-148 | the method callbacks of both resource scans (lines 131 and 209) declare their parameter as `ClassMethod`, which DocBlockHelper.php does not import, so it names `MartinPham\TypeGenerator\Helpers\ClassMethod`; `parseClassNodes` passes `PhpParser\Node\Stmt\ClassMethod` nodes, so the first method of the scanned file throws a `TypeError` | a `JsonResource` subclass whose `toArray()` has no `@return` tag | the callbacks read the listed method's returned keys, as the ones in ModelHelper.php, which imports `ClassMethod`, do | not executed | Classifier.ScannedAttributesAsWritten, ClassifierLemmas.ToArrayScanThrows | Classifier.ScannedAttributes, ClassifierLemmas.ScannedAttributesCollects |
