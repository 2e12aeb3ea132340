/** The five pagination envelopes: fixed object templates around one inner
    item schema, carried in a `data` array. */
module Paginators {
  import opened Wrappers
  import opened OrderedMaps
  import opened Schemas

  function Int(): Schema { TypedSchema("integer", false) }
  function Str(): Schema { TypedSchema("string", false) }

  const PaginatorKeys: seq<string> :=
    ["current_page", "current_page_url", "first_page_url", "from", "next_page_url",
     "path", "per_page", "prev_page_url", "to", "data"]

  const LengthAwareKeys: seq<string> :=
    ["current_page", "first_page_url", "from", "last_page", "last_page_url", "links",
     "next_page_url", "path", "per_page", "prev_page_url", "to", "total", "data"]

  const CursorKeys: seq<string> :=
    ["path", "per_page", "next_cursor", "next_page_url", "prev_cursor", "prev_page_url", "data"]

  /** The envelope's node: an object with these properties, no required
      list, nullable as asked. */
  predicate IsEnvelope(r: Schema, keys: seq<string>, nullable: bool)
  {
    r.typ == Some("object") && r.properties.Properties? && r.required.None? &&
    r.nullable == nullable && !r.literal && Keys(r.properties.entries) == keys
  }

  const PaginatorIntKeys: seq<string> := ["current_page", "from", "per_page", "to"]
  const LengthAwareIntKeys: seq<string> := ["current_page", "from", "last_page", "per_page", "to", "total"]

  /** The simple paginator (`Paginator` / `simplePaginate`). */
  function PaginatorSchema(inner: Schema, nullable: bool): Schema
  {
    ObjectSchema([
      ("current_page", Int()),
      ("current_page_url", Str()),
      ("first_page_url", Str()),
      ("from", Int()),
      ("next_page_url", Str()),
      ("path", Str()),
      ("per_page", Int()),
      ("prev_page_url", Str()),
      ("to", Int()),
      ("data", ArraySchema(inner, false))
    ], None, nullable)
  }

  /** One entry of the `links` list of a length-aware page, built by three
      property writes into an empty object. */
  function LinkSchema(): Schema
  {
    var o := ObjectSchema([], None, false);
    PutPropertyItem(PutPropertyItem(PutPropertyItem(o, "url", Str()), "label", Str()),
                    "active", TypedSchema("boolean", false))
  }

  /** The length-aware paginator (`paginate`). */
  function LengthAwarePaginatorSchema(inner: Schema, nullable: bool): Schema
  {
    ObjectSchema(LengthAwareFields(inner, ArraySchema(LinkSchema(), false)), None, nullable)
  }

  function LengthAwareFields(inner: Schema, links: Schema): seq<(string, Schema)>
  {
    [
      ("current_page", Int()),
      ("first_page_url", Str()),
      ("from", Int()),
      ("last_page", Int()),
      ("last_page_url", Str()),
      ("links", links),
      ("next_page_url", Str()),
      ("path", Str()),
      ("per_page", Int()),
      ("prev_page_url", Str()),
      ("to", Int()),
      ("total", Int()),
      ("data", ArraySchema(inner, false))
    ]
  }

  /** The cursor paginator (`cursorPaginate`). */
  function CursorPaginatorSchema(inner: Schema, nullable: bool): Schema
  {
    ObjectSchema([
      ("path", Str()),
      ("per_page", Int()),
      ("next_cursor", Str()),
      ("next_page_url", Str()),
      ("prev_cursor", Int()),
      ("prev_page_url", Str()),
      ("data", ArraySchema(inner, false))
    ], None, nullable)
  }

  /** The `data`/`links`/`meta` layout of a paginated data collection. */
  function DataPaginatorSchema(inner: Schema, nullable: bool): Schema
  {
    var lengthAware := LengthAwarePaginatorSchema(inner, nullable).properties.entries;
    var links := Get(lengthAware, "links");
    var data := Get(lengthAware, "data");
    var lengthAwareMeta := Remove(Remove(lengthAware, "data"), "links");
    var simpleMeta := Remove(Remove(PaginatorSchema(inner, nullable).properties.entries, "data"), "links");
    ObjectSchema([
      ("links", if links.Some? then links.value else Blank),
      ("data", if data.Some? then data.value else Blank),
      ("meta", OneOfSchema([ObjectSchema(lengthAwareMeta, None, false), ObjectSchema(simpleMeta, None, false)], false))
    ], None, nullable)
  }

  /** The `data`/`meta` layout of a cursor-paginated data collection. */
  function DataCursorPaginatorSchema(inner: Schema, nullable: bool): Schema
  {
    var cursor := CursorPaginatorSchema(inner, nullable).properties.entries;
    var data := Get(cursor, "data");
    ObjectSchema([
      ("data", if data.Some? then data.value else Blank),
      ("meta", ObjectSchema(Remove(cursor, "data"), None, false))
    ], None, nullable)
  }

  /** The simple paginator has its ten keys in order, no `links`, a `data`
      array of the inner schema, four integer fields and string fields
      otherwise. */
  lemma PaginatorLayout(inner: Schema, nullable: bool)
    ensures IsEnvelope(PaginatorSchema(inner, nullable), PaginatorKeys, nullable)
    ensures var e := PaginatorSchema(inner, nullable).properties.entries;
      Get(e, "data") == Some(ArraySchema(inner, false)) &&
      "links" !in Keys(e) &&
      forall k | k in PaginatorKeys && k != "data" ::
        Get(e, k) == Some(if k in PaginatorIntKeys then Int() else Str())
  {
    var e := PaginatorSchema(inner, nullable).properties.entries;
    assert UniqueKeys(e);
    KeysLength(e);
    assert Keys(e) == PaginatorKeys;
    GetAt(e, 0);
    GetAt(e, 1);
    GetAt(e, 2);
    GetAt(e, 3);
    GetAt(e, 4);
    GetAt(e, 5);
    GetAt(e, 6);
    GetAt(e, 7);
    GetAt(e, 8);
    GetAt(e, 9);
  }

  /** The three link fields: `url` and `label` strings, `active` boolean. */
  lemma LinkLayout()
    ensures LinkSchema().typ == Some("object") && LinkSchema().properties.Properties?
    ensures var e := LinkSchema().properties.entries;
      Keys(e) == ["url", "label", "active"] &&
      Get(e, "url") == Some(Str()) && Get(e, "label") == Some(Str()) &&
      Get(e, "active") == Some(TypedSchema("boolean", false))
  {
    var e := LinkSchema().properties.entries;
    PutNew([], "url", Str());
    var e1: seq<(string, Schema)> := [("url", Str())];
    KeysLength(e1);
    PutNew(e1, "label", Str());
    var e2 := e1 + [("label", Str())];
    KeysLength(e2);
    PutNew(e2, "active", TypedSchema("boolean", false));
    assert e == [("url", Str()), ("label", Str()), ("active", TypedSchema("boolean", false))];
    LiteralMap(e);
    assert Keys(e) == ["url", "label", "active"];
  }

  /** The length-aware paginator has its thirteen keys in order ending with
      `data`, the `links` list, and its six integer fields. */
  lemma LengthAwarePaginatorLayout(inner: Schema, nullable: bool)
    ensures IsEnvelope(LengthAwarePaginatorSchema(inner, nullable), LengthAwareKeys, nullable)
    ensures var e := LengthAwarePaginatorSchema(inner, nullable).properties.entries;
      Get(e, "data") == Some(ArraySchema(inner, false)) &&
      Get(e, "links") == Some(ArraySchema(LinkSchema(), false)) &&
      forall k | k in LengthAwareKeys && k != "data" && k != "links" ::
        Get(e, k) == Some(if k in LengthAwareIntKeys then Int() else Str())
  {
    LengthAwareFieldsLayout(inner, ArraySchema(LinkSchema(), false));
  }

  /** The thirteen fields whatever the `links` node is. */
  lemma LengthAwareFieldsLayout(inner: Schema, links: Schema)
    ensures var e := LengthAwareFields(inner, links);
      Keys(e) == LengthAwareKeys &&
      Get(e, "data") == Some(ArraySchema(inner, false)) &&
      Get(e, "links") == Some(links) &&
      forall k | k in LengthAwareKeys && k != "data" && k != "links" ::
        Get(e, k) == Some(if k in LengthAwareIntKeys then Int() else Str())
  {
    var e := LengthAwareFields(inner, links);
    LengthAwareFieldsKeys(inner, links);
    KeysLength(e);
    GetAt(e, 5);
    GetAt(e, 12);
    forall k | k in LengthAwareKeys && k != "data" && k != "links"
      ensures Get(e, k) == Some(if k in LengthAwareIntKeys then Int() else Str())
    {
      var i :| 0 <= i < |LengthAwareKeys| && LengthAwareKeys[i] == k;
      GetAt(e, i);
    }
  }

  /** The thirteen keys are distinct and in the paginator's order. */
  lemma LengthAwareFieldsKeys(inner: Schema, links: Schema)
    ensures UniqueKeys(LengthAwareFields(inner, links))
    ensures Keys(LengthAwareFields(inner, links)) == LengthAwareKeys
  {
    var e := LengthAwareFields(inner, links);
    KeysLength(e);
    forall i, j | 0 <= i < j < |e| ensures e[i].0 != e[j].0 {
      assert |e[i].0| != |e[j].0| || e[i].0[0] != e[j].0[0];
    }
  }

  /** The cursor paginator has its seven keys in order; `next_cursor` is a
      string while `prev_cursor` is an integer. */
  lemma CursorPaginatorLayout(inner: Schema, nullable: bool)
    ensures IsEnvelope(CursorPaginatorSchema(inner, nullable), CursorKeys, nullable)
    ensures var e := CursorPaginatorSchema(inner, nullable).properties.entries;
      Get(e, "data") == Some(ArraySchema(inner, false)) &&
      Get(e, "next_cursor") == Some(Str()) && Get(e, "prev_cursor") == Some(Int()) &&
      Get(e, "per_page") == Some(Int())
  {
    var e := CursorPaginatorSchema(inner, nullable).properties.entries;
    assert UniqueKeys(e);
    KeysLength(e);
    assert Keys(e) == CursorKeys;
    GetAt(e, 1);
    GetAt(e, 2);
    GetAt(e, 4);
    GetAt(e, 6);
  }

  const LengthAwareMetaKeys: seq<string> :=
    ["current_page", "first_page_url", "from", "last_page", "last_page_url",
     "next_page_url", "path", "per_page", "prev_page_url", "to", "total"]

  const SimpleMetaKeys: seq<string> :=
    ["current_page", "current_page_url", "first_page_url", "from", "next_page_url",
     "path", "per_page", "prev_page_url", "to"]

  /** The length-aware fields without `data` and `links`. */
  lemma LengthAwareMeta(inner: Schema, nullable: bool)
    ensures var la := LengthAwarePaginatorSchema(inner, nullable).properties.entries;
      Keys(Remove(Remove(la, "data"), "links")) == LengthAwareMetaKeys
  {
    LengthAwareMetaFields(inner, ArraySchema(LinkSchema(), false));
  }

  lemma LengthAwareMetaFields(inner: Schema, links: Schema)
    ensures Keys(Remove(Remove(LengthAwareFields(inner, links), "data"), "links")) == LengthAwareMetaKeys
  {
    var la := LengthAwareFields(inner, links);
    RemoveOnly(la, 12);
    assert la[..12] + la[13..] == la[..12];
    var la1 := la[..12];
    RemoveOnly(la1, 5);
    var laMeta := la1[..5] + la1[6..];
    KeysLength(laMeta);
    forall i | 0 <= i < 11
      ensures laMeta[i].0 == LengthAwareMetaKeys[i]
    {
      if i < 5 {
        assert laMeta[i] == la[i];
      } else {
        assert laMeta[i] == la[i + 1];
      }
    }
  }

  /** The simple paginator's fields without `data`; removing `links` as well
      changes nothing, since that envelope has no such key. */
  lemma SimpleMeta(inner: Schema, nullable: bool)
    ensures var e := Remove(PaginatorSchema(inner, nullable).properties.entries, "data");
      Remove(e, "links") == e && Keys(e) == SimpleMetaKeys
  {
    var simple := PaginatorSchema(inner, nullable).properties.entries;
    RemoveOnly(simple, 9);
    var e := simple[..9];
    assert simple[..9] + simple[10..] == e;
    KeysLength(e);
    assert Keys(e) == SimpleMetaKeys;
    RemoveAbsent(e, "links");
  }

  /** The data-paginator layout: top-level `links`, `data`, `meta`; `links`
      and `data` as in the length-aware envelope; `meta` a non-nullable OneOf
      of the length-aware fields without `data`/`links` (11 keys) and the
      simple paginator's fields without `data` (9 keys). Only the top level
      carries the nullable flag. */
  lemma DataPaginatorLayout(inner: Schema, nullable: bool)
    ensures var r := DataPaginatorSchema(inner, nullable);
      IsEnvelope(r, ["links", "data", "meta"], nullable) &&
      Get(r.properties.entries, "links") == Some(ArraySchema(LinkSchema(), false)) &&
      Get(r.properties.entries, "data") == Some(ArraySchema(inner, false))
    ensures var meta := DataPaginatorSchema(inner, nullable).properties.entries[2].1;
      meta.oneOf.Variants? && |meta.oneOf.list| == 2 && !meta.nullable &&
      IsEnvelope(meta.oneOf.list[0], LengthAwareMetaKeys, false) &&
      IsEnvelope(meta.oneOf.list[1], SimpleMetaKeys, false)
  {
    LengthAwarePaginatorLayout(inner, nullable);
    LengthAwareMeta(inner, nullable);
    SimpleMeta(inner, nullable);
    var r := DataPaginatorSchema(inner, nullable).properties.entries;
    LiteralMap(r);
    assert Keys(r) == ["links", "data", "meta"];
    assert r[0].0 == "links" && r[1].0 == "data";
  }

  /** The cursor data layout: top-level `data` and `meta`; `data` as in the
      cursor envelope, `meta` an object of the cursor envelope's other six
      fields. */
  lemma DataCursorPaginatorLayout(inner: Schema, nullable: bool)
    ensures var r := DataCursorPaginatorSchema(inner, nullable);
      IsEnvelope(r, ["data", "meta"], nullable) &&
      Get(r.properties.entries, "data") == Some(ArraySchema(inner, false)) &&
      IsEnvelope(r.properties.entries[1].1,
        ["path", "per_page", "next_cursor", "next_page_url", "prev_cursor", "prev_page_url"], false)
  {
    var c := CursorPaginatorSchema(inner, nullable).properties.entries;
    LiteralMap(c);
    RemoveAt(c, 6);
    assert c[..6] + c[7..] == c[..6];
    KeysLength(c[..6]);
    assert c[6] == ("data", ArraySchema(inner, false));
    assert Keys(c[..6]) == ["path", "per_page", "next_cursor", "next_page_url", "prev_cursor", "prev_page_url"];
    var r := DataCursorPaginatorSchema(inner, nullable).properties.entries;
    LiteralMap(r);
    assert Keys(r) == ["data", "meta"];
    assert r[0].0 == "data";
  }
}
