/**
  The content collection configuration of src/content.config.ts: the
  frontmatter schema of the `blog` collection, re-expressed as an explicit
  field-by-field validator, and the registry that names the collection.

  The schema is written twice on purpose. `BlogSchema` is the declaration
  (key and field kind, in declaration order), read as a specification;
  `ParseBlogData` is the validator that checks one field after another and
  builds the typed result. `ParseBlogData`'s contract ties the two together.
 */
module ContentConfig {
  import opened Wrappers
  import opened JsValue
  import BlogTypes

  // ---------------------------------------------------------------------------
  // The declared schema

  /** The two field validators the schema uses: `z.string()` and `z.array(z.string())`. */
  datatype FieldKind = Text | TextList

  /** The `z.object({...})` shape of the blog collection, in declaration order. */
  const BlogSchema: seq<(string, FieldKind)> := [
    ("title", Text),
    ("pubDate", Text),
    ("description", Text),
    ("author", Text),
    ("tags", TextList)
  ]

  /** The keys the schema declares. */
  const SchemaKeys: set<string> := set i | 0 <= i < |BlogSchema| :: BlogSchema[i].0

  /** The declared keys, listed. */
  lemma SchemaKeysListed()
    ensures SchemaKeys == {"title", "pubDate", "description", "author", "tags"}
  {
    assert BlogSchema[0].0 == "title" && BlogSchema[1].0 == "pubDate" && BlogSchema[2].0 == "description";
    assert BlogSchema[3].0 == "author" && BlogSchema[4].0 == "tags";
  }

  predicate KindAccepts(kind: FieldKind, x: Value) {
    match kind
    case Text => x.Str?
    case TextList => IsStringArray(x)
  }

  /** `v` is a plain object and every declared key holds a value of its declared kind. */
  predicate MatchesSchema(schema: seq<(string, FieldKind)>, v: Value) {
    v.Obj? && forall i | 0 <= i < |schema| :: KindAccepts(schema[i].1, Own(v, schema[i].0))
  }

  /** `[key]` when `v`'s field `key` is rejected by `kind`, `[]` otherwise. */
  function FieldBlame(field: (string, FieldKind), v: Value): (blamed: seq<string>) {
    if KindAccepts(field.1, Own(v, field.0)) then [] else [field.0]
  }

  /** The declared keys whose value is rejected, in declaration order. */
  function FailingKeys(schema: seq<(string, FieldKind)>, v: Value): (bad: seq<string>) {
    if schema == [] then [] else FieldBlame(schema[0], v) + FailingKeys(schema[1..], v)
  }

  /**
    `FailingKeys` names exactly the rejected fields: it is empty iff the
    object's fields all match, it names every rejected field, and it names
    only declared keys whose value is rejected.
   */
  lemma {:induction false} FailingKeysExact(schema: seq<(string, FieldKind)>, v: Value)
    ensures FailingKeys(schema, v) == [] <==>
      forall i | 0 <= i < |schema| :: KindAccepts(schema[i].1, Own(v, schema[i].0))
    ensures forall i | 0 <= i < |schema| ::
      !KindAccepts(schema[i].1, Own(v, schema[i].0)) ==> schema[i].0 in FailingKeys(schema, v)
    ensures forall k | k in FailingKeys(schema, v) ::
      exists i | 0 <= i < |schema| :: schema[i].0 == k && !KindAccepts(schema[i].1, Own(v, k))
  {
    if schema != [] {
      FailingKeysExact(schema[1..], v);
      assert forall i | 1 <= i < |schema| :: schema[i] == schema[1..][i - 1];
    }
  }

  // ---------------------------------------------------------------------------
  // The validator

  /** The validated frontmatter: the schema's output type, where `pubDate` is still a string. */
  datatype BlogData = BlogData(
    title: string,
    pubDate: string,
    description: string,
    author: string,
    tags: seq<string>)

  /** Why an entry's frontmatter was rejected. */
  datatype SchemaError =
    | ExpectedObject
    | InvalidFields(fields: seq<string>)

  /** The strings of `items`, in order, if every element is a string. */
  function StringItems(items: seq<Value>): (r: Option<seq<string>>)
    ensures r.Some? <==> forall i | 0 <= i < |items| :: items[i].Str?
    ensures r.Some? ==> |r.value| == |items|
    ensures r.Some? ==> forall i | 0 <= i < |items| :: items[i] == Str(r.value[i])
  {
    if items == [] then Some([])
    else
      match items[0]
      case Str(s) =>
        (match StringItems(items[1..])
         case Some(rest) => Some([s] + rest)
         case None => None)
      case _ => None
  }

  /** `z.string()` applied to one field. */
  function AsText(x: Value): (r: Option<string>)
    ensures r.Some? <==> KindAccepts(Text, x)
    ensures r.Some? ==> x == Str(r.value)
  {
    if x.Str? then Some(x.s) else None
  }

  /**
    `z.array(z.string())` applied to one field; order and duplicates are kept.
    The result is a fresh array: named properties of the input array are dropped.
   */
  function AsTextList(x: Value): (r: Option<seq<string>>)
    ensures r.Some? <==> KindAccepts(TextList, x)
    ensures r.Some? ==> x.items == TextValues(r.value)
  {
    if x.Arr? then StringItems(x.items) else None
  }

  /** `a` and `b` hold the same data; for arrays only the elements count. */
  predicate SameContent(a: Value, b: Value) {
    if a.Arr? then b.Arr? && a.items == b.items else a == b
  }

  /** `[key]` when the field was rejected, `[]` when it was accepted. */
  function Blame<T>(key: string, field: Option<T>): (blamed: seq<string>) {
    if field.Some? then [] else [key]
  }

  /**
    Validates the frontmatter of one entry. Each declared field is checked in
    declaration order; every rejected field is reported, not just the first.
    Keys the schema does not declare (such as `image`) are neither required
    nor copied into the result.
   */
  function ParseBlogData(v: Value): (r: Result<BlogData, SchemaError>)
    ensures r.Success? <==> MatchesSchema(BlogSchema, v)
    ensures !v.Obj? ==> r == Failure(ExpectedObject)
    ensures v.Obj? && r.Failure? ==>
      r.error == InvalidFields(FailingKeys(BlogSchema, v)) && r.error.fields != []
    ensures r.Success? ==>
      forall i | 0 <= i < |BlogSchema| :: SameContent(Own(v, BlogSchema[i].0), Own(ToValue(r.value), BlogSchema[i].0))
  {
    if !v.Obj? then Failure(ExpectedObject)
    else
      var title := AsText(Own(v, "title"));
      var pubDate := AsText(Own(v, "pubDate"));
      var description := AsText(Own(v, "description"));
      var author := AsText(Own(v, "author"));
      var tags := AsTextList(Own(v, "tags"));
      BlogSchemaUnfolded(v);
      BlogFailingKeysUnfolded(v);
      if title.Some? && pubDate.Some? && description.Some? && author.Some? && tags.Some? then
        Success(BlogData(title.value, pubDate.value, description.value, author.value, tags.value))
      else
        Failure(InvalidFields(
          Blame("title", title) + Blame("pubDate", pubDate) + Blame("description", description)
          + Blame("author", author) + Blame("tags", tags)))
  }

  /** Spells out the five declared fields of the schema. */
  lemma BlogSchemaUnfolded(v: Value)
    ensures MatchesSchema(BlogSchema, v) <==>
      && v.Obj?
      && KindAccepts(Text, Own(v, "title"))
      && KindAccepts(Text, Own(v, "pubDate"))
      && KindAccepts(Text, Own(v, "description"))
      && KindAccepts(Text, Own(v, "author"))
      && KindAccepts(TextList, Own(v, "tags"))
  {
    var s := BlogSchema;
    assert s[0] == ("title", Text) && s[1] == ("pubDate", Text) && s[2] == ("description", Text);
    assert s[3] == ("author", Text) && s[4] == ("tags", TextList);
  }

  /** `FailingKeys` over any five-field schema is the five fields' blame, in order. */
  lemma FailingKeysOfFive(a: (string, FieldKind), b: (string, FieldKind), c: (string, FieldKind),
                          d: (string, FieldKind), e: (string, FieldKind), v: Value)
    ensures FailingKeys([a, b, c, d, e], v) ==
      FieldBlame(a, v) + FieldBlame(b, v) + FieldBlame(c, v) + FieldBlame(d, v) + FieldBlame(e, v)
  {
    var s := [a, b, c, d, e];
    assert s[1..] == [b, c, d, e] && s[1..][1..] == [c, d, e];
    assert s[1..][1..][1..] == [d, e] && s[1..][1..][1..][1..] == [e] && [e][1..] == [];
    var ba, bb, bc, bd, be := FieldBlame(a, v), FieldBlame(b, v), FieldBlame(c, v), FieldBlame(d, v), FieldBlame(e, v);
    assert FailingKeys([e], v) == be;
    assert FailingKeys([d, e], v) == bd + be;
    assert FailingKeys([c, d, e], v) == bc + (bd + be);
    assert FailingKeys([b, c, d, e], v) == bb + (bc + (bd + be));
    assert FailingKeys(s, v) == ba + (bb + (bc + (bd + be)));
  }

  /** Spells out `FailingKeys` over the five declared fields of the schema. */
  lemma BlogFailingKeysUnfolded(v: Value)
    ensures FailingKeys(BlogSchema, v) ==
      FieldBlame(("title", Text), v) + FieldBlame(("pubDate", Text), v)
      + FieldBlame(("description", Text), v) + FieldBlame(("author", Text), v)
      + FieldBlame(("tags", TextList), v)
  {
    FailingKeysOfFive(("title", Text), ("pubDate", Text), ("description", Text), ("author", Text),
                      ("tags", TextList), v);
  }

  // ---------------------------------------------------------------------------
  // The inverse: the frontmatter object a validated record came from

  function TextValues(ts: seq<string>): (vs: seq<Value>) {
    seq(|ts|, i requires 0 <= i < |ts| => Str(ts[i]))
  }

  /** The plain frontmatter object holding exactly the five declared fields of `d`. */
  function ToValue(d: BlogData): (v: Value) {
    Obj(map[
      "title" := Str(d.title),
      "pubDate" := Str(d.pubDate),
      "description" := Str(d.description),
      "author" := Str(d.author),
      "tags" := Arr(TextValues(d.tags), map[])])
  }

  /** Validating the object a record describes gives back that record, tags included as authored. */
  lemma ParseToValue(d: BlogData)
    ensures ParseBlogData(ToValue(d)) == Success(d)
  {
    var v := ToValue(d);
    BlogSchemaUnfolded(v);
    var tags := AsTextList(Own(v, "tags"));
    assert tags.Some?;
    assert tags.value == d.tags;
  }

  /** A validated record determines the declared fields of its input: they are exactly `ToValue`'s. */
  lemma ParsedFieldsDetermineInput(v: Value, d: BlogData)
    requires ParseBlogData(v) == Success(d)
    ensures v.Obj?
    ensures forall k | k in SchemaKeys :: SameContent(Own(v, k), Own(ToValue(d), k))
  {
  }

  // ---------------------------------------------------------------------------
  // Consequences of the schema

  /** Keys outside the schema, `image` among them, never affect the outcome. */
  lemma UndeclaredKeysIgnored(m: map<string, Value>, key: string, x: Value)
    requires key !in SchemaKeys
    ensures ParseBlogData(Obj(m[key := x])) == ParseBlogData(Obj(m))
  {
    SchemaKeysListed();
    assert forall k | k in SchemaKeys :: Own(Obj(m[key := x]), k) == Own(Obj(m), k);
  }

  /** Removing a key outside the schema never affects the outcome either. */
  lemma UndeclaredKeyRemoved(m: map<string, Value>, key: string)
    requires key !in SchemaKeys
    ensures ParseBlogData(Obj(m - {key})) == ParseBlogData(Obj(m))
  {
    SchemaKeysListed();
    assert forall k | k in SchemaKeys :: Own(Obj(m - {key}), k) == Own(Obj(m), k);
  }

  /** `image`, optional in `BlogFrontmatter`, is neither required nor checked. */
  lemma ImageNeverRequired(m: map<string, Value>, image: Value)
    ensures ParseBlogData(Obj(m["image" := image])) == ParseBlogData(Obj(m))
    ensures ParseBlogData(Obj(m - {"image"})) == ParseBlogData(Obj(m))
  {
    SchemaKeysListed();
    UndeclaredKeysIgnored(m, "image", image);
    UndeclaredKeyRemoved(m, "image");
  }

  /** A single non-string element anywhere in `tags` rejects the whole entry, blaming `tags`. */
  lemma OneBadTagRejects(v: Value, i: int)
    requires v.Obj? && Own(v, "tags").Arr?
    requires 0 <= i < |Own(v, "tags").items| && !Own(v, "tags").items[i].Str?
    ensures ParseBlogData(v).Failure?
    ensures "tags" in ParseBlogData(v).error.fields
  {
  }

  /**
    No date parsing and no emptiness check happen at validation: an empty
    title, a `pubDate` that is not a date and an empty tag list are accepted.
   */
  lemma LooseFieldsAccepted()
    ensures ParseBlogData(Obj(map[
      "title" := Str(""), "pubDate" := Str("not a date"), "description" := Str(""),
      "author" := Str(""), "tags" := Arr([], map[])]))
      == Success(BlogData("", "not a date", "", "", []))
  {
  }

  /**
    The schema and the static type `BlogFrontmatter` disagree on `pubDate`: no
    value satisfies both, and a value of the declared type is rejected for
    `pubDate` alone.
   */
  lemma SchemaContradictsFrontmatterType(v: Value)
    ensures ParseBlogData(v).Success? ==> !BlogTypes.IsFrontmatter(v)
    ensures BlogTypes.IsFrontmatter(v) ==> ParseBlogData(v) == Failure(InvalidFields(["pubDate"]))
  {
    BlogSchemaUnfolded(v);
    BlogFailingKeysUnfolded(v);
    if BlogTypes.IsFrontmatter(v) {
      assert FailingKeys(BlogSchema, v) == ["pubDate"];
      assert ParseBlogData(v).Failure?;
    }
  }

  // ---------------------------------------------------------------------------
  // The collection registry

  /** The loader is configuration only: a glob pattern and a base directory. */
  datatype Loader = Glob(pattern: string, base: string)

  datatype CollectionConfig = CollectionConfig(loader: Loader, schema: seq<(string, FieldKind)>)

  /** `collections`: the blog collection, registered under its name. */
  const Collections: map<string, CollectionConfig> :=
    map["blog" := CollectionConfig(Glob("**/*.md", "./src/blog"), BlogSchema)]

  /**
    The only registered collection is the one whose name `isBlogPost` demands,
    and it is validated by the blog schema.
   */
  lemma RegistryMatchesGuard(v: Value)
    ensures Collections.Keys == {BlogTypes.BlogCollection}
    ensures Collections[BlogTypes.BlogCollection].schema == BlogSchema
    ensures BlogTypes.IsBlogPost(v) ==> Own(v, "collection").s in Collections
  {
  }

  /**
    An entry of a registered collection whose frontmatter passed the schema,
    either as authored or as validated, passes `isBlogPost`.
   */
  lemma ValidatedEntryPassesGuard(name: string, id: string, raw: Value, body: string)
    requires name in Collections
    requires ParseBlogData(raw).Success?
    ensures BlogTypes.IsBlogPost(Obj(map[
      "id" := Str(id), "data" := raw, "body" := Str(body), "collection" := Str(name)]))
    ensures BlogTypes.IsBlogPost(Obj(map[
      "id" := Str(id), "data" := ToValue(ParseBlogData(raw).value), "body" := Str(body),
      "collection" := Str(name)]))
  {
  }
}
