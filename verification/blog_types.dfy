/**
  The blog post types of src/types/blog.ts and the `isBlogPost` type guard.

  A TypeScript interface is a structural promise about a runtime value, so each
  interface here becomes a predicate over `JsValue.Value`: the value is an
  object whose named properties have the declared types (extra properties are
  allowed, as in TypeScript). `isBlogPost` is then modelled exactly as written
  and compared with the type it claims to establish.
 */
module BlogTypes {
  import opened JsValue

  /** The only collection name a post can carry (`collection: "blog"`). */
  const BlogCollection: string := "blog"

  /** The keys `isBlogPost` reads; nothing else of the value is looked at. */
  const GuardKeys: set<string> := {"id", "data", "body", "collection"}

  // ---------------------------------------------------------------------------
  // The declared types

  // Values of these interface types are plain object literals, as the
  // content loader produces them.

  /** `BlogFrontmatter`: `pubDate` is a `Date` and `image` is optional. */
  predicate IsFrontmatter(v: Value) {
    && v.Obj?
    && Own(v, "title").Str?
    && Own(v, "pubDate").DateObj?
    && Own(v, "description").Str?
    && Own(v, "author").Str?
    && IsStringArray(Own(v, "tags"))
    && (Own(v, "image").Undefined? || Own(v, "image").Str?)
  }

  /** `Heading`: one entry of a rendered document outline. */
  predicate IsHeading(v: Value) {
    && v.Obj?
    && Own(v, "depth").Num?
    && Own(v, "slug").Str?
    && Own(v, "text").Str?
  }

  predicate IsHeadingArray(v: Value) {
    v.Arr? && forall i | 0 <= i < |v.items| :: IsHeading(v.items[i])
  }

  /** `RenderMetadata`. */
  predicate IsRenderMetadata(v: Value) {
    && v.Obj?
    && IsHeadingArray(Own(v, "headings"))
    && IsStringArray(Own(v, "localImagePaths"))
    && IsStringArray(Own(v, "remoteImagePaths"))
    && IsFrontmatter(Own(v, "frontmatter"))
    && IsStringArray(Own(v, "imagePaths"))
  }

  /** `RenderedContent`. */
  predicate IsRenderedContent(v: Value) {
    && v.Obj?
    && Own(v, "html").Str?
    && IsRenderMetadata(Own(v, "metadata"))
  }

  /** `BlogPost`: everything the guard's `value is BlogPost` claims. */
  predicate IsBlogPostType(v: Value) {
    && v.Obj?
    && Own(v, "id").Str?
    && IsFrontmatter(Own(v, "data"))
    && Own(v, "body").Str?
    && Own(v, "filePath").Str?
    && Own(v, "digest").Str?
    && IsRenderedContent(Own(v, "rendered"))
    && Own(v, "collection") == Str(BlogCollection)
  }

  // ---------------------------------------------------------------------------
  // The guard

  /**
    `isBlogPost(value)`: seven checks joined by short-circuit `&&`. The
    property reads are `Member` calls, which may not be reached with `null`
    or `undefined`; the checks before them are what rule that out.
   */
  function IsBlogPost(value: Value): (accepted: bool)
    ensures accepted <==>
      && IsObject(value)
      && Own(value, "id").Str?
      && (Own(value, "data").Null? || IsObject(Own(value, "data")))
      && Own(value, "body").Str?
      && Own(value, "collection") == Str(BlogCollection)
  {
    && TypeOf(value) == "object"
    && value != Null
    && TypeOf(Member(value, "id")) == "string"
    && TypeOf(Member(value, "data")) == "object"
    && TypeOf(Member(value, "body")) == "string"
    && TypeOf(Member(value, "collection")) == "string"
    && Member(value, "collection") == Str(BlogCollection)
  }

  // ---------------------------------------------------------------------------
  // What the guard does and does not establish

  /** Without the `null` test the first property read would throw: `typeof null` is "object". */
  lemma NullPassesTypeofButIsRejected()
    ensures TypeOf(Null) == "object"
    ensures GetProperty(Null, "id") == Wrappers.Failure(CannotReadProperty("id"))
    ensures !IsBlogPost(Null)
  {
  }

  /** Any value whose `typeof` is not "object" is rejected by the first check alone. */
  lemma NonObjectsRejected(v: Value)
    requires TypeOf(v) != "object"
    ensures !IsBlogPost(v)
    ensures v.Undefined? || v.Bool? || v.Num? || v.Str?
  {
  }

  /** Each of the four probed properties can on its own make the guard fail. */
  lemma EachCheckIsNeeded(v: Value)
    ensures !Own(v, "id").Str? ==> !IsBlogPost(v)
    ensures TypeOf(Own(v, "data")) != "object" ==> !IsBlogPost(v)
    ensures !Own(v, "body").Str? ==> !IsBlogPost(v)
    ensures Own(v, "collection") != Str(BlogCollection) ==> !IsBlogPost(v)
  {
  }

  /** The guard is complete for its type: every well-typed `BlogPost` passes. */
  lemma WellTypedPostsPass(v: Value)
    requires IsBlogPostType(v)
    ensures IsBlogPost(v)
  {
  }

  /**
    The guard is not sound for its type. The smallest accepted object lacks
    `filePath`, `digest` and `rendered`, and `data` may be `null`, an array
    or an empty object, none of which is a `BlogFrontmatter`.
   */
  lemma GuardAcceptsNonPosts()
    ensures var minimal := Obj(map["id" := Str("x"), "data" := Obj(map[]), "body" := Str(""),
                                   "collection" := Str("blog")]);
      IsBlogPost(minimal) && !IsBlogPostType(minimal)
    ensures var nullData := Obj(map["id" := Str("x"), "data" := Null, "body" := Str(""),
                                    "collection" := Str("blog")]);
      IsBlogPost(nullData) && !IsBlogPostType(nullData)
    ensures var arrayData := Obj(map["id" := Str("x"), "data" := Arr([], map[]), "body" := Str(""),
                                     "collection" := Str("blog")]);
      IsBlogPost(arrayData) && !IsBlogPostType(arrayData)
    ensures !IsBlogPost(Obj(map[]))
  {
    var minimal := Obj(map["id" := Str("x"), "data" := Obj(map[]), "body" := Str(""),
                           "collection" := Str("blog")]);
    assert !IsFrontmatter(Own(minimal, "data"));
  }

  /**
    Arrays and dates are objects too: one carrying the four probed properties
    passes the guard, though it is no `BlogPost`.
   */
  lemma ArraysAndDatesCanPass(props: map<string, Value>)
    requires props == map["id" := Str("x"), "data" := Obj(map[]), "body" := Str(""),
                          "collection" := Str("blog")]
    ensures IsBlogPost(Arr([], props)) && !IsBlogPostType(Arr([], props))
    ensures IsBlogPost(DateObj(0.0, props)) && !IsBlogPostType(DateObj(0.0, props))
    ensures !IsBlogPost(Arr([Str("x")], map[]))
  {
  }

  /**
    Only the four probed keys matter: overwriting or adding any other
    property (`filePath`, `digest`, `rendered`, ...) of any value never
    changes the verdict.
   */
  lemma UnprobedKeysIgnored(v: Value, key: string, x: Value)
    requires key !in GuardKeys
    ensures IsBlogPost(SetProp(v, key, x)) == IsBlogPost(v)
  {
  }

  /** The contents of `data` are never inspected: any `typeof "object"` value will do. */
  lemma DataContentsIgnored(v: Value, d: Value)
    requires IsBlogPost(v)
    requires TypeOf(d) == "object"
    ensures IsBlogPost(SetProp(v, "data", d))
  {
  }

  /** `collection` must be exactly the string "blog"; any other value fails. */
  lemma CollectionMustBeBlog(v: Value, c: Value)
    requires IsBlogPost(v)
    ensures IsBlogPost(SetProp(v, "collection", c)) <==> c == Str("blog")
  {
  }
}
