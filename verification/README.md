# blogbuster content model in Dafny

This project models the two pieces of checkable behaviour in the blogbuster
blog front-end.

- **The `isBlogPost` type guard** (`src/types/blog.ts`). It decides whether an
  arbitrary runtime value has the `BlogPost` shape.
- **The frontmatter schema of the `blog` content collection**
  (`src/content.config.ts`). The source declares it with zod. Here it is an
  explicit field-by-field validator that returns either the typed frontmatter
  or the list of rejected fields.

Modules, one per concern:

- `Wrappers` (`wrappers.dfy`): `Option` and `Result`.
- `JsValue` (`js_value.dfy`): JavaScript runtime values. It has
  `undefined`, `null`, booleans, numbers, strings, arrays, `Date` objects and
  plain objects. Objects, arrays and dates each carry their own named
  properties. It defines `typeof` and property reads. A read on `null` or
  `undefined` throws a `TypeError`, so it is a `Result`.
- `BlogTypes` (`blog_types.dfy`): the interfaces of `src/types/blog.ts` as
  predicates on values (`IsFrontmatter`, `IsBlogPostType`, ...). It also holds
  the guard `IsBlogPost`, written check by check as in the source. Its property
  reads go through `Member`, which may not be called on `null`/`undefined`.
  Dafny therefore confirms that the `typeof` and `!== null` tests come first
  and protect every read.
- `ContentConfig` (`content_config.dfy`) holds four things:
  - the schema as a declaration (`BlogSchema`);
  - the validator `ParseBlogData`;
  - its inverse `ToValue`;
  - the `collections` registry.

Two facts about the code are worth stating up front:

- `z.string()` (`src/content.config.ts:8`) accepts the empty string, so an
  empty `title` is valid (`LooseFieldsAccepted`).
- `pubDate` is `z.string()` in the schema (`src/content.config.ts:9`) but a
  `Date` in `BlogFrontmatter` (`src/types/blog.ts:3`). The schema parses no
  date, so no value meets both the schema and the declared type
  (`SchemaContradictsFrontmatterType`).

## Model

| member | source | states |
|---|---|---|
| `JsValue.TypeOf` | src/types/blog.ts:67-72 | `typeof` yields one of five tags. "object" is reported exactly for `null`, arrays, dates and plain objects. "string" is reported exactly for strings. |
| `JsValue.GetProperty` | src/types/blog.ts:69-73 | Reading a property throws exactly when the value is `null` or `undefined`. Otherwise it yields the value's own named property (objects, arrays and dates can carry one), or `undefined` when it has none. |
| `BlogTypes.IsBlogPost` | src/types/blog.ts:65-75 | Accepts exactly the non-null objects (plain objects, arrays or dates) where `id` is a string, `data` has `typeof` "object" (`null`, array, date or object), `body` is a string and `collection` is the string "blog". The property reads never throw. |
| `BlogTypes.NullPassesTypeofButIsRejected` | src/types/blog.ts:67-68 | `typeof null` is "object" and reading `null.id` throws. Even so, the guard rejects `null`. |
| `BlogTypes.NonObjectsRejected` | src/types/blog.ts:67 | Any value whose `typeof` is not "object" is rejected: undefined, booleans, numbers and strings. |
| `BlogTypes.EachCheckIsNeeded` | src/types/blog.ts:69-73 | For any value, each failing check alone causes rejection: `id` not a string, `data` not of `typeof` "object", `body` not a string, or `collection` not "blog". |
| `BlogTypes.WellTypedPostsPass` | src/types/blog.ts:29-37 | Every value that has the full declared `BlogPost` type passes the guard. |
| `BlogTypes.GuardAcceptsNonPosts` | src/types/blog.ts:66-74 | The guard accepts values that are not `BlogPost`s: `{id:"x", data:{}, body:"", collection:"blog"}`, and the same with `data: null` or `data: []`. It rejects `{}`. |
| `BlogTypes.ArraysAndDatesCanPass` | src/types/blog.ts:67-73 | An array or a date carrying `id`, `data`, `body` and `collection` passes the guard without being a `BlogPost`. An array without them fails. |
| `BlogTypes.UnprobedKeysIgnored` | src/types/blog.ts:66-74 | On any value (plain object, array or date), setting any key other than `id`, `data`, `body` and `collection` never changes the verdict. This covers `filePath`, `digest` and `rendered`. |
| `BlogTypes.DataContentsIgnored` | src/types/blog.ts:70 | In any accepted post (plain object, array or date), `data` can be replaced by any value whose `typeof` is "object" and the post is still accepted. |
| `BlogTypes.CollectionMustBeBlog` | src/types/blog.ts:72-73 | In any accepted post (plain object, array or date), a new `collection` value is accepted exactly when it is the string "blog". |
| `ContentConfig.SchemaKeysListed` | src/content.config.ts:7-13 | The keys of the declared shape are exactly `title`, `pubDate`, `description`, `author` and `tags`. |
| `ContentConfig.FailingKeysExact` | src/content.config.ts:7-13 | The rejected-key list of a schema is empty exactly when every field matches its kind. It names every rejected key and only rejected declared keys. |
| `ContentConfig.StringItems` | src/content.config.ts:12 | An element list gives its strings exactly when every element is a string. The result has the same length, with each element's string in order. |
| `ContentConfig.AsText` | src/content.config.ts:8-11 | `z.string()` accepts a field exactly when it is a string, and yields that string. |
| `ContentConfig.AsTextList` | src/content.config.ts:12 | `z.array(z.string())` accepts a field exactly when it is an array of strings. It yields the strings, and re-encoding them gives back the array's elements unchanged. |
| `ContentConfig.ParseBlogData` | src/content.config.ts:7-13 | Succeeds exactly when the value is a plain object whose five declared fields match their kinds. A non-object gives `ExpectedObject`. An object that fails gives the non-empty list of rejected keys in declaration order. On success the declared fields of the input hold the same data as those of the result (for `tags`, the same elements). |
| `ContentConfig.ParseToValue` | src/content.config.ts:7-13 | Validating the frontmatter object of any record gives back that same record. Tags keep their order and duplicates. |
| `ContentConfig.ParsedFieldsDetermineInput` | src/content.config.ts:7-13 | Corollary of `ParseBlogData`'s contract, stated over the key set: a successful validation means the input is a plain object whose declared fields hold the same data as the result's frontmatter object (for `tags`, the same elements). |
| `ContentConfig.UndeclaredKeysIgnored` | src/content.config.ts:7-13 | Setting a key the schema does not declare never changes the validation outcome. |
| `ContentConfig.UndeclaredKeyRemoved` | src/content.config.ts:7-13 | Removing a key the schema does not declare never changes the validation outcome. |
| `ContentConfig.ImageNeverRequired` | src/content.config.ts:7-13 | Adding, changing or removing `image` never changes the outcome. `image` is optional in `BlogFrontmatter`. |
| `ContentConfig.OneBadTagRejects` | src/content.config.ts:12 | A single non-string element anywhere in `tags` rejects the entry, and `tags` is among the reported fields. |
| `ContentConfig.LooseFieldsAccepted` | src/content.config.ts:8-12 | Validation does no emptiness check and no date parsing: empty strings, a `pubDate` that is not a date and an empty tag list are all accepted. |
| `ContentConfig.SchemaContradictsFrontmatterType` | src/content.config.ts:9 | No value passes the schema and also has the declared `BlogFrontmatter` type, whose `pubDate` is a `Date`. A value of that type is rejected for `pubDate` alone. |
| `ContentConfig.RegistryMatchesGuard` | src/content.config.ts:16 | The registry has exactly one key, "blog", validated by the blog schema. Every post the guard accepts names a registered collection. |
| `ContentConfig.ValidatedEntryPassesGuard` | src/content.config.ts:5-16 | An entry of a registered collection passes `isBlogPost` when its frontmatter passed the schema, whether the frontmatter is as authored or as validated. |

## Left out

- `src/components/shared/Navigation.tsx` and `src/components/TagButton.tsx`:
  these are JSX composition with no behaviour beyond rendering their props.
- The `glob` loader (`src/content.config.ts:6`): it does file-system I/O and
  pattern matching inside the site framework. Its pattern and base directory
  are kept only as configuration constants.
- `BlogQueryOptions` filtering, sorting and limiting, per-file load error
  isolation, and single-post lookup: only type declarations exist, and there is
  no implementation to model.
- Markdown rendering, heading extraction, image-path collection, date parsing
  and `digest` hashing: the framework produces these, and the code shown
  implements none of them. Their types are modelled as predicates only
  (`IsRenderedContent`, `IsRenderMetadata`, `IsHeading`).
- zod internals: error messages, coercion and per-element issue paths. All
  element problems in `tags` are reported as one `tags` entry. Stripping
  unknown keys is modelled only in that the typed result has no place for them.
- JavaScript detail outside this model: functions, symbols, `NaN` and object
  identity. Numbers and dates carry a `real`.
- JsValue.GetProperty: a read sees only named own properties; array indices,
  `length` and the prototype chain are not modelled. Every modelled value has
  a standard prototype (object literals, parsed YAML or JSON, arrays, dates),
  and none of the keys the guard or the schema reads is an index, `length` or
  a name such a prototype defines. A value that inherits the read keys, such
  as `Object.create({id: "x", data: {}, body: "", collection: "blog"})` or a
  class instance with getters for them, passes the real guard and the real
  schema checks but has no counterpart in the model.
- ContentConfig.ParseBlogData: named properties set on the `tags` array are
  not kept in the result, because `z.array` builds a fresh array of the
  elements; the contract therefore relates `tags` by elements only.
- The declared interfaces (`IsFrontmatter`, `IsBlogPostType`, ...) are
  modelled as plain objects, the form the content loader produces; an array
  or date dressed with the same properties is not counted as having the type.
