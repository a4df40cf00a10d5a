/**
  The runtime values a TypeScript validator can be handed, with the two
  JavaScript operations the blog's validators use on them: `typeof` and
  reading a named property.

  Plain objects, arrays and dates all carry a map of named own properties;
  an array's elements live in `items`. Array indices, `length` and the
  prototype chain are not modelled: every value here has a standard
  prototype, as object literals, parsed YAML or JSON, arrays and dates do,
  and none of the keys the blog's validators read (`id`, `data`, `body`,
  `collection`, `title`, `pubDate`, `description`, `author`, `tags`,
  `image`) is an index, `length` or a name those standard prototypes
  define. For such values a read of those keys finds a named own property
  or nothing. A value that inherits the keys (through `Object.create` or
  class getters) has no counterpart here.
 */
module JsValue {
  import opened Wrappers

  datatype Value =
    | Undefined
    | Null
    | Bool(b: bool)
    | Num(n: real)
    | Str(s: string)
    | Arr(items: seq<Value>, props: map<string, Value>)
    | DateObj(time: real, props: map<string, Value>)
    | Obj(fields: map<string, Value>)

  /** The error JavaScript raises when a property of `null` or `undefined` is read. */
  datatype TypeError = CannotReadProperty(key: string)

  /** JavaScript `typeof`: five tags, with `null`, arrays and dates all reporting "object". */
  function TypeOf(v: Value): (t: string)
    ensures t in {"undefined", "boolean", "number", "string", "object"}
    ensures t == "object" <==> v.Null? || v.Arr? || v.DateObj? || v.Obj?
    ensures t == "undefined" <==> v.Undefined?
    ensures t == "string" <==> v.Str?
  {
    match v
    case Undefined => "undefined"
    case Null => "object"
    case Bool(_) => "boolean"
    case Num(_) => "number"
    case Str(_) => "string"
    case Arr(_, _) => "object"
    case DateObj(_, _) => "object"
    case Obj(_) => "object"
  }

  predicate IsNullish(v: Value) {
    v.Undefined? || v.Null?
  }

  /** A value `typeof` reports as "object" that is not `null`: it can carry named properties. */
  predicate IsObject(v: Value) {
    v.Obj? || v.Arr? || v.DateObj?
  }

  /** The named own properties of `v`; primitives have none. */
  function Props(v: Value): (props: map<string, Value>) {
    match v
    case Obj(fields) => fields
    case Arr(_, props) => props
    case DateObj(_, props) => props
    case _ => map[]
  }

  /** The own property `key` of `v`, or `undefined` when `v` has none. */
  function Own(v: Value, key: string): (r: Value) {
    if key in Props(v) then Props(v)[key] else Undefined
  }

  /** `v` with its own property `key` set to `x`; primitives carry no properties and are unchanged. */
  function SetProp(v: Value, key: string, x: Value): (r: Value)
    ensures IsObject(v) ==> IsObject(r) && Props(r) == Props(v)[key := x]
    ensures !IsObject(v) ==> r == v
  {
    match v
    case Obj(fields) => Obj(fields[key := x])
    case Arr(items, props) => Arr(items, props[key := x])
    case DateObj(time, props) => DateObj(time, props[key := x])
    case _ => v
  }

  /** JavaScript `v.key`: throws on `null` and `undefined`, yields `undefined` for a missing key. */
  function GetProperty(v: Value, key: string): (r: Result<Value, TypeError>)
    ensures r.Failure? <==> IsNullish(v)
    ensures r.Success? ==> r.value == Own(v, key)
  {
    if IsNullish(v) then Failure(CannotReadProperty(key)) else Success(Own(v, key))
  }

  /** A property read the caller has already shown cannot throw. */
  function Member(v: Value, key: string): (r: Value)
    requires !IsNullish(v)
  {
    GetProperty(v, key).value
  }

  /** The TypeScript type `string[]`: an array every element of which is a string. */
  predicate IsStringArray(v: Value) {
    v.Arr? && forall i | 0 <= i < |v.items| :: v.items[i].Str?
  }
}
