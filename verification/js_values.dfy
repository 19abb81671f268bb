/**
 * The part of JavaScript's value semantics that the service worker relies on:
 * truthiness, the `||` operator and reading a named property.
 */
module JsValues {

  /** A JavaScript value as it arrives in a message or a push payload. */
  datatype Value =
    | Undefined
    | Null
    | Bool(b: bool)
    | Num(n: real)
    | NaN
    | Str(s: string)
    | Array(items: seq<Value>)
    | Object(fields: map<string, Value>)

  /** `null` or `undefined`: reading a property of these throws a TypeError. */
  predicate Nullish(v: Value)
  {
    v.Undefined? || v.Null?
  }

  /** JavaScript truthiness: `undefined`, `null`, `false`, `0`, `NaN` and `""` are falsy. */
  predicate Truthy(v: Value)
  {
    match v
    case Undefined => false
    case Null => false
    case Bool(b) => b
    case Num(n) => n != 0.0
    case NaN => false
    case Str(s) => s != ""
    case Array(_) => true
    case Object(_) => true
  }

  /** `a || b`: the left operand when it is truthy, the right one otherwise. */
  function Or(a: Value, b: Value): (r: Value)
    ensures r == a || r == b
    ensures Truthy(r) <==> Truthy(a) || Truthy(b)
    ensures Truthy(b) ==> Truthy(r)
  {
    if Truthy(a) then a else b
  }

  /**
   * `v.key` for a key that is an own property of plain objects only (the keys
   * read here, `title`, `body`, `url` and `type`, exist on no built-in prototype).
   * JavaScript throws a TypeError on a nullish `v`; callers must rule that out.
   */
  function Get(v: Value, key: string): (r: Value)
    requires !Nullish(v)
    ensures r != Undefined ==> v.Object? && key in v.fields && r == v.fields[key]
    ensures v.Object? && key in v.fields ==> r == v.fields[key]
  {
    match v
    case Object(fields) => if key in fields then fields[key] else Undefined
    case _ => Undefined
  }
}
