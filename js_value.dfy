/**
 * JavaScript values as the bridge handles them: the records it builds and
 * forwards (`Record<string, any>`), the way `if (x)` and `x || y` read them,
 * and the way a template literal turns them into text.
 */
module JsValue {
  import opened JsText

  /** A JavaScript value. Numbers are integers; objects are compared by content. */
  datatype Value =
    | Undefined
    | Null
    | Bool(b: bool)
    | Num(n: int)
    | Str(s: string)
    | Obj(fields: map<string, Value>)

  /** A plain record, such as the `data` of an event. */
  type Data = map<string, Value>

  /** `d.k`: a missing property reads as `undefined`. */
  function Get(d: Data, k: string): Value
  {
    if k in d then d[k] else Undefined
  }

  /** `v.k` on a value that is known not to be null or undefined. */
  function Field(v: Value, k: string): Value
  {
    if v.Obj? && k in v.fields then v.fields[k] else Undefined
  }

  /** ToBoolean: what `if (v)` tests. */
  predicate Truthy(v: Value)
  {
    match v
    case Undefined => false
    case Null => false
    case Bool(b) => b
    case Num(n) => n != 0
    case Str(s) => s != []
    case Obj(_) => true
  }

  /** The result of an awaited call into the Ring client: its value, or a throw. */
  datatype Settled<T> = Ok(value: T) | Threw

  /** `a || b`. */
  function Or(a: Value, b: Value): (r: Value)
    ensures Truthy(r) <==> Truthy(a) || Truthy(b)
    ensures r == a || r == b
  {
    if Truthy(a) then a else b
  }

  /** `a && b`. */
  function And(a: Value, b: Value): (r: Value)
    ensures Truthy(r) <==> Truthy(a) && Truthy(b)
    ensures r == a || r == b
  {
    if Truthy(a) then b else a
  }

  /** `String(v)`, which is what `${v}` in a template literal produces. */
  function ToText(v: Value): string
  {
    match v
    case Undefined => "undefined"
    case Null => "null"
    case Bool(b) => if b then "true" else "false"
    case Num(n) => IntText(n)
    case Str(s) => s
    case Obj(_) => "[object Object]"
  }

  /** `v.includes(sub)` on a string; any other value is taken to include nothing. */
  predicate TextIncludes(v: Value, sub: string)
  {
    v.Str? && Contains(v.s, sub)
  }
}
