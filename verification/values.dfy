/** Untyped JavaScript values as they reach a tool (`Record<string, unknown>`)
    or come out of `JSON.parse`. Numbers are integers in this model. */
module Values {

  datatype Value =
    | Undefined
    | Null
    | Bool(b: bool)
    | Number(n: int)
    | Str(s: string)
    | Array(items: seq<Value>)
    | Object(fields: map<string, Value>)

  /** The arguments of one tool call. A key that is not in the map reads as `undefined`. */
  type ToolArgs = map<string, Value>

  /** `args[key]`. */
  function Arg(args: ToolArgs, key: string): Value {
    if key in args then args[key] else Undefined
  }

  /** `typeof v === 'string' ? v : fallback`. */
  function StringOr(v: Value, fallback: string): string {
    if v.Str? then v.s else fallback
  }

  /** `typeof v === 'number' ? v : fallback`. */
  function NumberOr(v: Value, fallback: int): int {
    if v.Number? then v.n else fallback
  }

  /** `null` or `undefined`: what `??` and `?.` treat as missing. */
  predicate Nullish(v: Value) {
    v.Undefined? || v.Null?
  }

  /** What `if (v)` and `!v` treat as true. */
  predicate Truthy(v: Value) {
    match v
    case Undefined => false
    case Null => false
    case Bool(b) => b
    case Number(n) => n != 0
    case Str(s) => s != ""
    case Array(_) => true
    case Object(_) => true
  }

  /** `v.key` on a value that is not `null` or `undefined`: an own field of an
      object; every other value (an array or a primitive) reads as `undefined`. */
  function Field(v: Value, key: string): Value
    requires !Nullish(v)
  {
    if v.Object? && key in v.fields then v.fields[key] else Undefined
  }

  /** `v?.[0]`: the first element of an array, the first character of a
      string, the field `"0"` of an object; `undefined` on anything else. */
  function First(v: Value): Value {
    match v
    case Array(items) => if |items| > 0 then items[0] else Undefined
    case Str(s) => if |s| > 0 then Str(s[..1]) else Undefined
    case Object(fields) => if "0" in fields then fields["0"] else Undefined
    case _ => Undefined
  }
}
