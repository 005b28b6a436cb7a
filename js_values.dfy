/** The dynamically typed values the TypeScript code handles as `any` or
    `unknown`: parsed JSON bodies, SDK operation objects and thrown errors,
    together with the three language rules the code leans on: truthiness,
    property access (plain and optional) and conversion to a string. */
module JsValues {
  import opened Wrappers
  import JsStrings

  /** A JavaScript value. Numbers are integers only; `Err` is an instance of
      `Error` (or a subclass such as `TypeError`) with its `name` and
      `message`. */
  datatype Value =
    | Undefined
    | Null
    | Bool(b: bool)
    | Num(n: int)
    | Str(s: string)
    | Arr(items: seq<Value>)
    | Obj(fields: map<string, Value>)
    | Err(name: string, message: string)

  predicate IsNullish(v: Value) { v.Undefined? || v.Null? }

  /** The values that `if (v)` accepts. */
  predicate Truthy(v: Value)
  {
    match v
    case Undefined => false
    case Null => false
    case Bool(b) => b
    case Num(n) => n != 0
    case Str(s) => s != ""
    case _ => true
  }

  /** `v?.key`: `undefined` on a nullish value or a missing property. */
  function OptGet(v: Value, key: string): (r: Value)
    ensures IsNullish(v) ==> r == Undefined
    ensures v.Obj? ==> r == (if key in v.fields then v.fields[key] else Undefined)
  {
    match v
    case Obj(fields) => if key in fields then fields[key] else Undefined
    case Err(_, message) => if key == "message" then Str(message) else Undefined
    case Arr(items) => if key == "length" then Num(|items|) else Undefined
    case Str(s) => if key == "length" then Num(|s|) else Undefined
    case _ => Undefined
  }

  function NewError(message: string): Value { Err("Error", message) }

  function TypeError(message: string): Value { Err("TypeError", message) }

  /** `v.key`: on `null` or `undefined` it throws V8's TypeError. */
  function Get(v: Value, key: string): (r: Result<Value, Value>)
    ensures r.Failure? <==> IsNullish(v)
    ensures r.Success? ==> r.value == OptGet(v, key)
  {
    if IsNullish(v) then
      Failure(TypeError("Cannot read properties of " + Display(v) + " (reading '" + key + "')"))
    else Success(OptGet(v, key))
  }

  /** `String(v)`, which is also what a template literal `${v}` inserts. */
  function Display(v: Value): string
    decreases v
  {
    match v
    case Undefined => "undefined"
    case Null => "null"
    case Bool(b) => if b then "true" else "false"
    case Num(n) => JsStrings.IntToString(n)
    case Str(s) => s
    case Arr(items) =>
      Join(seq(|items|, i requires 0 <= i < |items| =>
        if IsNullish(items[i]) then "" else Display(items[i])))
    case Obj(_) => "[object Object]"
    case Err(name, message) => if message == "" then name else name + ": " + message
  }

  /** `parts.join(",")`. */
  function Join(parts: seq<string>): string
  {
    if parts == [] then "" else if |parts| == 1 then parts[0] else parts[0] + "," + Join(parts[1..])
  }

  /** `new Error(v)`: the message is `String(v)`, or empty for `undefined`. */
  function ErrorFrom(v: Value): (e: Value)
    ensures e.Err? && e.name == "Error"
    ensures v.Str? ==> e.message == v.s
  {
    NewError(if v.Undefined? then "" else Display(v))
  }
}
