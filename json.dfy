/** JavaScript values as they reach the handlers from a parsed JSON request body,
    and the JavaScript notion of truthiness the handlers branch on. */
module Js {

  datatype Option<+T> = None | Some(value: T)

  /** A value parsed from JSON. JSON has no NaN, so a number is a real. */
  datatype Json =
    | Null
    | Bool(b: bool)
    | Num(n: real)
    | Str(s: string)
    | Arr(items: seq<Json>)
    | Obj(fields: map<string, Json>)

  /** JavaScript truthiness of a defined value: null, false, 0 (and -0) and ''
      are falsy; every array and every object, even an empty one, is truthy. */
  predicate Truthy(v: Json) {
    match v
    case Null => false
    case Bool(b) => b
    case Num(n) => n != 0.0
    case Str(s) => s != ""
    case Arr(_) => true
    case Obj(_) => true
  }

  /** Truthiness of a possibly undefined value (None is `undefined`). */
  predicate TruthyOpt(v: Option<Json>) {
    v.Some? && Truthy(v.value)
  }

  /** An environment variable is either unset or a string; '' is falsy. */
  predicate Present(env: Option<string>) {
    env.Some? && env.value != ""
  }

  /** Property access `obj.key` on a plain object: undefined when the key is missing. */
  function Field(obj: map<string, Json>, key: string): Option<Json> {
    if key in obj then Some(obj[key]) else None
  }

  /** `a || b`: the left operand when it is truthy, the right one otherwise. */
  function Or(a: Option<Json>, b: Json): Json {
    if TruthyOpt(a) then a.value else b
  }

  const EmptyObject: Json := Obj(map[])
}
