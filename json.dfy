/**
 * The loosely typed, JSON-like data the tool step handles: the planner's
 * plan, the arguments it proposes, proxies and the results tools return.
 */
module Json {

  datatype Value =
    | Null
    | Bool(b: bool)
    | Num(n: int)
    | Str(s: string)
    | List(items: seq<Value>)
    | Dict(fields: map<string, Value>)

  /** Python's truthiness on these shapes: None, False, 0 and empty containers are falsy. */
  predicate Truthy(v: Value) {
    match v
    case Null => false
    case Bool(b) => b
    case Num(n) => n != 0
    case Str(s) => s != []
    case List(items) => items != []
    case Dict(fields) => fields != map[]
  }
}
