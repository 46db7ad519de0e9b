/** JSON documents, as Python's `json` module loads them. */
module Json {
  import opened Wrappers

  datatype Value =
    | Null
    | Bool(b: bool)
    | Num(n: real)
    | Str(s: string)
    | Arr(items: seq<Value>)
    | Obj(fields: map<string, Value>)

  predicate Truthy(v: Value) {
    match v
    case Null => false
    case Bool(b) => b
    case Num(n) => n != 0.0
    case Str(s) => s != ""
    case Arr(items) => items != []
    case Obj(fields) => fields != map[]
  }

  /** What a `for` loop over the value sees; None where Python cannot iterate. Over an
      object it sees the keys, of which only that they are strings matters here. */
  function Items(v: Value): Option<seq<Value>> {
    match v
    case Arr(items) => Some(items)
    case Str(s) => Some(seq(|s|, i requires 0 <= i < |s| => Str([s[i]])))
    case Obj(fields) => Some(seq(|fields|, _ => Str("")))
    case _ => None
  }

  function GetOr(fields: map<string, Value>, key: string, default: Value): Value {
    if key in fields then fields[key] else default
  }

  /** Python's conversions of JSON values; None where they raise. */
  datatype Coercions = Coercions(
    toInt: Value -> Option<int>, toFloat: Value -> Option<real>, toText: Value -> string)
}
