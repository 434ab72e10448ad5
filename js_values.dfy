/**
 * JavaScript values as the core sees them: `Option` for a property that may be
 * undefined, `Json` for parsed JSON documents (configuration files, request
 * bodies, opaque listing records), and JavaScript truthiness.
 */
module JsValues {

  /** `None` stands for `undefined` (an absent property); `Some(v)` for a present one. */
  datatype Option<+T> = None | Some(value: T)

  /** A parsed JSON value. JSON numbers are decimals, so `real` (exact rationals) holds them. */
  datatype Json =
    | JNull
    | JBool(b: bool)
    | JNum(n: real)
    | JStr(s: string)
    | JArr(items: seq<Json>)
    | JObj(fields: map<string, Json>)

  /** A JSON object: property name to value; a name that is not a key reads as `undefined`. */
  type Obj = map<string, Json>

  /**
   * JavaScript truthiness of a JSON value: `null`, `false`, `0` and `""` are falsy;
   * every array and object (even an empty one) is truthy.
   */
  predicate Truthy(v: Json) {
    match v
    case JNull => false
    case JBool(b) => b
    case JNum(n) => n != 0.0
    case JStr(s) => s != ""
    case JArr(_) => true
    case JObj(_) => true
  }

  /** Truthiness of a property read `o[k]`; `undefined` is falsy. */
  predicate TruthyAt(o: Obj, k: string) {
    k in o && Truthy(o[k])
  }

  /** Truthiness of an optional string: `undefined` and `""` are falsy. */
  predicate TruthyStr(s: Option<string>) {
    s.Some? && s.value != ""
  }

  /** JavaScript `a || b` on two optional strings. */
  function OrStr(a: Option<string>, b: Option<string>): (r: Option<string>)
    ensures TruthyStr(a) ==> r == a
    ensures !TruthyStr(a) ==> r == b
  {
    if TruthyStr(a) then a else b
  }

  /** JavaScript `a || d` where `d` is a string literal default. */
  function StrOr(a: Option<string>, d: string): (r: string)
    ensures TruthyStr(a) ==> r == a.value
    ensures !TruthyStr(a) ==> r == d
  {
    if TruthyStr(a) then a.value else d
  }
}
