/** The slice of JavaScript value semantics the request handler relies on:
    `undefined` versus a present value, truthiness (the `!x` tests) and
    `String.prototype.startsWith`. */
module JsValues {

  /** A value that may be `undefined`: a request header, or an environment variable. */
  datatype Option<+T> = None | Some(value: T)

  /** A JavaScript value that can reach the handler as `req.body.filters`:
      what `JSON.parse` produces, where a number too large for a double
      becomes `Infinity` or `-Infinity`, plus `Undefined` for a property that
      is absent. Numbers are reals, so `0` and `-0` are the same value. `NaN`
      cannot come out of JSON; it is kept so that `Truthy` is ECMAScript's
      ToBoolean on every number. */
  datatype JsValue =
    | Undefined
    | Null
    | Bool(b: bool)
    | Num(x: real)
    | Infinity(negative: bool)
    | NaN
    | Str(s: string)
    | Arr(items: seq<JsValue>)
    | Obj(props: seq<(string, JsValue)>)

  /** The value a header or environment lookup yields: a string, or `undefined`. */
  function AsJs(v: Option<string>): JsValue
  {
    match v
    case None => Undefined
    case Some(s) => Str(s)
  }

  /** ECMAScript ToBoolean: what `!x` negates. Every array and object is
      truthy, even an empty one, and so are both infinities. */
  predicate Truthy(v: JsValue)
  {
    match v
    case Undefined => false
    case Null => false
    case Bool(b) => b
    case Num(x) => x != 0.0
    case Infinity(_) => true
    case NaN => false
    case Str(s) => s != ""
    case Arr(_) => true
    case Obj(_) => true
  }

  /** The falsy values, listed one by one rather than by cases of the value. */
  lemma FalsyValues(v: JsValue)
    ensures !Truthy(v) <==> v in {Undefined, Null, Bool(false), Num(0.0), NaN, Str("")}
  {
  }

  /** A string or `undefined` is falsy exactly when it is `undefined` or empty. */
  lemma FalsyString(v: Option<string>)
    ensures !Truthy(AsJs(v)) <==> v == None || v == Some("")
  {
  }

  /** `s.startsWith(p)`: case-sensitive, character by character. */
  predicate StartsWith(s: string, p: string)
  {
    |p| <= |s| && s[..|p|] == p
  }
}
