/**
 JavaScript values as the offer handlers receive them in a request body or a
 query string, together with the truthiness that `if (x)`, `!x` and `x || d`
 test, and the result of the built-in number parsers.
 */
module JsValues {

  /** What `parseFloat` and `parseInt` return: NaN, or a number. The payload
      type is a parameter so that `parseInt` can promise an integer. */
  datatype Parsed<T> = NaN | Num(value: T)

  /** A JavaScript value. `Undefined` is kept as a value of its own because
      the adjust handler copies absent request fields into its patch. */
  datatype JsValue =
    | Undefined
    | Null
    | Bool(b: bool)
    | Str(s: string)
    | Number(n: Parsed<real>)
    | Array(items: seq<JsValue>)
    | Object(fields: map<string, JsValue>)
  {
    /** JavaScript truthiness: `undefined`, `null`, `false`, `""`, `NaN` and
        zero are falsy; everything else, every array and object included, is
        truthy. */
    predicate Truthy() {
      match this
      case Undefined => false
      case Null => false
      case Bool(b) => b
      case Str(s) => s != ""
      case Number(n) => n.Num? && n.value != 0.0
      case Array(_) => true
      case Object(_) => true
    }

    /** Whether `const { ... } = v` succeeds: destructuring throws a
        TypeError on `undefined` and `null` only. */
    predicate Destructurable() {
      !Undefined? && !Null?
    }
  }

  /** Reading property `key` of a value that can be destructured: an object
      yields its own field or `undefined`; a primitive or an array has none of
      the fields the handlers read. */
  function Field(v: JsValue, key: string): JsValue {
    match v
    case Object(fields) => if key in fields then fields[key] else Undefined
    case _ => Undefined
  }

  /** `p || d` on a parsed number: NaN and zero both fall back to `d`. */
  function FloatOr(p: Parsed<real>, d: real): real {
    if p.Num? && p.value != 0.0 then p.value else d
  }

  /** `p || d` on a parsed integer. */
  function IntOr(p: Parsed<int>, d: int): int {
    if p.Num? && p.value != 0 then p.value else d
  }
}
