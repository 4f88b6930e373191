/**
 The CRM side of the offer handlers: property values as the CRM returns them
 in a deal or contact snapshot, the two snapshots the read handler consumes,
 and the abstract answer of a remote call.
 */
module Crm {
  import opened JsValues

  /** A CRM property value. The CRM sends properties as strings or `null`;
      the processed flag may also arrive as a boolean. An absent property and
      a `null` one are the single value `Missing`: strict comparison, `||`
      and the number parsers treat `undefined` and `null` alike. */
  datatype CrmValue = Missing | Text(s: string) | Flag(b: bool)
  {
    predicate Truthy() {
      match this
      case Missing => false
      case Text(s) => s != ""
      case Flag(b) => b
    }
  }

  /** The text a value contributes to a string with default `d`: the value's
      own text when it is truthy, `d` when it is missing or empty. */
  function TextOr(v: CrmValue, d: string): (r: string)
    ensures !v.Truthy() ==> r == d
    ensures v.Text? && v.Truthy() ==> r == v.s
    ensures v == Flag(true) ==> r == "true"
  {
    match v
    case Text(s) => if s != "" then s else d
    case Flag(b) => if b then "true" else d
    case Missing => d
  }

  /** A truthy value itself, or the default `d` in its place. */
  function ValueOr(v: CrmValue, d: CrmValue): (r: CrmValue)
    ensures v.Truthy() ==> r == v
    ensures !v.Truthy() ==> r == d
  {
    if v.Truthy() then v else d
  }

  /** The properties the read handler asks for, and the ids of the contacts
      associated with the deal (empty when the association is missing). */
  datatype DealRecord = DealRecord(
    amount: CrmValue,
    periodos: CrmValue,
    pagoPorPeriodo: CrmValue,
    tasaDeInteresSemanal: CrmValue,
    dealname: CrmValue,
    ajustePantalla: CrmValue,
    contactIds: seq<string>)

  datatype ContactRecord = ContactRecord(firstname: CrmValue, lastname: CrmValue)

  /** The text-to-number behaviour of `parseFloat` and `parseInt`. Prefix
      parsing is the runtime's business, so it is a parameter of the model. */
  datatype NumberParsers = NumberParsers(float: string -> Parsed<real>, integer: string -> Parsed<int>)

  /** `parseFloat(v)`. Any value other than text converts to "undefined",
      "null", "true" or "false", none of which starts with a number. */
  function ParseFloat(v: CrmValue, parse: NumberParsers): Parsed<real> {
    if v.Text? then parse.float(v.s) else NaN
  }

  /** `parseInt(v)`, with the same treatment of non-text values. */
  function ParseInt(v: CrmValue, parse: NumberParsers): Parsed<int> {
    if v.Text? then parse.integer(v.s) else NaN
  }

  /** How the CRM reads back a property last written with `v`, for the values
      the handlers write: text stays text, a boolean stays a boolean and
      `null` clears the property. `undefined` is dropped from the request, so
      it writes nothing; numbers, arrays and objects are not described. */
  function StoredValue(v: JsValue): (r: Option<CrmValue>)
    ensures v.Str? ==> r == Some(Text(v.s))
    ensures v.Bool? ==> r == Some(Flag(v.b))
    ensures v.Null? ==> r == Some(Missing)
    ensures r.Some? <==> v.Str? || v.Bool? || v.Null?
  {
    match v
    case Str(s) => Some(Text(s))
    case Bool(b) => Some(Flag(b))
    case Null => Some(Missing)
    case _ => None
  }

  /** A snapshot that may not have been fetched. */
  datatype Option<T> = None | Some(value: T)

  /** Why a handler ended in its `catch` block: the CRM call failed (its
      error payload or message), or the request body could not be
      destructured. */
  datatype Fault = CrmError(info: string) | BodyNotObject

  /** The answer to one remote call. */
  datatype Reply<T> = Answered(value: T) | Failed(fault: Fault)
}
