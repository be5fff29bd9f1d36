/** JavaScript values as the request handlers and the React pages see them,
    and the few coercions of the language the source relies on. */
module Js {

  datatype Option<+T> = None | Some(value: T)

  /** A JSON/JavaScript value. Numbers are modelled as integers. */
  datatype Value = Undefined | Null | Bool(b: bool) | Num(n: int) | Str(s: string)

  /** JavaScript truthiness, as used by `if (v)`, `!v` and `v || w`. */
  predicate Truthy(v: Value)
  {
    match v
    case Undefined => false
    case Null => false
    case Bool(b) => b
    case Num(n) => n != 0
    case Str(s) => s != ""
  }

  /** The expression `a || b`. */
  function Or(a: Value, b: Value): Value
  {
    if Truthy(a) then a else b
  }

  /** How the MySQL driver binds a `?` placeholder: `undefined` is sent as NULL. */
  function Bind(v: Value): Value
  {
    if v == Undefined then Null else v
  }

  /** The decimal digits of a natural number, as `String(n)` writes them. */
  function DecimalText(n: nat): (r: string)
    ensures |r| > 0
  {
    if n < 10 then [(48 + n) as char] else DecimalText(n / 10) + [(48 + n % 10) as char]
  }

  /** A value inside a template literal, `${v}`. */
  function Template(v: Value): string
  {
    match v
    case Undefined => "undefined"
    case Null => "null"
    case Bool(b) => if b then "true" else "false"
    case Num(n) => if n < 0 then "-" + DecimalText(-n) else DecimalText(n)
    case Str(s) => s
  }

  /** A plain JavaScript object: its own enumerable properties. */
  type Object = map<string, Value>

  /** Property read `o.k`; a missing property reads as `undefined`. */
  function Get(o: Object, k: string): Value
  {
    if k in o then o[k] else Undefined
  }

  /** A field of a request body or route parameter after the validation
      library has looked at it: not sent at all, sent but not of the type its
      validator checks for, or sent with a value of that type. */
  datatype Field<+T> = Absent | Invalid | Given(value: T)

  /** The field as it is forwarded to the store: anything but a typed value
      arrives there as NULL. */
  function Present<T>(f: Field<T>): Option<T>
  {
    if f.Given? then Some(f.value) else None
  }
}
