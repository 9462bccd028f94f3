/** JavaScript values as the backend stores them in JSONB columns, caches
    them in Redis and passes them in job payloads. */
module Values {
  import opened Wrappers

  /** `Time(t)` is an ISO-8601 date string (`new Date().toISOString()`);
      the model keeps the clock reading `t` it was made from. */
  datatype Value =
    | Undef
    | Null
    | Bool(b: bool)
    | Num(n: int)
    | Str(s: string)
    | Time(t: int)
    | Obj(fields: map<string, Value>)

  /** A plain JavaScript object: metadata, currentValues, job data. */
  type Record = map<string, Value>

  /** JavaScript truthiness. */
  predicate Truthy(v: Value)
  {
    match v
    case Undef => false
    case Null => false
    case Bool(b) => b
    case Num(n) => n != 0
    case Str(s) => s != ""
    case Time(_) => true
    case Obj(_) => true
  }

  /** `r[k]`: a missing key reads as `undefined`. */
  function Get(r: Record, k: string): Value
  {
    if k in r then r[k] else Undef
  }

  /** `v[k]` on a parsed JSON value; only objects have members. */
  function Member(v: Value, k: string): Value
  {
    if v.Obj? then Get(v.fields, k) else Undef
  }

  /** `{ ...v }`: an object spreads its members, `undefined` and `null`
      spread nothing. */
  function Spread(v: Value): Record
  {
    if v.Obj? then v.fields else map[]
  }

  /** The numeric reading of `v` in a relational comparison (`<`, `>=`, ...):
      booleans and null coerce, everything else is NaN (`None`). */
  function NumericValue(v: Value): Option<int>
  {
    match v
    case Num(n) => Some(n)
    case Bool(b) => Some(if b then 1 else 0)
    case Null => Some(0)
    case _ => None
  }

  function DigitChar(d: nat): char
    requires d < 10
  {
    "0123456789"[d]
  }

  function NatToDecimal(n: nat): (s: string)
    ensures |s| > 0
  {
    if n < 10 then [DigitChar(n)] else NatToDecimal(n / 10) + [DigitChar(n % 10)]
  }

  /** `String(v)`. A timestamp renders as the digits of its clock reading. */
  function ToJsString(v: Value): string
  {
    match v
    case Undef => "undefined"
    case Null => "null"
    case Bool(b) => if b then "true" else "false"
    case Num(n) => if n < 0 then "-" + NatToDecimal(-n) else NatToDecimal(n)
    case Str(s) => s
    case Time(t) => if t < 0 then "-" + NatToDecimal(-t) else NatToDecimal(t)
    case Obj(_) => "[object Object]"
  }
}
