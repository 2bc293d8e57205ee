/** JSON documents as the scripts see them after parsing, plus the two
    failure-carrying wrappers the model uses for Python's `None` and for an
    exception that escapes a script. Floating-point numbers are not modelled. */
module JsonValue {

  datatype Option<+T> = None | Some(value: T)

  /** The outcome of a computation that may raise. `Raised` carries the name of
      the Python (or JavaScript) exception class. */
  datatype Result<+T> = Ok(value: T) | Raised(error: string)

  datatype Json =
    | JNull
    | JBool(b: bool)
    | JInt(n: int)
    | JStr(s: string)
    | JArr(items: seq<Json>)
    | JObj(fields: map<string, Json>)

  /** A parsed JSON object (a Python dict / a JavaScript plain object). */
  type Object = map<string, Json>

  /** `d.get(key, default)` */
  function Get(d: Object, key: string, default: Json): Json
  {
    if key in d then d[key] else default
  }

  function DigitChar(d: nat): char
    requires d < 10
  {
    "0123456789"[d]
  }

  function NatToString(n: nat): string
    decreases n
  {
    if n < 10 then [DigitChar(n)] else NatToString(n / 10) + [DigitChar(n % 10)]
  }

  /** The decimal text of an integer, as both Python `str()` and JavaScript
      `String()` write it (below 10^21). */
  function IntToString(n: int): string {
    if n < 0 then "-" + NatToString(-n) else NatToString(n)
  }

  /** The parts separated by `sep`: Python's `sep.join(parts)` and
      JavaScript's `parts.join(sep)`. */
  function Join(sep: string, parts: seq<string>): string {
    if parts == [] then ""
    else if |parts| == 1 then parts[0]
    else parts[0] + sep + Join(sep, parts[1..])
  }
}
