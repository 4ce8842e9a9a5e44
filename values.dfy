/**
 * The Python values the serialisers and store helpers pass around: `None`, booleans, integers, strings, MongoDB
 * ObjectIds and lists of those, together with the parts of `str()` and `", ".join` the modelled code relies on.
 */
module Values {

  datatype Value =
    | Null  // Python's None
    | Bool(b: bool)
    | Int(i: int)
    | Text(s: string)
    | ObjectId(hex: string)
    | List(items: seq<Value>)

  /** A dict with string keys, as the JSON documents and MongoDB queries of the library are. */
  type Dict = map<string, Value>

  /** `sep.join(parts)`. */
  function Join(sep: string, parts: seq<string>): (r: string)
    ensures |parts| == 1 ==> r == parts[0]
    ensures |parts| == 0 ==> r == ""
  {
    if |parts| == 0 then ""
    else if |parts| == 1 then parts[0]
    else parts[0] + sep + Join(sep, parts[1..])
  }

  /** The decimal digits of a natural number, most significant first. */
  function Digits(n: nat): (r: string)
    ensures |r| >= 1
    ensures forall c :: c in r ==> '0' <= c <= '9'
    decreases n
  {
    if n < 10 then [(('0' as int) + n) as char]
    else Digits(n / 10) + [(('0' as int) + n % 10) as char]
  }

  /** Python's `str(v)`: a string is itself and an ObjectId is its hexadecimal text; a list shows its items' `repr`. */
  function Str(v: Value): string
    decreases v, 0
  {
    match v
    case Null => "None"
    case Bool(b) => if b then "True" else "False"
    case Int(i) => if i < 0 then "-" + Digits(-i) else Digits(i)
    case Text(s) => s
    case ObjectId(hex) => hex
    case List(items) => "[" + Join(", ", seq(|items|, k requires 0 <= k < |items| => Repr(items[k]))) + "]"
  }

  /** Python's `repr(v)` for the values above; strings are quoted but not escaped. */
  function Repr(v: Value): string
    decreases v, 1
  {
    match v
    case Text(s) => "'" + s + "'"
    case ObjectId(hex) => "ObjectId('" + hex + "')"
    case _ => Str(v)
  }
}
