/** Decoded JSON (and YAML) values as the Python code sees them after `json.loads`:
    `None`, `bool`, `int`, `float`, `str`, `list` and `dict`. */
module JsonValues {
  import opened Wrappers
  import opened Strings
  import opened Dicts

  datatype Json =
    | JNull
    | JBool(b: bool)
    | JInt(i: int)
    | JFloat(f: real)
    | JString(s: string)
    | JArray(items: seq<Json>)
    | JObject(fields: seq<(string, Json)>)

  /** The Python exceptions the modelled code lets escape (or catches). */
  datatype PyError = AttributeError | TypeError | IndexError | KeyError | ValueError | ValidationError | FileNotFoundError | OSError

  /** The text codec the program borrows from its libraries: `json.loads` (`None` for a
      `JSONDecodeError`), `json.dumps`, and Python's `str()` where it is not spelled out
      below (floats and containers). */
  datatype Codec = Codec(decode: string -> Option<Json>, encode: Json -> string, show: Json -> string)

  /** Python truthiness of a value (`if x:`, `x or y`). */
  predicate Truthy(j: Json) {
    match j
    case JNull => false
    case JBool(b) => b
    case JInt(i) => i != 0
    case JFloat(f) => f != 0.0
    case JString(s) => |s| > 0
    case JArray(items) => |items| > 0
    case JObject(fields) => |fields| > 0
  }

  /** `d.get(key)` on a dict value; any other value has no `.get` (an `AttributeError`). */
  function Get(j: Json, key: string): Option<Json>
    requires j.JObject?
  {
    Lookup(j.fields, key)
  }

  /** `d.get(key, default)` */
  function GetOr(j: Json, key: string, default: Json): (r: Json)
    requires j.JObject?
    ensures HasKey(j.fields, key) ==> (key, r) in j.fields
    ensures !HasKey(j.fields, key) ==> r == default
  {
    Lookup(j.fields, key).GetOr(default)
  }

  /** `x or default`: the value itself when truthy, the default otherwise. */
  function Or(j: Json, default: Json): (r: Json)
    ensures Truthy(j) ==> r == j
    ensures !Truthy(j) ==> r == default
  {
    if Truthy(j) then j else default
  }

  /** A numeric value as a real (`bool` is an `int` subclass in Python). */
  function AsReal(j: Json): Option<real> {
    match j
    case JBool(b) => Some(if b then 1.0 else 0.0)
    case JInt(i) => Some(i as real)
    case JFloat(f) => Some(f)
    case _ => None
  }

  predicate IsNumber(j: Json) {
    AsReal(j).Some?
  }

  /** Python's `int(x)` on a float: truncation toward zero. */
  function Trunc(x: real): (r: int)
    ensures x >= 0.0 ==> r as real <= x < r as real + 1.0
    ensures x < 0.0 ==> r as real - 1.0 < x <= r as real
  {
    if x >= 0.0 then x.Floor else -((-x).Floor)
  }

  /** A whole number is its own truncation. */
  lemma TruncWhole(n: int)
    ensures Trunc(n as real) == n
  {
  }

  /** Truncating a non-negative number of thousandths is integer division by 1000. */
  lemma TruncThousandths(p: int)
    requires p >= 0
    ensures Trunc(p as real / 1000.0) == p / 1000
  {
    var q := p / 1000;
    assert q * 1000 <= p < q * 1000 + 1000;
    assert q as real <= p as real / 1000.0 < q as real + 1.0;
  }

  /** Python's `str(x)`: exact for strings, integers, booleans and `None`. */
  function PyStr(codec: Codec, j: Json): string {
    match j
    case JString(s) => s
    case JInt(i) => IntToString(i)
    case JBool(b) => if b then "True" else "False"
    case JNull => "None"
    case _ => codec.show(j)
  }

  lemma PyStrOfInt(codec: Codec, n: int)
    ensures ParseInt(PyStr(codec, JInt(n))) == Some(n)
  {
    ParseIntRoundTrip(n);
  }
}
