/** The dynamically typed values a product dictionary holds, with Python's truthiness and the
    `float()`, `int()` and `str()` conversions applied to them. */
module PyValue {
  import opened Wrappers
  import opened PyText
  import opened PyNum

  /** `None`, a `str`, an `int` or a `float` (an exact real here). */
  datatype Value = Null | Text(s: string) | Int(n: int) | Float(x: real)

  /** `bool(v)`: `None`, the empty string and zero are false. */
  predicate Truthy(v: Value) {
    match v
    case Null => false
    case Text(s) => s != []
    case Int(n) => n != 0
    case Float(x) => x != 0.0
  }

  /** `float(v)`: numbers convert, strings are parsed, `None` raises `TypeError` (here `None`). */
  function ToFloat(v: Value): (r: Option<real>)
  {
    match v
    case Null => None
    case Text(s) => ParseFloat(s)
    case Int(n) => Some(n as real)
    case Float(x) => Some(x)
  }

  /** Truncation toward zero, as `int(x)` does for a float. */
  function Truncate(x: real): (n: int)
    ensures x >= 0.0 ==> 0.0 <= n as real <= x < n as real + 1.0
    ensures x < 0.0 ==> n as real - 1.0 < x <= n as real <= 0.0
  {
    if x >= 0.0 then x.Floor else -((-x).Floor)
  }

  /** `int(v)`: floats truncate toward zero, strings must be integer literals, `None` raises. */
  function ToInt(v: Value): (r: Option<int>)
  {
    match v
    case Null => None
    case Text(s) => ParseInt(s)
    case Int(n) => Some(n)
    case Float(x) => Some(Truncate(x))
  }

  /** `str(v)`. */
  function PyStr(v: Value): (r: string)
  {
    match v
    case Null => "None"
    case Text(s) => s
    case Int(n) => IntToString(n)
    case Float(x) => FloatText(x)
  }

  /** An optional number or string as the dictionary stores it: the value, or `None`. */
  function FloatOrNone(o: Option<real>): Value {
    if o.Some? then Float(o.value) else Null
  }

  function IntOrNone(o: Option<int>): Value {
    if o.Some? then Int(o.value) else Null
  }

  function TextOrNone(o: Option<string>): Value {
    if o.Some? then Text(o.value) else Null
  }
}
