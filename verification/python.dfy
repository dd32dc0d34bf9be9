/**
 * The few Python values the client passes around: argument values, the decoded
 * JSON body of a response, Python's truthiness and `str()`.
 */
module Python {
  import opened Wrappers
  import opened Decimal

  /** A scalar Python value as a caller passes it or as JSON decodes it. */
  datatype PyValue = PyNone | PyBool(b: bool) | PyInt(i: int) | PyStr(s: string)

  /**
   * `str(v)`, which is also what an f-string writes for `{v}`. A string is
   * written as itself, and `int()` reads an integer's text back as that integer.
   */
  function ToStr(v: PyValue): (s: string)
    ensures v.PyStr? ==> s == v.s
    ensures v.PyInt? ==> ParseInteger(s) == Some(v.i)
    ensures v == PyNone ==> s == "None"
    ensures v.PyBool? ==> s == (if v.b then "True" else "False")
  {
    match v
    case PyNone => "None"
    case PyBool(b) => if b then "True" else "False"
    case PyInt(i) => ParseIntegerOfIntToString(i); IntToString(i)
    case PyStr(s) => s
  }

  /** The result of `r.json()`: a scalar, a list or an object. */
  datatype Body = Scalar(v: PyValue) | List(items: seq<PyValue>) | Dict(entries: map<string, PyValue>)

  /** Python's `if data:` on a decoded body: false for exactly `None`, `False`, `0`, `""`, `[]` and `{}`. */
  predicate Truthy(data: Body): (t: bool)
    ensures !t <==> data in {Scalar(PyNone), Scalar(PyBool(false)), Scalar(PyInt(0)), Scalar(PyStr("")),
                             List([]), Dict(map[])}
  {
    match data
    case Scalar(v) =>
      (match v
       case PyNone => false
       case PyBool(b) => b
       case PyInt(i) => i != 0
       case PyStr(s) => |s| > 0)
    case List(items) => |items| > 0
    case Dict(entries) => |entries| > 0
  }
}
