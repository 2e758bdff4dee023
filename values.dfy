/** The Python scalar values the core binds as parameters or prints into SQL. */
module Values {
  import opened Text

  /** A Python scalar. `SFloat.text` is the float's `str()` form (e.g. "1.0"). */
  datatype Scalar =
    | SNone
    | SBool(b: bool)
    | SInt(i: int)
    | SFloat(text: string)
    | SStr(s: string)

  /** Python's `str(v)`. */
  function PyStr(v: Scalar): string
  {
    match v
    case SNone => "None"
    case SBool(b) => if b then "True" else "False"
    case SInt(i) => IntToString(i)
    case SFloat(t) => t
    case SStr(s) => s
  }

  /** Python truthiness; `str()` of a zero float is exactly "0.0" or "-0.0". */
  predicate Truthy(v: Scalar)
  {
    match v
    case SNone => false
    case SBool(b) => b
    case SInt(i) => i != 0
    case SFloat(t) => t != "0.0" && t != "-0.0"
    case SStr(s) => s != ""
  }

  /** `isinstance(v, int)`: a Python bool is an int. */
  predicate IsPyInt(v: Scalar) { v.SInt? || v.SBool? }

  /** `int(v)` of a value satisfying IsPyInt. */
  function PyIntValue(v: Scalar): int
    requires IsPyInt(v)
  {
    if v.SInt? then v.i else if v.b then 1 else 0
  }

  /** Python's `v == 0`: False and a zero float compare equal to 0, None and strings do not. */
  predicate PyEqualsZero(v: Scalar)
  {
    match v
    case SBool(b) => !b
    case SInt(i) => i == 0
    case SFloat(t) => t == "0.0" || t == "-0.0"
    case _ => false
  }

  /** The values that compare equal to 0 are exactly the falsy numbers. */
  lemma EqualsZeroIsFalsyNumber(v: Scalar)
    ensures PyEqualsZero(v) <==> !Truthy(v) && (v.SBool? || v.SInt? || v.SFloat?)
  {
  }
}
