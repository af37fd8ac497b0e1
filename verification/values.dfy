/** The numbers, records and errors the finance scripts compute with.

    A Python float is modelled as an exact real; `float('inf')` and the negative
    infinity that arithmetic on it can produce are explicit constructors. A numpy
    float (a cell of a pandas row) may also be NaN, and dividing it by zero gives an
    infinity or NaN where Python's own numbers raise. */
module Values {

  /** A real number extended with the two infinities. */
  datatype Ext = Finite(r: real) | PosInf | NegInf

  /** The exceptions the modelled code can raise. */
  datatype Exc =
    | ZeroDivision          // ZeroDivisionError
    | KeyMissing(key: string)  // KeyError on a dict or a row
    | NoRows                // IndexError of `.iloc[-1]` on an empty selection

  /** A computation that returns a value or raises. */
  datatype Result<+T> = Ok(value: T) | Err(error: Exc) {
    predicate IsFailure() { Err? }
    function PropagateFailure<U>(): Result<U> requires Err? { Err(error) }
    function Extract(): T requires Ok? { value }
  }

  /** One company-period record: named numeric fields. */
  type Record = map<string, real>

  /** One row of the financial-statements table. */
  datatype Row = Row(companyId: int, companyName: string, industry: string, period: string, fields: Record)

  /** `data[k]`. */
  function Field(d: Record, k: string): Result<real> {
    if k in d then Ok(d[k]) else Err(KeyMissing(k))
  }

  /** `data.get(k, default)`. */
  function FieldOr(d: Record, k: string, default: real): real {
    if k in d then d[k] else default
  }

  /** Python's `/` on numbers: a zero divisor raises. */
  function Div(a: real, b: real): Result<real> {
    if b == 0.0 then Err(ZeroDivision) else Ok(a / b)
  }

  /** A numpy float: a number, an infinity, or not a number. */
  datatype Float = Num(x: Ext) | NaN

  /** A finite numpy float. */
  predicate IsFinite(x: Float) {
    x.Num? && x.x.Finite?
  }

  /** Division of numpy floats: a zero divisor gives an infinity of the dividend's
      sign, or NaN for 0/0, instead of raising. */
  function NumpyDiv(a: real, b: real): (q: Float)
    ensures b != 0.0 ==> q == Num(Finite(a / b))
    ensures b == 0.0 ==> (q == NaN <==> a == 0.0)
    ensures b == 0.0 && a > 0.0 ==> q == Num(PosInf)
    ensures b == 0.0 && a < 0.0 ==> q == Num(NegInf)
  {
    if b != 0.0 then Num(Finite(a / b))
    else if a > 0.0 then Num(PosInf)
    else if a < 0.0 then Num(NegInf)
    else NaN
  }

  /** A finite number divided by a numpy float: dividing by an infinity gives zero,
      dividing by NaN gives NaN. */
  function DivBy(a: real, b: Float): (q: Float)
    ensures IsFinite(b) && b.x.r != 0.0 ==> q == Num(Finite(a / b.x.r))
    ensures b.Num? && !b.x.Finite? ==> q == Num(Finite(0.0))
    ensures IsFinite(q) <==> (IsFinite(b) && b.x.r != 0.0) || (b.Num? && !b.x.Finite?)
    ensures q == NaN <==> b == NaN || (b == Num(Finite(0.0)) && a == 0.0)
  {
    match b
    case NaN => NaN
    case Num(Finite(r)) => NumpyDiv(a, r)
    case Num(_) => Num(Finite(0.0))
  }

  /** `n / den if den > 0 else float('inf')`: the guarded ratios of the dashboard. */
  function PositiveQuotient(n: real, den: real): (q: Ext)
    ensures q == PosInf <==> den <= 0.0
    ensures den > 0.0 ==> q == Finite(n / den)
  {
    if den > 0.0 then Finite(n / den) else PosInf
  }

  /** `x - b` for a finite `b`: NaN stays NaN, an infinity absorbs `b`. */
  function Sub(x: Float, b: real): Float {
    match x
    case NaN => NaN
    case Num(Finite(r)) => Num(Finite(r - b))
    case Num(inf) => Num(inf)
  }

  /** `(x / b) * 100` for a nonzero finite `b`: the percentage of `x` relative to `b`. */
  function PercentOf(x: Float, b: real): Float
    requires b != 0.0
  {
    match x
    case NaN => NaN
    case Num(Finite(r)) => Num(Finite(r / b * 100.0))
    case Num(PosInf) => Num(if b > 0.0 then PosInf else NegInf)
    case Num(NegInf) => Num(if b > 0.0 then NegInf else PosInf)
  }

  /** `x > b` for a numpy float: false for NaN. */
  predicate FloatGreater(x: Float, b: real) {
    x.Num? && Greater(x.x, b)
  }

  /** `x >= b` for a numpy float: false for NaN. */
  predicate FloatAtLeast(x: Float, b: real) {
    x.Num? && AtLeast(x.x, b)
  }

  /** `x > b`. */
  predicate Greater(x: Ext, b: real) {
    match x
    case Finite(r) => r > b
    case PosInf => true
    case NegInf => false
  }

  /** `x >= b`. */
  predicate AtLeast(x: Ext, b: real) {
    match x
    case Finite(r) => r >= b
    case PosInf => true
    case NegInf => false
  }

  /** `x < b`. */
  predicate Less(x: Ext, b: real) {
    !AtLeast(x, b)
  }
}
