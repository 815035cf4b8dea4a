/**
 * The slice of JavaScript value semantics the dashboard's conversions rely on:
 * truthiness, Number(x), BigNumber.toNumber and thrown errors.
 */
module JsValues {
  import opened Wrappers
  import opened Text

  /** 2^53: BigNumber.toNumber throws 'overflow' at or beyond this magnitude. */
  const MAX_SAFE: nat := 0x20_0000_0000_0000

  /** A non-negative integer that BigNumber.toNumber converts without overflow. */
  type Uint53 = n: nat | n < MAX_SAFE

  /** A value as the source's defensive conversions see it (integers only; no fractions). */
  datatype JsValue =
    | Undefined
    | Null
    | Bool(b: bool)
    | Num(n: int)
    | NaN
    | Str(s: string)
    | Big(v: int)   // an ethers BigNumber object

  /** JavaScript truthiness; every object, a zero BigNumber included, is truthy. */
  predicate Truthy(v: JsValue) {
    match v
    case Undefined => false
    case Null => false
    case NaN => false
    case Bool(b) => b
    case Num(n) => n != 0
    case Str(s) => s != ""
    case Big(_) => true
  }

  /** BigNumber.toNumber: the exact value inside the safe range, a thrown fault outside it. */
  function BigToNumber(v: int): (r: Option<int>)
    ensures r.Some? <==> -(MAX_SAFE as int) < v < MAX_SAFE
    ensures r.Some? ==> r.value == v
  {
    if -(MAX_SAFE as int) < v < MAX_SAFE then Some(v) else None
  }

  /**
   * Number(x), with None for NaN. Strings are read as plain decimal digits
   * (the empty string is 0); any other text is NaN.
   */
  function NumberOf(v: JsValue): (r: Option<int>)
    ensures v.Str? && AllDigits(v.s) ==> r == Some(DigitsValue(v.s) as int)
    ensures v.Str? && !AllDigits(v.s) ==> r == None
  {
    match v
    case Undefined => None
    case Null => Some(0)
    case NaN => None
    case Bool(b) => Some(if b then 1 else 0)
    case Num(n) => Some(n)
    case Str(s) => if AllDigits(s) then Some(DigitsValue(s) as int) else None
    case Big(x) => Some(x)
  }

  /** A field the contract may leave out, seen as a JavaScript value. */
  function FieldValue(f: Option<nat>): (v: JsValue)
    ensures Truthy(v) <==> f.Some?
  {
    match f
    case None => Undefined
    case Some(x) => Big(x)
  }

  /** A thrown value: whether it is an Error instance, its message ("" if none) and its code. */
  datatype JsError = JsError(isError: bool, message: string, code: string)

  /** `error.message || fallback` */
  function MessageOr(e: JsError, fallback: string): (m: string)
    ensures e.message != "" ==> m == e.message
    ensures e.message == "" ==> m == fallback
  {
    if e.message != "" then e.message else fallback
  }

  /** `error instanceof Error ? error.message : fallback` */
  function ErrorMessageOr(e: JsError, fallback: string): (m: string)
    ensures e.isError ==> m == e.message
    ensures !e.isError ==> m == fallback
  {
    if e.isError then e.message else fallback
  }
}
