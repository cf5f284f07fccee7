/** The JavaScript values the card handles: numbers with their non-finite cases,
    configuration values, truthiness, `||`, `??`, property lookup, `Number(…)`
    and `Math.round`. Finite numbers are exact reals: the rounding error of
    double-precision arithmetic is not modelled. */
module Js {

  datatype Option<+T> = None | Some(value: T)

  /** A thrown error or a value. */
  datatype Result<+T> = Ok(value: T) | Error(message: string)

  /** A JavaScript number, kept as far as the card can tell the cases apart. */
  datatype Number = Finite(r: real) | PosInfinity | NegInfinity | NaN

  /** A JavaScript value as it can appear in the card's configuration. */
  datatype Value =
    | Undefined
    | Null
    | Bool(b: bool)
    | Num(n: Number)
    | Str(s: string)
    | Obj(fields: map<string, Value>)

  /** ToBoolean: the falsy values are undefined, null, false, 0, NaN and "". */
  predicate Truthy(v: Value) {
    match v
    case Undefined => false
    case Null => false
    case Bool(b) => b
    case Num(n) => !(n == Finite(0.0) || n.NaN?)
    case Str(s) => s != ""
    case Obj(_) => true
  }

  /** `a || b` */
  function Or(a: Value, b: Value): Value {
    if Truthy(a) then a else b
  }

  /** `a ?? b` */
  function Coalesce(a: Value, b: Value): Value {
    if a.Undefined? || a.Null? then b else a
  }

  /** `o[k]` for a plain object given by its own properties. */
  function Field(o: map<string, Value>, k: string): Value {
    if k in o then o[k] else Undefined
  }

  /** `v.k` for a value that is not null or undefined; the primitives the card
      meets have none of the properties it asks for. */
  function Prop(v: Value, k: string): Value {
    if v.Obj? then Field(v.fields, k) else Undefined
  }

  /** `a / b` on doubles: division by zero gives an infinity or NaN. */
  function Divide(a: real, b: real): (q: Number)
    ensures b != 0.0 ==> q == Finite(a / b)
    ensures b == 0.0 ==> (q.NaN? <==> a == 0.0)
    ensures b == 0.0 && a > 0.0 ==> q.PosInfinity?
    ensures b == 0.0 && a < 0.0 ==> q.NegInfinity?
  {
    if b != 0.0 then Finite(a / b)
    else if a > 0.0 then PosInfinity
    else if a < 0.0 then NegInfinity
    else NaN
  }

  predicate IsDigit(c: char) { '0' <= c <= '9' }

  /** The value of a non-empty string of decimal digits. */
  function DigitsValue(s: string): nat
    requires forall i :: 0 <= i < |s| ==> IsDigit(s[i])
  {
    if s == [] then 0
    else
      assert IsDigit(s[|s| - 1]);
      DigitsValue(s[..|s| - 1]) * 10 + (s[|s| - 1] as int - '0' as int)
  }

  /** `Number(v)`. Of the string forms only the empty string and plain decimal
      digits are recognised; every other string reads as NaN. The card applies it
      to size and stroke only; when the configuration has either key, its trailing
      spread overwrites the parsed value with the raw one, and when it lacks the
      key the parse sees undefined. The string parse is therefore kept for
      fidelity to setConfig only and never reaches a later reading. */
  function ToNumber(v: Value): Number {
    match v
    case Undefined => NaN
    case Null => Finite(0.0)
    case Bool(b) => Finite(if b then 1.0 else 0.0)
    case Num(n) => n
    case Str(s) =>
      if s == [] then Finite(0.0)
      else if forall i :: 0 <= i < |s| ==> IsDigit(s[i]) then Finite(DigitsValue(s) as real)
      else NaN
    case Obj(_) => NaN
  }

  /** `Math.round` of a finite number: the nearest integer, halves rounded up. */
  function Round(x: real): (n: int)
    ensures n as real - 0.5 <= x < n as real + 0.5
  {
    (x + 0.5).Floor
  }

  /** `Math.round(x * k)` for a non-negative scale k. */
  function RoundScaled(x: Number, k: real): (n: Number)
    requires k >= 0.0
    ensures n.NaN? <==> x.NaN? || (k == 0.0 && !x.Finite?)
    ensures x.Finite? ==> n.Finite? && n.r == n.r.Floor as real && n.r - 0.5 <= x.r * k < n.r + 0.5
    ensures k > 0.0 && !x.Finite? && !x.NaN? ==> n == x
  {
    match x
    case Finite(r) => Finite(Round(r * k) as real)
    case PosInfinity => if k == 0.0 then NaN else PosInfinity
    case NegInfinity => if k == 0.0 then NaN else NegInfinity
    case NaN => NaN
  }

  /** The number is an integer in [lo, hi]. */
  predicate IsIntIn(n: Number, lo: int, hi: int) {
    n.Finite? && n.r == n.r.Floor as real && lo as real <= n.r <= hi as real
  }
}
