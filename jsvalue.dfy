/**
 * The JSON-decoded values a form field can hold, JavaScript truthiness, the
 * `String(v)` conversion and the two defaulting operators the endpoints use:
 * `v ?? d` (only `undefined` and `null` fall back) and `v || d` (every falsy
 * value falls back).
 */
module JsValue {

  /** Integers a JavaScript number holds exactly; `String` prints them in plain decimal. */
  type SafeInteger = n: int | -0x1F_FFFF_FFFF_FFFF <= n <= 0x1F_FFFF_FFFF_FFFF

  /** A field of a parsed request body; a missing property reads as `Undefined`. */
  datatype Value =
    | Undefined
    | Null
    | Bool(b: bool)
    | Num(n: SafeInteger)
    | Str(s: string)

  /** JavaScript truthiness: `undefined`, `null`, `false`, `0` and `""` are falsy. */
  predicate Truthy(v: Value) {
    match v
    case Undefined => false
    case Null => false
    case Bool(b) => b
    case Num(n) => n != 0
    case Str(s) => s != []
  }

  function DigitChar(d: nat): (c: char)
    requires d < 10
    ensures '0' <= c <= '9'
  {
    "0123456789"[d]
  }

  predicate IsAsciiDigit(c: char) {
    '0' <= c <= '9'
  }

  /** The value of a string of ASCII digits read in base ten. */
  function DecimalValue(s: string): int
    requires forall i :: 0 <= i < |s| ==> IsAsciiDigit(s[i])
  {
    if s == [] then 0
    else 10 * DecimalValue(s[..|s| - 1]) + (s[|s| - 1] as int - '0' as int)
  }

  /** Decimal digits of `n`: non-empty, ASCII digits only, no leading zero. */
  function Digits(n: nat): (r: string)
    ensures |r| > 0
    ensures forall i :: 0 <= i < |r| ==> IsAsciiDigit(r[i])
    ensures r[0] == '0' <==> n == 0
  {
    if n < 10 then [DigitChar(n)] else Digits(n / 10) + [DigitChar(n % 10)]
  }

  /** Reading the digits back gives the number. */
  lemma {:induction false} DigitsValue(n: nat)
    ensures DecimalValue(Digits(n)) == n
  {
    if n >= 10 {
      var r := Digits(n);
      assert r[..|r| - 1] == Digits(n / 10);
      DigitsValue(n / 10);
    }
  }

  /** `String(v)` for the values a field can hold. */
  function ToJsString(v: Value): (r: string)
    ensures v.Str? ==> r == v.s
    ensures v.Num? && v.n >= 0 ==> r == Digits(v.n)
    ensures v.Num? && v.n < 0 ==> |r| > 1 && r[0] == '-' && r[1..] == Digits(-v.n)
  {
    match v
    case Undefined => "undefined"
    case Null => "null"
    case Bool(b) => if b then "true" else "false"
    case Num(n) => if n < 0 then "-" + Digits(-n) else Digits(n)
    case Str(s) => s
  }

  /** `v ?? d`. */
  function Nullish(v: Value, d: Value): Value {
    if v.Undefined? || v.Null? then d else v
  }

  /** `v || d`. */
  function OrElse(v: Value, d: Value): Value {
    if Truthy(v) then v else d
  }

  /**
   * With `""` as the default the two fallbacks differ exactly on the falsy
   * values that are not nullish and not `""` itself: `false` and `0` survive
   * `??` but are replaced by `||` (for `""` both give `""`).
   */
  lemma NullishVersusOrElse(v: Value)
    ensures Nullish(v, Str("")) != OrElse(v, Str("")) <==> v == Bool(false) || v == Num(0)
  {
  }
}
