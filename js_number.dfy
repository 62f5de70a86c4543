/**
 * The JavaScript number operations that the check-digit loops of
 * helpers/mongooseValidators.ts perform. Every value that arises there is
 * either an integer or NaN (what `parseInt(c, 10)` yields for a
 * character that is not a decimal digit), so a number is exactly that.
 * The integers are unbounded: the weighted sums stay exact in JavaScript
 * only below 2^53, which an input of about 10^8 characters can exceed.
 */
module JsNumber {

  datatype Number = NaN | Num(v: int)

  /** The characters `\d` and `parseInt(_, 10)` recognise: ASCII '0' to '9'. */
  predicate IsDigit(c: char) {
    '0' <= c <= '9'
  }

  function DigitValue(c: char): (d: nat)
    requires IsDigit(c)
    ensures d <= 9
  {
    c as int - '0' as int
  }

  /** The digit character whose value is `d`. */
  function DigitChar(d: nat): (c: char)
    requires d <= 9
    ensures IsDigit(c) && DigitValue(c) == d
  {
    ('0' as int + d) as char
  }

  /** `parseInt(c, 10)` for a one-character string `c`. */
  function ParseDigit(c: char): Number {
    if IsDigit(c) then Num(DigitValue(c)) else NaN
  }

  /** `a + b`: NaN absorbs. */
  function Plus(a: Number, b: Number): Number {
    if a.Num? && b.Num? then Num(a.v + b.v) else NaN
  }

  /** `a * b`: NaN absorbs. */
  function Times(a: Number, b: Number): Number {
    if a.Num? && b.Num? then Num(a.v * b.v) else NaN
  }

  /** JavaScript's `%` on integers: the remainder takes the sign of the dividend. */
  function JsRem(a: int, b: int): (r: int)
    requires b > 0
    ensures a >= 0 ==> r == a % b
    ensures -b < r < b
  {
    if a >= 0 then a % b else -((-a) % b)
  }

  /** `sum % 11 < 2 ? 0 : 11 - sum % 11` on a JavaScript number; NaN compares false and stays NaN. */
  function CheckDigitOf(sum: Number): Number {
    match sum
    case NaN => NaN
    case Num(s) => Num(if JsRem(s, 11) < 2 then 0 else 11 - JsRem(s, 11))
  }

  /** `a === b` on numbers: NaN equals nothing, itself included. */
  predicate StrictEquals(a: Number, b: Number) {
    a.Num? && b.Num? && a.v == b.v
  }
}
