/** JavaScript values as the listing pages and the invoice builder see them.

    A numeric field is what `Number(field)` yields: a finite integer, or NaN
    (`NotFinite`), which is what an absent field becomes. A string field is a
    `string`, with "" standing for an absent field: both are falsy in an `||`
    chain, so the pages treat them alike. */
module Js {

  datatype Option<+T> = None | Some(value: T) {
    function GetOr(default: T): T {
      match this
      case Some(v) => v
      case None => default
    }
  }

  /** A numeric field after `Number(...)`. */
  datatype Num = Finite(n: int) | NotFinite

  /** JavaScript truthiness of a number: NaN and 0 are falsy. */
  predicate Truthy(v: Num) {
    v.Finite? && v.n != 0
  }

  /** `Number(v) || fallback`: the field itself when it is truthy. */
  function TruthyOr(v: Num, fallback: int): int {
    if Truthy(v) then v.n else fallback
  }

  /** `a || b` on strings. */
  function StrOr(a: string, b: string): string {
    if a != "" then a else b
  }

  function DigitChar(d: nat): char
    requires d < 10
  {
    "0123456789"[d]
  }

  /** The decimal digits of a natural number, as `String(n)` prints them. */
  function NatToString(n: nat): (s: string)
    decreases n
  {
    if n < 10 then [DigitChar(n)] else NatToString(n / 10) + [DigitChar(n % 10)]
  }

  /** A number interpolated into a template string: `${v}`. An absent field prints "undefined". */
  function NumText(v: Num): string {
    match v
    case NotFinite => "undefined"
    case Finite(n) => if n < 0 then "-" + NatToString(-n) else NatToString(n)
  }
}
