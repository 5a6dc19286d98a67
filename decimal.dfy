/** Unsigned machine integers as the contract stores them in trait values:
    decimal text written by `to_string` and read back by `parse::<u16>()` or
    `parse::<u32>()`, and the checked arithmetic of the Rust integer types. */
module Decimal {
  import opened Outcome

  const U16_MAX: nat := 0xFFFF
  const U32_MAX: nat := 0xFFFF_FFFF

  predicate IsDigit(c: char) { '0' <= c <= '9' }

  predicate AllDigits(s: string) { forall i | 0 <= i < |s| :: IsDigit(s[i]) }

  /** The number a string of decimal digits denotes, most significant digit first. */
  function DigitsValue(s: string): nat
    requires AllDigits(s)
    decreases |s|
  {
    if s == [] then 0
    else DigitsValue(s[..|s| - 1]) * 10 + (s[|s| - 1] as int - '0' as int)
  }

  /** Rust's `str::parse` for an unsigned type whose largest value is `max`:
      an optional leading '+', then at least one decimal digit, and a value
      that fits. Anything else is a parse error. */
  function ParseUnsigned(s: string, max: nat): (r: Option<nat>)
    ensures r.Some? ==> r.value <= max
    ensures r.Some? ==> s != [] && (IsDigit(s[0]) || s[0] == '+')
  {
    var digits := if |s| > 0 && s[0] == '+' then s[1..] else s;
    if digits != [] && AllDigits(digits) && DigitsValue(digits) <= max
    then Some(DigitsValue(digits))
    else None
  }

  function ParseU16(s: string): Option<nat> { ParseUnsigned(s, U16_MAX) }

  function ParseU32(s: string): Option<nat> { ParseUnsigned(s, U32_MAX) }

  /** `s.parse::<uN>().unwrap()`: the number, or a panic. */
  function ParseNumber(s: string, max: nat): Result<nat>
  {
    match ParseUnsigned(s, max)
    case Some(n) => Ok(n)
    case None => Err(Panicked(NotANumber))
  }

  function DigitChar(d: nat): (c: char)
    requires d < 10
    ensures IsDigit(c)
  {
    ('0' as int + d) as char
  }

  /** `n.to_string()`: the decimal digits of `n`, without leading zeros. */
  function Format(n: nat): (s: string)
    ensures s != [] && AllDigits(s)
    ensures n < 10 <==> |s| == 1
    decreases n
  {
    if n < 10 then [DigitChar(n)] else Format(n / 10) + [DigitChar(n % 10)]
  }

  lemma {:induction false} FormatValue(n: nat)
    ensures DigitsValue(Format(n)) == n
    decreases n
  {
    if n >= 10 {
      FormatValue(n / 10);
      var s := Format(n);
      assert s[..|s| - 1] == Format(n / 10);
    }
  }

  /** Writing a number and parsing it back with a type wide enough gives the number. */
  lemma ParseFormat(n: nat, max: nat)
    requires n <= max
    ensures ParseUnsigned(Format(n), max) == Some(n)
  {
    FormatValue(n);
  }

  /** A checked unsigned addition in a type whose largest value is `max`. */
  function CheckedAdd(a: nat, b: nat, max: nat): Result<nat>
  {
    if a + b <= max then Ok(a + b) else Err(Panicked(Overflow))
  }

  /** A checked unsigned subtraction. */
  function CheckedSub(a: nat, b: nat): Result<nat>
  {
    if b <= a then Ok(a - b) else Err(Panicked(Underflow))
  }

  /** The truncating cast `n as u16`. */
  function AsU16(n: nat): (r: nat)
    ensures r <= U16_MAX
    ensures n <= U16_MAX ==> r == n
  {
    n % 0x1_0000
  }
}
