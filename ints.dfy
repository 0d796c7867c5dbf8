/** The fixed-width unsigned integers of the Rust code, as subset types of int. */
module Ints {

  const U8Limit: int := 0x100
  const U32Limit: int := 0x1_0000_0000
  const U64Limit: int := 0x1_0000_0000_0000_0000

  type U8 = n: int | 0 <= n < U8Limit
  type U32 = n: int | 0 <= n < U32Limit
  type U64 = n: int | 0 <= n < U64Limit

  /** Rust's `as u32` on a non-negative integer: keeps the low 32 bits. */
  function TruncateU32(n: nat): (r: U32)
    ensures n < U32Limit ==> r == n
  {
    n % U32Limit
  }
}

/** Decimal digit strings: the text form of unsigned integers on the wire. */
module Digits {

  predicate IsDigit(c: char) {
    '0' <= c <= '9'
  }

  predicate AllDigits(s: string) {
    forall i | 0 <= i < |s| :: IsDigit(s[i])
  }

  /** The value of a string of decimal digits, most significant first. */
  function DigitsValue(s: string): nat
    requires AllDigits(s)
  {
    if s == [] then 0
    else DigitsValue(s[..|s| - 1]) * 10 + (s[|s| - 1] as int - '0' as int)
  }

  /** The shortest decimal text of n, as Rust's `to_string` writes it. */
  function DecimalText(n: nat): string
  {
    if n < 10 then [('0' as int + n) as char]
    else DecimalText(n / 10) + [('0' as int + n % 10) as char]
  }

  /** Reading back the decimal text of n gives n. */
  lemma {:induction false} DecimalTextRoundTrip(n: nat)
    ensures |DecimalText(n)| > 0 && AllDigits(DecimalText(n))
    ensures DigitsValue(DecimalText(n)) == n
  {
    var s := DecimalText(n);
    if n >= 10 {
      DecimalTextRoundTrip(n / 10);
      assert s[..|s| - 1] == DecimalText(n / 10);
    }
  }
}
