/**
 * Parsed JSON values and the accessors of serde_json's `Value` that the
 * client uses to probe inbound frames: `get`, `as_str`, `as_u64`,
 * `as_array` and `as_object`. Each accessor takes an optional value so that
 * the Rust chains `x.get("a").and_then(|v| v.as_str())` read as
 * `AsStr(Get(x, "a"))`.
 */
module Json {
  import opened Wrappers
  import opened Ints
  import opened Digits

  /**
   * A JSON value. Objects are maps (serde_json keeps an object's members in
   * a map with unique keys); a number is kept as the literal written on the
   * wire.
   */
  datatype Json =
    | JNull
    | JBool(b: bool)
    | JNum(literal: string)
    | JStr(str: string)
    | JArr(elems: seq<Json>)
    | JObj(fields: map<string, Json>)

  /** `Value::get(key)`: the member of an object, None on any other value. */
  function Get(v: Json, key: string): Option<Json>
  {
    if v.JObj? && key in v.fields then Some(v.fields[key]) else None
  }

  /** `.and_then(|v| v.get(key))`. */
  function GetIn(v: Option<Json>, key: string): Option<Json>
  {
    if v.Some? then Get(v.value, key) else None
  }

  /** `.and_then(|v| v.as_str())`. */
  function AsStr(v: Option<Json>): Option<string>
  {
    if v.Some? && v.value.JStr? then Some(v.value.str) else None
  }

  /** `.and_then(|v| v.as_array())`. */
  function AsArray(v: Option<Json>): Option<seq<Json>>
  {
    if v.Some? && v.value.JArr? then Some(v.value.elems) else None
  }

  /** `.and_then(|v| v.as_object())`. */
  function AsObject(v: Option<Json>): Option<map<string, Json>>
  {
    if v.Some? && v.value.JObj? then Some(v.value.fields) else None
  }

  /** True when a number literal is one serde_json stores as a `u64`. */
  predicate IsU64Literal(literal: string)
  {
    |literal| > 0 && AllDigits(literal) && DigitsValue(literal) < U64Limit
  }

  /**
   * `.and_then(|v| v.as_u64())`: Some only for a number written as an
   * unsigned integer that fits in 64 bits (a negative, fractional or
   * exponent literal, or a string, gives None).
   */
  function AsU64(v: Option<Json>): Option<U64>
  {
    if v.Some? && v.value.JNum? && IsU64Literal(v.value.literal)
    then Some(DigitsValue(v.value.literal) as U64)
    else None
  }

  /** The number n as the feed writes it. */
  function U64Json(n: U64): Json
  {
    JNum(DecimalText(n))
  }

  /** `as_u64` reads back every unsigned number written in decimal. */
  lemma AsU64OfU64Json(n: U64)
    ensures AsU64(Some(U64Json(n))) == Some(n)
  {
    DecimalTextRoundTrip(n);
  }
}

/**
 * Floating-point values. The f64 arithmetic and rounding are not modelled:
 * a value is kept as the decimal text it was read from. What is modelled is
 * which strings Rust's `str::parse::<f64>` accepts: an optional sign, then
 * `inf`, `infinity` or `nan` in any letter case, or a decimal number with an
 * optional exponent.
 */
module F64 {
  import opened Wrappers
  import opened Digits

  datatype F64 = F64(literal: string)

  function ToLowerAscii(c: char): char
  {
    if 'A' <= c <= 'Z' then (c as int + 32) as char else c
  }

  function LowerAscii(s: string): string
  {
    seq(|s|, i requires 0 <= i < |s| => ToLowerAscii(s[i]))
  }

  /** s with one leading '+' or '-' removed. */
  function Unsigned(s: string): string
  {
    if |s| > 0 && (s[0] == '+' || s[0] == '-') then s[1..] else s
  }

  /** The position of the first c in s, or |s|. */
  function IndexOf(s: string, c: char): (r: nat)
    ensures r <= |s|
    ensures forall j | 0 <= j < r :: s[j] != c
    ensures r < |s| ==> s[r] == c
  {
    if s == [] then 0
    else if s[0] == c then 0
    else 1 + IndexOf(s[1..], c)
  }

  /** `Digit+ | Digit+ '.' Digit* | Digit* '.' Digit+` */
  predicate IsMantissa(m: string)
  {
    var dot := IndexOf(m, '.');
    if dot == |m| then |m| > 0 && AllDigits(m)
    else |m| > 1 && AllDigits(m[..dot]) && AllDigits(m[dot + 1..])
  }

  /** The part of an exponent after the 'e': `Sign? Digit+` */
  predicate IsExponentDigits(x: string)
  {
    var d := Unsigned(x);
    |d| > 0 && AllDigits(d)
  }

  /** `Mantissa Exp?` where the exponent starts with 'e' or 'E'. */
  predicate IsDecimalNumber(b: string)
  {
    var lower := LowerAscii(b);
    var e := IndexOf(lower, 'e');
    IsMantissa(b[..e]) && (e == |b| || IsExponentDigits(b[e + 1..]))
  }

  /** True when `s.parse::<f64>()` succeeds. */
  predicate ParsesAsF64(s: string)
  {
    var b := Unsigned(s);
    LowerAscii(b) in {"inf", "infinity", "nan"} || IsDecimalNumber(b)
  }

  /** `s.parse::<f64>().ok()` */
  function ParseF64(s: string): (r: Option<F64>)
    ensures r.Some? <==> ParsesAsF64(s)
    ensures r.Some? ==> r.value.literal == s
  {
    if ParsesAsF64(s) then Some(F64(s)) else None
  }

  /** Every non-empty string of decimal digits, with or without a minus sign, parses as an f64. */
  lemma DigitsParseAsF64(s: string)
    requires |s| > 0 && AllDigits(s)
    ensures ParsesAsF64(s) && ParsesAsF64("-" + s)
  {
    assert Unsigned(s) == s;
    assert Unsigned("-" + s) == s by { assert ("-" + s)[1..] == s; }
    assert LowerAscii(s) == s;
    assert s[..IndexOf(s, 'e')] == s;
  }

  /** The decimal text of every natural number parses as an f64. */
  lemma DecimalTextParsesAsF64(n: nat)
    ensures ParsesAsF64(DecimalText(n))
  {
    DecimalTextRoundTrip(n);
    DigitsParseAsF64(DecimalText(n));
  }

  /** Strings the grammar accepts. */
  lemma ParseF64Accepts()
    ensures ParsesAsF64("1.5") && ParsesAsF64("-2E7")
  {
    assert Unsigned("1.5") == "1.5";
    assert LowerAscii("1.5") == "1.5";
    assert IndexOf("1.5", 'e') == 3;
    assert "1.5"[..3] == "1.5";
    assert IndexOf("1.5", '.') == 1;
    assert AllDigits("1.5"[..1]) && AllDigits("1.5"[2..]);
    assert Unsigned("-2E7") == "2E7";
    assert LowerAscii("2E7") == "2e7";
    assert IndexOf("2e7", 'e') == 1;
    assert "2E7"[..1] == "2" && "2E7"[2..] == "7";
    assert IndexOf("2", '.') == 1;
  }

  /** Strings the grammar rejects. */
  lemma ParseF64Rejects()
    ensures !ParsesAsF64("") && !ParsesAsF64(".") && !ParsesAsF64("1e") && !ParsesAsF64("x1")
  {
    assert LowerAscii(".") == ".";
    assert IndexOf(".", 'e') == 1 && IndexOf(".", '.') == 0;
    assert LowerAscii("1e") == "1e";
    assert IndexOf("1e", 'e') == 1;
    assert LowerAscii("x1") == "x1";
    assert IndexOf("x1", 'e') == 2 && IndexOf("x1", '.') == 2;
  }
}
