/** Values at the JavaScript boundary of the BankID login code, the decimal
    rendering of integers that JavaScript's `toString` performs, and the
    library primitives the code calls but does not define. */
module Common {

  datatype Option<+T> = None | Some(value: T)

  /** A JavaScript value that is either a string or missing (`undefined` or `null`). */
  type JsStr = Option<string>

  /** JavaScript truthiness of such a value: a missing value and "" are falsy. */
  predicate Truthy(v: JsStr) {
    v.Some? && v.value != ""
  }

  /** What a template literal `${v}` produces; a missing value prints as "undefined". */
  function Interpolate(v: JsStr): (s: string)
    ensures v.Some? ==> s == v.value
  {
    if v.Some? then v.value else "undefined"
  }

  /** How a `fetch` or `axios` request settles: with a parsed JSON body, or by throwing. */
  datatype Fetched<T> = Answered(body: T) | Threw

  // ---------------------------------------------------------------------------
  // Decimal numbers: `Number.prototype.toString` on integral values
  // ---------------------------------------------------------------------------

  predicate IsDigit(c: char) {
    '0' <= c <= '9'
  }

  predicate AllDigits(s: string) {
    forall i :: 0 <= i < |s| ==> IsDigit(s[i])
  }

  function DigitChar(d: nat): (c: char)
    requires d < 10
    ensures IsDigit(c) && c as int - '0' as int == d
  {
    ('0' as int + d) as char
  }

  /** The decimal digits of `n`, most significant first, without leading zeros. */
  function NatToDecimal(n: nat): (s: string)
    ensures |s| > 0 && AllDigits(s)
    ensures s[0] == '0' ==> n == 0
  {
    if n < 10 then [DigitChar(n)] else NatToDecimal(n / 10) + [DigitChar(n % 10)]
  }

  /** `n.toString()` for an integer `n`: a minus sign in front of a negative
      value, and no leading zeros. */
  function IntToDecimal(n: int): (s: string)
    ensures |s| > 0 && '.' !in s
    ensures n >= 0 <==> AllDigits(s)
    ensures n >= 0 && s[0] == '0' ==> n == 0
    ensures n < 0 ==> |s| > 1 && s[0] == '-' && AllDigits(s[1..]) && s[1] != '0'
  {
    if n < 0 then
      var s := "-" + NatToDecimal(-n);
      assert !IsDigit(s[0]);
      s
    else NatToDecimal(n)
  }

  /** The value of a string of decimal digits. */
  function DigitsValue(s: string): nat
    requires AllDigits(s)
  {
    if s == [] then 0 else 10 * DigitsValue(s[..|s| - 1]) + (s[|s| - 1] as int - '0' as int)
  }

  /** Reads back an optionally signed decimal integer. */
  function ParseInt(s: string): Option<int> {
    if |s| > 1 && s[0] == '-' && AllDigits(s[1..]) then Some(-(DigitsValue(s[1..]) as int))
    else if |s| > 0 && AllDigits(s) then Some(DigitsValue(s))
    else None
  }

  lemma {:induction false} NatDecimalRoundTrip(n: nat)
    ensures DigitsValue(NatToDecimal(n)) == n
  {
    if n >= 10 {
      var s := NatToDecimal(n);
      assert s[..|s| - 1] == NatToDecimal(n / 10);
      NatDecimalRoundTrip(n / 10);
    }
  }

  /** Reading back the decimal rendering of an integer gives the integer. */
  lemma IntDecimalRoundTrip(n: int)
    ensures ParseInt(IntToDecimal(n)) == Some(n)
  {
    var s := IntToDecimal(n);
    if n < 0 {
      assert s[1..] == NatToDecimal(-n);
      NatDecimalRoundTrip(-n);
    } else {
      assert s == NatToDecimal(n);
      NatDecimalRoundTrip(n);
    }
  }

  /** Distinct integers have distinct decimal renderings. */
  lemma DecimalInjective(a: int, b: int)
    requires a != b
    ensures IntToDecimal(a) != IntToDecimal(b)
  {
    IntDecimalRoundTrip(a);
    IntDecimalRoundTrip(b);
  }

  // ---------------------------------------------------------------------------
  // Library primitives
  // ---------------------------------------------------------------------------

  /** The cryptographic and encoding library calls the route makes. They are
      not re-implemented: the model takes them as opaque functions, which is
      all that the route relies on. */
  datatype Crypto = Crypto(
    /** `crypto.createHmac('sha256', key).update(message).digest('hex')` (RFC 2104 over SHA-256) */
    hmacSha256Hex: (string, string) -> string,
    /** `sha1(text).toString()` of crypto-js: the hex SHA-1 digest */
    sha1Hex: string -> string,
    /** `utf8.encode(text)`: one character per UTF-8 byte (RFC 3629, section 3) */
    utf8Encode: string -> string,
    /** `btoa(bytes)`: base64 (RFC 4648, section 4) */
    base64: string -> string)

  predicate IsLowerHex(c: char) {
    IsDigit(c) || 'a' <= c <= 'f'
  }

  /** A SHA-256 digest written as lowercase hex: 32 bytes, 64 characters. */
  predicate IsHexDigest(s: string) {
    |s| == 64 && forall i :: 0 <= i < |s| ==> IsLowerHex(s[i])
  }

  /** What the HMAC library guarantees about the shape of its hex output. */
  ghost predicate HmacIsHex(c: Crypto) {
    forall key: string, message: string :: IsHexDigest(c.hmacSha256Hex(key, message))
  }
}
