/** The random values the handlers turn into secrets: the 6-digit emailed
    code built from `Math.random()` and the 64-character verification token
    built from 32 random bytes. The random sources themselves are parameters. */
module OneTimeCodes {

  newtype byte = x: int | 0 <= x < 256

  // ---------------------------------------------------------------------------
  // Decimal rendering (`Number.prototype.toString()` on a non-negative integer)

  predicate IsDigit(c: char) {
    '0' <= c <= '9'
  }

  function DigitChar(d: nat): (c: char)
    requires d < 10
    ensures IsDigit(c)
  {
    ['0', '1', '2', '3', '4', '5', '6', '7', '8', '9'][d]
  }

  function DigitValue(c: char): (d: nat)
    requires IsDigit(c)
    ensures d < 10 && DigitChar(d) == c
  {
    if c == '0' then 0 else if c == '1' then 1 else if c == '2' then 2
    else if c == '3' then 3 else if c == '4' then 4 else if c == '5' then 5
    else if c == '6' then 6 else if c == '7' then 7 else if c == '8' then 8 else 9
  }

  predicate AllDigits(s: string) {
    forall k :: 0 <= k < |s| ==> IsDigit(s[k])
  }

  /** Shortest decimal numeral of n: no leading zero except for n == 0 itself. */
  function Decimal(n: nat): (s: string)
    ensures |s| > 0 && AllDigits(s)
    ensures n >= 1 ==> s[0] != '0'
    decreases n
  {
    if n < 10 then [DigitChar(n)]
    else
      var prefix := Decimal(n / 10);
      assert prefix[0] != '0';
      prefix + [DigitChar(n % 10)]
  }

  /** The value of a string of digits: the inverse of `Decimal`. */
  function DigitsValue(s: string): nat
    requires AllDigits(s)
  {
    if s == [] then 0
    else DigitsValue(s[..|s| - 1]) * 10 + DigitValue(s[|s| - 1])
  }

  lemma {:induction false} DecimalRoundTrip(n: nat)
    ensures DigitsValue(Decimal(n)) == n
    decreases n
  {
    var s := Decimal(n);
    if n < 10 {
      assert s[..|s| - 1] == [];
    } else {
      DecimalRoundTrip(n / 10);
      assert s[..|s| - 1] == Decimal(n / 10);
    }
  }

  function Pow10(k: nat): (p: nat)
    ensures p >= 1
  {
    if k == 0 then 1 else 10 * Pow10(k - 1)
  }

  /** A number with k + 1 decimal digits renders as k + 1 characters. */
  lemma {:induction false} DecimalLength(n: nat, k: nat)
    requires Pow10(k) <= n < Pow10(k + 1)
    ensures |Decimal(n)| == k + 1
    decreases k
  {
    if k > 0 {
      assert Pow10(k) == 10 * Pow10(k - 1);
      assert Pow10(k + 1) == 10 * Pow10(k);
      DecimalLength(n / 10, k - 1);
    }
  }

  // ---------------------------------------------------------------------------
  // The emailed 2FA code: Math.floor(100000 + Math.random() * 900000).toString()

  /** A code as the handlers issue it: six decimal digits, the first not 0. */
  predicate IsSixDigitCode(s: string) {
    |s| == 6 && AllDigits(s) && s[0] != '0'
  }

  /** The integer drawn from a `Math.random()` result in [0, 1). */
  function CodeNumber(random: real): (n: nat)
    requires 0.0 <= random < 1.0
    ensures 100000 <= n <= 999999
  {
    var x := 100000.0 + random * 900000.0;
    assert 100000.0 <= x < 1000000.0;
    x.Floor
  }

  function EmailCode(random: real): (code: string)
    requires 0.0 <= random < 1.0
    ensures IsSixDigitCode(code)
    ensures 100000 <= DigitsValue(code) <= 999999
    ensures code == Decimal(DigitsValue(code))
  {
    var n := CodeNumber(random);
    assert Pow10(5) == 100000 && Pow10(6) == 1000000;
    DecimalLength(n, 5);
    DecimalRoundTrip(n);
    Decimal(n)
  }

  // ---------------------------------------------------------------------------
  // The verification token: crypto.randomBytes(32).toString("hex")

  predicate IsHexDigit(c: char) {
    ('0' <= c <= '9') || ('a' <= c <= 'f')
  }

  function HexChar(d: nat): (c: char)
    requires d < 16
    ensures IsHexDigit(c)
  {
    "0123456789abcdef"[d]
  }

  function HexValue(c: char): (d: nat)
    requires IsHexDigit(c)
    ensures d < 16 && HexChar(d) == c
  {
    if '0' <= c <= '9' then (c as int - '0' as int) else (c as int - 'a' as int) + 10
  }

  lemma HexCharValue(d: nat)
    requires d < 16
    ensures HexValue(HexChar(d)) == d
  {
  }

  predicate IsHexString(s: string) {
    forall k :: 0 <= k < |s| ==> IsHexDigit(s[k])
  }

  /** Two lower-case hexadecimal digits per byte, high nibble first. */
  function Hex(bytes: seq<byte>): (s: string)
    ensures |s| == 2 * |bytes| && IsHexString(s)
  {
    if bytes == [] then []
    else [HexChar(bytes[0] as nat / 16), HexChar(bytes[0] as nat % 16)] + Hex(bytes[1..])
  }

  function Unhex(s: string): (bytes: seq<byte>)
    requires IsHexString(s) && |s| % 2 == 0
  {
    if s == [] then []
    else [(HexValue(s[0]) * 16 + HexValue(s[1])) as byte] + Unhex(s[2..])
  }

  lemma {:induction false} HexRoundTrip(bytes: seq<byte>)
    ensures Unhex(Hex(bytes)) == bytes
  {
    if bytes != [] {
      var s := Hex(bytes);
      var b := bytes[0] as nat;
      assert s[0] == HexChar(b / 16) && s[1] == HexChar(b % 16) && s[2..] == Hex(bytes[1..]);
      HexRoundTrip(bytes[1..]);
      HexCharValue(b / 16);
      HexCharValue(b % 16);
      assert (b / 16) * 16 + b % 16 == b;
    }
  }

  /** A verification token as issued: 32 random bytes in hexadecimal. */
  predicate IsVerificationToken(t: string) {
    |t| == 64 && IsHexString(t)
  }

  function VerificationToken(randomBytes: seq<byte>): (t: string)
    requires |randomBytes| == 32
    ensures IsVerificationToken(t)
    ensures Unhex(t) == randomBytes
  {
    HexRoundTrip(randomBytes);
    Hex(randomBytes)
  }
}
