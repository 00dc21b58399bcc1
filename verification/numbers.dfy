/** A model of the JavaScript built-in `parseInt(text, 10)`, which the game
    uses twice: to read a numeral card's rank label while scoring a hand, and
    to read the refill amount typed into the chip-refill form. The scoring
    call omits the radix; without one `parseInt` would read a "0x" prefix as
    hexadecimal, but the labels "2" to "10" have no such prefix, so on them
    the two calls agree.

    `NaN` is modelled as `None`. Numbers are unbounded integers: above 2^53 the
    real `parseInt` rounds to the nearest double, which only matters for
    inputs far larger than anything the game compares them with. */
module Numbers {

  datatype Option<+T> = None | Some(value: T)

  predicate IsDigit(c: char) {
    '0' <= c <= '9'
  }

  function DigitValue(c: char): nat
    requires IsDigit(c)
  {
    c as int - '0' as int
  }

  function DigitChar(d: nat): (c: char)
    requires d < 10
    ensures IsDigit(c) && DigitValue(c) == d
  {
    ('0' as int + d) as char
  }

  predicate AllDigits(s: string) {
    forall i :: 0 <= i < |s| ==> IsDigit(s[i])
  }

  /** White space and line terminators that `parseInt` skips before the number. */
  predicate IsJsSpace(c: char) {
    || c == ' ' || c == '\t' || c == '\n' || c == '\r'
    || c == '\U{0B}' || c == '\U{0C}'
    || c == '\U{A0}' || c == '\U{1680}'
    || ('\U{2000}' <= c <= '\U{200A}')
    || c == '\U{2028}' || c == '\U{2029}' || c == '\U{202F}'
    || c == '\U{205F}' || c == '\U{3000}' || c == '\U{FEFF}'
  }

  function TrimStart(s: string): (t: string)
    ensures |t| <= |s| && t == s[|s| - |t|..]
    ensures |t| > 0 ==> !IsJsSpace(t[0])
    ensures forall i :: 0 <= i < |s| - |t| ==> IsJsSpace(s[i])
  {
    if |s| > 0 && IsJsSpace(s[0]) then TrimStart(s[1..]) else s
  }

  /** The longest prefix of `s` made of decimal digits. */
  function DigitPrefix(s: string): (z: string)
    ensures z <= s && AllDigits(z)
    ensures |z| < |s| ==> !IsDigit(s[|z|])
  {
    if |s| > 0 && IsDigit(s[0]) then [s[0]] + DigitPrefix(s[1..]) else []
  }

  /** The value of a string of decimal digits, most significant first. */
  function DigitsValue(z: string): nat
    requires AllDigits(z)
  {
    if |z| == 0 then 0 else 10 * DigitsValue(z[..|z| - 1]) + DigitValue(z[|z| - 1])
  }

  /** `parseInt(s, 10)`: skip leading white space, read an optional sign, then
      the longest run of decimal digits; no digits at all gives `NaN`. Anything
      after the digits (a decimal point, an exponent) is ignored. */
  function ParseInt(s: string): Option<int> {
    var t := TrimStart(s);
    var negative := |t| > 0 && t[0] == '-';
    var u := if |t| > 0 && (t[0] == '-' || t[0] == '+') then t[1..] else t;
    var z := DigitPrefix(u);
    if |z| == 0 then None
    else if negative then Some(-(DigitsValue(z) as int))
    else Some(DigitsValue(z))
  }

  /** The shortest decimal numeral of `n`. */
  function DecimalString(n: nat): (s: string)
    ensures |s| > 0 && AllDigits(s)
  {
    if n < 10 then [DigitChar(n)] else DecimalString(n / 10) + [DigitChar(n % 10)]
  }

  lemma {:induction false} DigitPrefixOfDigits(s: string)
    requires AllDigits(s)
    ensures DigitPrefix(s) == s
  {
    if |s| > 0 {
      DigitPrefixOfDigits(s[1..]);
    }
  }

  lemma {:induction false} DecimalStringValue(n: nat)
    ensures DigitsValue(DecimalString(n)) == n
  {
    var s := DecimalString(n);
    if n >= 10 {
      DecimalStringValue(n / 10);
      assert s[..|s| - 1] == DecimalString(n / 10);
    }
  }

  /** `parseInt` reads the shortest decimal numeral of `n` back as `n`. */
  lemma ParseDecimal(n: nat)
    ensures ParseInt(DecimalString(n)) == Some(n)
  {
    var s := DecimalString(n);
    assert !IsJsSpace(s[0]) && s[0] != '-' && s[0] != '+' by { assert IsDigit(s[0]); }
    DigitPrefixOfDigits(s);
    DecimalStringValue(n);
  }

  /** A leading minus sign negates the numeral that follows it. */
  lemma ParseNegativeDecimal(n: nat)
    ensures ParseInt("-" + DecimalString(n)) == Some(-(n as int))
  {
    var s := DecimalString(n);
    var t := "-" + s;
    assert TrimStart(t) == t by { assert !IsJsSpace(t[0]); }
    assert t[1..] == s;
    DigitPrefixOfDigits(s);
    DecimalStringValue(n);
  }

  /** Text that does not start (after white space and a sign) with a digit is `NaN`. */
  lemma ParseWithoutDigits(s: string)
    requires |s| > 0 && !IsJsSpace(s[0]) && !IsDigit(s[0]) && s[0] != '-' && s[0] != '+'
    ensures ParseInt(s) == None
  {
  }
}
