/**
 * The few operations of the Arduino `String` class that the request handlers rely on:
 * `substring(from)`, `startsWith(prefix)` and `toInt()` (which is `atol` on the buffer).
 */
module ArduinoString {

  /** `s.substring(from)`: the tail from `from`, or the empty string when `from` is past the end. */
  function Substring(s: string, from: nat): (r: string)
    ensures from <= |s| ==> r == s[from..]
    ensures |s| <= from ==> r == ""
    ensures |r| + from == |s| || r == ""
  {
    if from < |s| then s[from..] else ""
  }

  /** `s.startsWith(prefix)`. */
  predicate StartsWith(s: string, prefix: string)
    ensures StartsWith(s, prefix) <==> |prefix| <= |s| && s[..|prefix|] == prefix
  {
    prefix <= s
  }

  /** The characters `isspace` accepts: blank, tab, newline, vertical tab, form feed, carriage return. */
  predicate IsSpace(c: char) {
    c == ' ' || '\t' <= c <= '\r'
  }

  predicate IsDigit(c: char) {
    '0' <= c <= '9'
  }

  predicate AllDigits(s: string) {
    forall i :: 0 <= i < |s| ==> IsDigit(s[i])
  }

  function DigitValue(c: char): (d: nat)
    requires IsDigit(c)
    ensures d < 10
  {
    (c as int) - ('0' as int)
  }

  function DigitChar(d: nat): (c: char)
    requires d < 10
    ensures IsDigit(c) && DigitValue(c) == d
  {
    (('0' as int) + d) as char
  }

  /** Leading white space that `atol` skips. */
  function SkipSpace(s: string): (t: string)
    ensures |t| <= |s| && t == s[|s| - |t|..]
    ensures forall i :: 0 <= i < |s| - |t| ==> IsSpace(s[i])
    ensures t != [] ==> !IsSpace(t[0])
    ensures s != [] && !IsSpace(s[0]) ==> t == s
  {
    if s != [] && IsSpace(s[0]) then
      var rest := s[1..];
      var t := SkipSpace(rest);
      assert t == rest[|rest| - |t|..] == s[|s| - |t|..];
      assert forall i :: 1 <= i < |s| - |t| ==> s[i] == rest[i - 1];
      t
    else s
  }

  /** The longest prefix of `s` made of decimal digits. */
  function DigitPrefix(s: string): (p: string)
    ensures p <= s && AllDigits(p)
    ensures |p| < |s| ==> !IsDigit(s[|p|])
  {
    if s != [] && IsDigit(s[0]) then [s[0]] + DigitPrefix(s[1..]) else []
  }

  /** The value of a string of decimal digits, most significant first. */
  function DigitsValue(d: string): nat
    requires AllDigits(d)
  {
    if d == [] then 0 else DigitsValue(d[..|d| - 1]) * 10 + DigitValue(d[|d| - 1])
  }

  /**
   * `String::toInt()`: skip white space, read an optional sign, then as many
   * decimal digits as follow; anything else yields 0. The result is unbounded
   * here, where `atol` returns a 32-bit `long`.
   */
  function ToInt(s: string): (r: int)
    ensures var t := SkipSpace(s);
      t == [] || !(IsDigit(t[0]) || t[0] == '+' || t[0] == '-') ==> r == 0
    ensures var t := SkipSpace(s);
      t != [] && t[0] == '-' ==> r <= 0
    ensures var t := SkipSpace(s);
      t != [] && t[0] != '-' ==> r >= 0
  {
    var t := SkipSpace(s);
    if t != [] && t[0] == '-' then -(DigitsValue(DigitPrefix(t[1..])) as int)
    else if t != [] && t[0] == '+' then DigitsValue(DigitPrefix(t[1..]))
    else DigitsValue(DigitPrefix(t))
  }

  /** The decimal text of a natural number, without leading zeros. */
  function Decimal(n: nat): (s: string)
    ensures s != [] && AllDigits(s)
    ensures |s| > 1 ==> s[0] != '0'
  {
    if n < 10 then [DigitChar(n)] else Decimal(n / 10) + [DigitChar(n % 10)]
  }

  lemma {:induction false} DecimalValue(n: nat)
    ensures DigitsValue(Decimal(n)) == n
  {
    if n >= 10 {
      var s := Decimal(n);
      assert s[..|s| - 1] == Decimal(n / 10);
      DecimalValue(n / 10);
    }
  }

  lemma {:induction false} DigitPrefixOfDigits(s: string, rest: string)
    requires AllDigits(s)
    requires rest == [] || !IsDigit(rest[0])
    ensures DigitPrefix(s + rest) == s
  {
    if s != [] {
      assert (s + rest)[1..] == s[1..] + rest;
      DigitPrefixOfDigits(s[1..], rest);
    } else {
      assert s + rest == rest;
    }
  }

  /** `toInt` reads a string of digits as its value, whatever non-digit text follows it. */
  lemma ToIntOfDigits(d: string, rest: string)
    requires d != [] && AllDigits(d)
    requires rest == [] || !IsDigit(rest[0])
    ensures ToInt(d + rest) == DigitsValue(d)
  {
    var s := d + rest;
    assert s[0] == d[0];
    assert IsDigit(s[0]) && !IsSpace(s[0]) && s[0] != '-' && s[0] != '+';
    assert SkipSpace(s) == s;
    DigitPrefixOfDigits(d, rest);
    assert ToInt(s) == DigitsValue(DigitPrefix(s));
  }

  /** `toInt` reads back the decimal text of a number, whatever non-digit text follows it. */
  lemma ToIntOfDecimal(n: nat, rest: string)
    requires rest == [] || !IsDigit(rest[0])
    ensures ToInt(Decimal(n) + rest) == n
  {
    ToIntOfDigits(Decimal(n), rest);
    DecimalValue(n);
  }
}
