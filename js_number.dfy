/** Integer conversions the components use on identifiers: `n.toString()` and
    `parseInt(s, 10)`. */
module JsNumber {
  import opened Wrappers
  import opened JsText

  predicate IsDigit(c: char) {
    '0' <= c <= '9'
  }

  function DigitValue(c: char): (d: nat)
    requires IsDigit(c)
    ensures d < 10
  {
    c as int - '0' as int
  }

  function DigitChar(d: nat): (c: char)
    requires d < 10
    ensures IsDigit(c) && DigitValue(c) == d
  {
    ('0' as int + d) as char
  }

  predicate AllDigits(s: string) {
    forall i :: 0 <= i < |s| ==> IsDigit(s[i])
  }

  /** The decimal numeral of a non-negative integer, without leading zeros. */
  function NatToString(n: nat): (r: string)
    ensures |r| > 0 && AllDigits(r)
  {
    if n < 10 then [DigitChar(n)]
    else NatToString(n / 10) + [DigitChar(n % 10)]
  }

  /** `n.toString()` for an integer-valued number. */
  function IntToString(n: int): (r: string)
    ensures |r| > 0 && (r[0] == '-' || IsDigit(r[0]))
  {
    if n < 0 then "-" + NatToString(-n) else NatToString(n)
  }

  /** Length of the longest prefix of decimal digits. */
  function DigitRun(s: string): (k: nat)
    ensures k <= |s| && AllDigits(s[..k])
  {
    if s != [] && IsDigit(s[0]) then 1 + DigitRun(s[1..]) else 0
  }

  /** The value of a numeral, read left to right. */
  function DigitsValue(s: string): nat
    requires AllDigits(s)
  {
    if s == [] then 0 else 10 * DigitsValue(s[..|s| - 1]) + DigitValue(s[|s| - 1])
  }

  /** The value of the leading run of digits, or NaN (None) when there is none. */
  function ParseDigits(s: string): Option<int> {
    var k := DigitRun(s);
    if k == 0 then None else Some(DigitsValue(s[..k]))
  }

  /** `parseInt(s, 10)`: skip leading whitespace, read an optional sign, then the
      longest run of decimal digits, ignoring whatever follows; NaN (None) when no
      digit comes first. */
  function ParseInt(s: string): Option<int> {
    var t := TrimStart(s);
    if t != [] && t[0] == '-' then
      match ParseDigits(t[1..])
      case Some(v) => Some(-v)
      case None => None
    else if t != [] && t[0] == '+' then ParseDigits(t[1..])
    else ParseDigits(t)
  }

  lemma {:induction false} NatToStringValue(n: nat)
    ensures DigitsValue(NatToString(n)) == n
  {
    var s := NatToString(n);
    if n >= 10 {
      NatToStringValue(n / 10);
      assert s[..|s| - 1] == NatToString(n / 10);
    }
  }

  lemma {:induction false} DigitRunOfNumeral(u: string, rest: string)
    requires AllDigits(u)
    requires rest == [] || !IsDigit(rest[0])
    ensures DigitRun(u + rest) == |u|
  {
    if u == [] {
      assert u + rest == rest;
    } else {
      DigitRunOfNumeral(u[1..], rest);
      assert (u + rest)[1..] == u[1..] + rest;
    }
  }

  lemma ParseNumeral(n: nat, rest: string)
    requires rest == [] || !IsDigit(rest[0])
    ensures ParseDigits(NatToString(n) + rest) == Some(n)
  {
    var u := NatToString(n);
    DigitRunOfNumeral(u, rest);
    assert (u + rest)[..|u|] == u;
    NatToStringValue(n);
  }

  /** A numeral with its sign starts with no whitespace, so parseInt reads it as is. */
  lemma NumeralNotTrimmed(n: int, rest: string)
    ensures TrimStart(IntToString(n) + rest) == IntToString(n) + rest
  {
    var s := IntToString(n) + rest;
    assert s[0] == IntToString(n)[0];
    assert !IsWhitespace(s[0]);
  }

  /** parseInt reads back what toString wrote, even when other text follows
      (as in "7.5" or "12abc"), so `parseInt(String(n))` is n. */
  lemma ParseIntOfToString(n: int, rest: string)
    requires rest == [] || !IsDigit(rest[0])
    ensures ParseInt(IntToString(n) + rest) == Some(n)
  {
    var s := IntToString(n) + rest;
    NumeralNotTrimmed(n, rest);
    if n < 0 {
      assert s == "-" + (NatToString(-n) + rest);
      assert s[1..] == NatToString(-n) + rest;
      ParseNumeral(-n, rest);
    } else {
      assert s[0] == NatToString(n)[0];
      ParseNumeral(n, rest);
    }
  }

  /** toString is injective: equal numerals mean equal numbers. */
  lemma IntToStringInjective(a: int, b: int)
    requires IntToString(a) == IntToString(b)
    ensures a == b
  {
    ParseIntOfToString(a, []);
    ParseIntOfToString(b, []);
    assert IntToString(a) + [] == IntToString(a);
    assert IntToString(b) + [] == IntToString(b);
  }
}
