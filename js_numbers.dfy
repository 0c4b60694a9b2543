/**
 * The JavaScript built-in `parseInt(string)` with no radix, as the incident
 * form applies it to the "affected people" field: leading white space is
 * skipped, one sign is read, a `0x`/`0X` prefix switches to base 16, and the
 * longest run of digits that follows is read; no digit gives `NaN`.
 */
module JsNumbers {
  import opened Types

  /** White space and line terminators as the language defines them (the `StrWhiteSpaceChar` set). */
  predicate IsWhiteSpace(c: char)
  {
    || c == ' ' || c == '\t' || c == '\n' || c == '\r' || c == '\U{B}' || c == '\U{C}'
    || c == '\U{A0}' || c == '\U{1680}' || ('\U{2000}' <= c <= '\U{200A}')
    || c == '\U{2028}' || c == '\U{2029}' || c == '\U{202F}' || c == '\U{205F}'
    || c == '\U{3000}' || c == '\U{FEFF}'
  }

  /** The value of `c` as a digit in base `radix` (10 or 16), or -1. */
  function DigitValue(c: char, radix: int): (d: int)
    requires radix == 10 || radix == 16
    ensures -1 <= d < radix
  {
    if '0' <= c <= '9' then c as int - '0' as int
    else if radix == 16 && 'a' <= c <= 'f' then c as int - 'a' as int + 10
    else if radix == 16 && 'A' <= c <= 'F' then c as int - 'A' as int + 10
    else -1
  }

  /** The longest prefix of `s` made of digits of `radix`. */
  function DigitPrefix(s: string, radix: int): (p: string)
    requires radix == 10 || radix == 16
    ensures |p| <= |s| && p == s[..|p|]
    ensures forall i :: 0 <= i < |p| ==> DigitValue(p[i], radix) >= 0
    ensures |p| < |s| ==> DigitValue(s[|p|], radix) < 0
  {
    if s == [] || DigitValue(s[0], radix) < 0 then ""
    else [s[0]] + DigitPrefix(s[1..], radix)
  }

  /** The value of a run of digits, most significant first. */
  function DigitsValue(p: string, radix: int): (v: nat)
    requires radix == 10 || radix == 16
    requires forall i :: 0 <= i < |p| ==> DigitValue(p[i], radix) >= 0
  {
    if p == [] then 0
    else DigitsValue(p[..|p| - 1], radix) * radix + DigitValue(p[|p| - 1], radix)
  }

  function SkipWhiteSpace(s: string): (t: string)
    ensures |t| <= |s| && t == s[|s| - |t|..]
    ensures t == [] || !IsWhiteSpace(t[0])
  {
    if s != [] && IsWhiteSpace(s[0]) then SkipWhiteSpace(s[1..]) else s
  }

  /** Reads the longest run of digits of `radix`; `NaN` when there is none. */
  function ParseDigits(s: string, radix: int): (r: ParsedNumber)
    requires radix == 10 || radix == 16
    ensures r == NaN <==> s == [] || DigitValue(s[0], radix) < 0
  {
    var p := DigitPrefix(s, radix);
    if p == [] then NaN else Number(DigitsValue(p, radix))
  }

  /** After the sign: a `0x`/`0X` prefix selects base 16, otherwise base 10. */
  function ParseUnsigned(u: string): ParsedNumber
  {
    if |u| >= 2 && u[0] == '0' && (u[1] == 'x' || u[1] == 'X') then ParseDigits(u[2..], 16)
    else ParseDigits(u, 10)
  }

  function Negate(r: ParsedNumber): ParsedNumber
  {
    match r
    case Number(v) => Number(-v)
    case NaN => NaN
  }

  /** One leading `-` negates the number and one leading `+` is dropped. */
  function ParseSigned(t: string): ParsedNumber
  {
    if t != [] && t[0] == '-' then Negate(ParseUnsigned(t[1..]))
    else if t != [] && t[0] == '+' then ParseUnsigned(t[1..])
    else ParseUnsigned(t)
  }

  /** `parseInt(s)`. A negative zero is reported as 0. */
  function ParseInt(s: string): ParsedNumber
  {
    ParseSigned(SkipWhiteSpace(s))
  }

  /** The decimal numeral of `n`, as `String(n)` writes it. */
  function DecimalString(n: nat): (s: string)
    ensures |s| > 0
    ensures forall i :: 0 <= i < |s| ==> '0' <= s[i] <= '9'
  {
    if n < 10 then [('0' as int + n) as char]
    else DecimalString(n / 10) + [('0' as int + n % 10) as char]
  }

  lemma {:induction false} DecimalStringValue(n: nat)
    ensures DigitsValue(DecimalString(n), 10) == n
  {
    var s := DecimalString(n);
    if n >= 10 {
      DecimalStringValue(n / 10);
      assert s[..|s| - 1] == DecimalString(n / 10);
    }
  }

  lemma {:induction false} DigitPrefixOfDigits(s: string)
    requires forall i :: 0 <= i < |s| ==> '0' <= s[i] <= '9'
    ensures DigitPrefix(s, 10) == s
  {
    if s != [] {
      DigitPrefixOfDigits(s[1..]);
    }
  }

  /** Leading white space is all that `parseInt` skips. */
  lemma SkipNothing(s: string)
    requires s != [] && !IsWhiteSpace(s[0])
    ensures ParseInt(s) == ParseSigned(s)
  {
  }

  /** A decimal numeral is read whole, in base 10. */
  lemma {:induction false} UnsignedDecimal(n: nat)
    ensures ParseUnsigned(DecimalString(n)) == Number(n)
  {
    var d := DecimalString(n);
    assert ParseUnsigned(d) == ParseDigits(d, 10) by {
      if |d| >= 2 { assert d[1] != 'x' && d[1] != 'X'; }
    }
    DecimalStringValue(n);
    DigitPrefixOfDigits(d);
  }

  /** Parsing the decimal numeral of a natural number gives that number back. */
  lemma ParseIntDecimal(n: nat)
    ensures ParseInt(DecimalString(n)) == Number(n)
  {
    var d := DecimalString(n);
    var c := d[0];
    assert '0' <= c <= '9';
    assert !IsWhiteSpace(c) && c != '-' && c != '+';
    SkipNothing(d);
    UnsignedDecimal(n);
  }

  /** A minus sign in front of a decimal numeral gives the negative number. */
  lemma ParseIntNegativeDecimal(n: nat)
    ensures ParseInt("-" + DecimalString(n)) == Number(-(n as int))
  {
    var d := DecimalString(n);
    var s := "-" + d;
    SkipNothing(s);
    UnsignedDecimal(n);
    assert s[1..] == d;
    assert ParseSigned(s) == Negate(ParseUnsigned(d));
  }

  /** Empty text and text without a digit parse to `NaN`, as does a bare `0x`. */
  lemma ParseIntNoDigits()
    ensures ParseInt("") == NaN
    ensures ParseInt("abc") == NaN
    ensures ParseInt("0x") == NaN
  {
    SkipNothing("abc");
    SkipNothing("0x");
    assert "0x"[2..] == "";
  }

  /** Parsing stops at the first character that is not a digit of the base. */
  lemma ParseIntStopsAtNonDigit()
    ensures ParseInt("1.9") == Number(1)
  {
    SkipNothing("1.9");
    assert DigitPrefix("1.9", 10) == "1" by {
      assert DigitPrefix(".9", 10) == "";
    }
  }

  /** A `0x` prefix reads the rest in base 16. */
  lemma ParseIntHex()
    ensures ParseInt("0x1A") == Number(26)
  {
    SkipNothing("0x1A");
    assert "0x1A"[2..] == "1A";
    assert DigitPrefix("1A", 16) == "1A" by {
      assert DigitPrefix("A", 16) == "A" by { assert DigitPrefix("", 16) == ""; }
    }
    assert DigitsValue("1A", 16) == 26 by {
      assert "1A"[..1] == "1";
      assert DigitsValue("1", 16) == 1 by { assert "1"[..0] == ""; }
    }
  }
}
