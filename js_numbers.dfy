/** The two number/text conversions the error normaliser relies on:
    `Number.prototype.toString()` on an integer and the global `parseInt`
    with no radix argument. Numbers are integers here; the rounding of
    values beyond 2^53 is not modelled. */
module JsNumbers {
  import opened Wrappers

  /** The character of a decimal digit. */
  function DigitChar(d: nat): (c: char)
    requires d < 10
    ensures '0' <= c <= '9'
  {
    (48 + d) as char
  }

  /** The decimal rendering of a natural number, without leading zeros. */
  function NatToDigits(n: nat): (s: string)
    decreases n
  {
    if n < 10 then [DigitChar(n)] else NatToDigits(n / 10) + [DigitChar(n % 10)]
  }

  /** `String(n)` for an integer `n`: an optional minus sign followed by the
      decimal digits of its magnitude. */
  function IntToString(n: int): (s: string)
  {
    if n < 0 then "-" + NatToDigits(-n) else NatToDigits(n)
  }

  /** The characters `parseInt` skips at the start of its argument: the
      ECMAScript WhiteSpace and LineTerminator code points (TAB, VT, FF,
      SPACE, NBSP, ZWNBSP, the other Zs space separators, LF, CR, LS, PS). */
  predicate IsJsWhitespace(c: char)
  {
    var k := c as int;
    k == 0x09 || k == 0x0A || k == 0x0B || k == 0x0C || k == 0x0D || k == 0x20
    || k == 0xA0 || k == 0x1680 || (0x2000 <= k <= 0x200A) || k == 0x2028
    || k == 0x2029 || k == 0x202F || k == 0x205F || k == 0x3000 || k == 0xFEFF
  }

  /** The value of `c` as a digit of the given radix (10 or 16), or -1. */
  function DigitValue(c: char, radix: nat): (v: int)
    ensures v == -1 || 0 <= v < radix
  {
    var d :=
      if '0' <= c <= '9' then c as int - 48
      else if 'a' <= c <= 'f' then c as int - 87
      else if 'A' <= c <= 'F' then c as int - 55
      else -1;
    if d < radix then d else -1
  }

  predicate IsDigitIn(c: char, radix: nat)
  {
    0 <= DigitValue(c, radix)
  }

  /** The text after the leading whitespace. */
  function TrimStart(s: string): (t: string)
    ensures |t| <= |s| && t == s[|s| - |t|..]
    ensures t == [] || !IsJsWhitespace(t[0])
  {
    if s != [] && IsJsWhitespace(s[0]) then TrimStart(s[1..]) else s
  }

  /** The longest prefix of `s` made of digits of the radix. */
  function DigitPrefix(s: string, radix: nat): (p: string)
    ensures |p| <= |s| && p == s[..|p|]
    ensures forall i :: 0 <= i < |p| ==> IsDigitIn(p[i], radix)
    ensures |p| < |s| ==> !IsDigitIn(s[|p|], radix)
  {
    if s == [] || !IsDigitIn(s[0], radix) then "" else [s[0]] + DigitPrefix(s[1..], radix)
  }

  /** The value of a digit string in the radix, most significant digit first. */
  function DigitsValue(s: string, radix: nat): nat
    requires forall i :: 0 <= i < |s| ==> IsDigitIn(s[i], radix)
  {
    if s == [] then 0
    else
      assert IsDigitIn(s[|s| - 1], radix);
      var high := DigitsValue(s[..|s| - 1], radix);
      assert high * radix >= 0;
      high * radix + DigitValue(s[|s| - 1], radix)
  }

  /** `parseInt(text)` with no radix: skip leading whitespace, take one
      optional sign, read hexadecimal after a `0x`/`0X` prefix and decimal
      otherwise, and stop at the first character that is not a digit.
      `None` is `NaN` (no digit at all). */
  function ParseInt(text: string): (r: Option<int>)
  {
    var s := TrimStart(text);
    var negative := |s| > 0 && s[0] == '-';
    var unsigned := if |s| > 0 && (s[0] == '-' || s[0] == '+') then s[1..] else s;
    var hex := |unsigned| >= 2 && unsigned[0] == '0' && (unsigned[1] == 'x' || unsigned[1] == 'X');
    var radix := if hex then 16 else 10;
    var digits := DigitPrefix(if hex then unsigned[2..] else unsigned, radix);
    if digits == "" then None
    else
      var m: int := DigitsValue(digits, radix);
      Some(if negative then -m else m)
  }

  /** The rendering of a natural number is a non-empty string of decimal
      digits whose first digit is '0' only for zero itself. */
  lemma {:induction false} NatToDigitsShape(n: nat)
    ensures |NatToDigits(n)| >= 1
    ensures forall i :: 0 <= i < |NatToDigits(n)| ==> '0' <= NatToDigits(n)[i] <= '9'
    ensures NatToDigits(n)[0] == '0' <==> n == 0
    ensures n == 0 ==> NatToDigits(n) == "0"
  {
    if n >= 10 {
      NatToDigitsShape(n / 10);
      var s := NatToDigits(n / 10);
      assert NatToDigits(n) == s + [DigitChar(n % 10)];
      assert NatToDigits(n)[0] == s[0];
    }
  }

  /** Reading back the digits of a natural number gives the number. */
  lemma {:induction false} DigitsValueOfNatToDigits(n: nat)
    ensures forall i :: 0 <= i < |NatToDigits(n)| ==> IsDigitIn(NatToDigits(n)[i], 10)
    ensures DigitsValue(NatToDigits(n), 10) == n
  {
    NatToDigitsShape(n);
    var s := NatToDigits(n);
    assert forall i :: 0 <= i < |s| ==> IsDigitIn(s[i], 10);
    if n >= 10 {
      DigitsValueOfNatToDigits(n / 10);
      assert s[..|s| - 1] == NatToDigits(n / 10);
    }
  }

  /** A whole string of digits is its own longest digit prefix. */
  lemma DigitPrefixOfDigits(s: string, radix: nat)
    requires forall i :: 0 <= i < |s| ==> IsDigitIn(s[i], radix)
    ensures DigitPrefix(s, radix) == s
  {
  }

  /** `parseInt(String(n)) === n` for every integer `n`: the canonical
      decimal rendering reads back exactly. */
  lemma {:induction false} ParseIntOfIntToString(n: int)
    ensures ParseInt(IntToString(n)) == Some(n)
  {
    var m: nat := if n < 0 then -n else n;
    var digits := NatToDigits(m);
    NatToDigitsShape(m);
    DigitsValueOfNatToDigits(m);
    DigitPrefixOfDigits(digits, 10);
    var s := IntToString(n);
    assert s == if n < 0 then "-" + digits else digits;
    assert s[0] == '-' || '0' <= s[0] <= '9' by {
      if n >= 0 { assert s[0] == digits[0]; }
    }
    assert !IsJsWhitespace(s[0]);
    assert TrimStart(s) == s;
    ParseIntOfUnpadded(s, n < 0, digits);
  }

  /** `parseInt` on an optional minus sign followed by decimal digits with no
      leading zero (besides "0" itself) reads exactly those digits. */
  lemma ParseIntOfUnpadded(s: string, negative: bool, digits: string)
    requires s == if negative then "-" + digits else digits
    requires TrimStart(s) == s
    requires digits != "" && (digits[0] == '0' ==> |digits| == 1)
    requires forall i :: 0 <= i < |digits| ==> IsDigitIn(digits[i], 10)
    requires DigitPrefix(digits, 10) == digits
    ensures ParseInt(s) == Some(if negative then -(DigitsValue(digits, 10) as int) else DigitsValue(digits, 10))
  {
  }

  /** `parseInt` on a non-empty string of decimal digits reads all of them,
      leading zeros included. */
  lemma {:induction false} ParseIntOfDigits(s: string)
    requires |s| > 0 && forall i :: 0 <= i < |s| ==> IsDigitIn(s[i], 10)
    ensures ParseInt(s) == Some(DigitsValue(s, 10))
  {
    assert IsDigitIn(s[0], 10);
    assert s[0] != '-' && s[0] != '+' && !IsJsWhitespace(s[0]);
    assert TrimStart(s) == s;
    if |s| >= 2 {
      assert IsDigitIn(s[1], 10);
      assert s[1] != 'x' && s[1] != 'X';
    }
    DigitPrefixOfDigits(s, 10);
  }

  /** `parseInt` is NaN on text whose first character is neither whitespace,
      a sign nor a decimal digit. */
  lemma ParseIntOfNonNumeric(s: string)
    requires |s| > 0 && !IsJsWhitespace(s[0]) && s[0] != '-' && s[0] != '+' && !IsDigitIn(s[0], 10)
    ensures ParseInt(s).None?
  {
  }

  /** Every integer renders as non-empty text. */
  lemma IntToStringNonEmpty(n: int)
    ensures IntToString(n) != ""
  {
    NatToDigitsShape(if n < 0 then -n else n);
  }
}
