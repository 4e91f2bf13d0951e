/** The parts of JavaScript's string semantics the core relies on: the `\s` character
    class, `String(n)` for integers, `parseInt`, and `split(sep)[0]`. Strings are
    sequences of characters; JavaScript counts UTF-16 code units instead. */
module JsString {
  import opened Wrappers

  /** The characters of JavaScript's `\s` class, which are also the white space
      `parseInt` skips: the ASCII spaces, the line terminators and the Unicode
      space separators. */
  predicate IsWhitespace(c: char) {
    c == '\t' || c == '\n' || c == '\U{B}' || c == '\U{C}' || c == '\r' || c == ' ' ||
    c == '\U{A0}' || c == '\U{1680}' || ('\U{2000}' <= c <= '\U{200A}') ||
    c == '\U{2028}' || c == '\U{2029}' || c == '\U{202F}' || c == '\U{205F}' ||
    c == '\U{3000}' || c == '\U{FEFF}'
  }

  predicate IsDecimalDigit(c: char) {
    '0' <= c <= '9'
  }

  /** The text before the first `sep`, that is `s.split(sep)[0]`. */
  function FirstField(s: string, sep: char): (r: string)
    ensures r <= s && sep !in r
    ensures |r| < |s| ==> s[|r|] == sep
  {
    if s == [] || s[0] == sep then [] else [s[0]] + FirstField(s[1..], sep)
  }

  function DigitChar(d: nat): (c: char)
    requires d < 10
    ensures IsDecimalDigit(c)
  {
    "0123456789"[d]
  }

  /** `String(n)` for a natural number: its decimal digits, most significant first,
      without leading zeros. */
  function NatToString(n: nat): (s: string)
    ensures s != [] && forall i :: 0 <= i < |s| ==> IsDecimalDigit(s[i])
    ensures s[0] == '0' ==> s == "0"
  {
    if n < 10 then [DigitChar(n)] else NatToString(n / 10) + [DigitChar(n % 10)]
  }

  /** `String(i)` for an integer. */
  function IntToString(i: int): (s: string)
    ensures s != []
    ensures i < 0 <==> s[0] == '-'
  {
    if i < 0 then "-" + NatToString(-i) else NatToString(i)
  }

  /** The value of a digit in radix 36 (so 36 for a character that is no digit). */
  function DigitValue(c: char): (v: nat)
    ensures v <= 36
  {
    if '0' <= c <= '9' then c as int - '0' as int
    else if 'a' <= c <= 'z' then c as int - 'a' as int + 10
    else if 'A' <= c <= 'Z' then c as int - 'A' as int + 10
    else 36
  }

  function SkipWhitespace(s: string): string {
    if s != [] && IsWhitespace(s[0]) then SkipWhitespace(s[1..]) else s
  }

  /** The longest prefix of `s` made of digits of the given radix. */
  function DigitPrefix(s: string, radix: nat): string {
    if s != [] && DigitValue(s[0]) < radix then [s[0]] + DigitPrefix(s[1..], radix) else []
  }

  /** The value of a digit string in the given radix. */
  function ValueOf(ds: string, radix: nat): nat {
    if ds == [] then 0 else ValueOf(ds[..|ds| - 1], radix) * radix + DigitValue(ds[|ds| - 1])
  }

  /** `parseInt(s)` without a radix argument: skip leading white space, take an
      optional sign, read a hexadecimal number after `0x`/`0X` and a decimal one
      otherwise, stop at the first character that is not a digit; `None` is NaN. */
  function ParseInt(s: string): Option<int> {
    var t := SkipWhitespace(s);
    var negative := t != [] && t[0] == '-';
    var u := if t != [] && (t[0] == '-' || t[0] == '+') then t[1..] else t;
    var hex := |u| >= 2 && u[0] == '0' && (u[1] == 'x' || u[1] == 'X');
    var radix := if hex then 16 else 10;
    var ds := DigitPrefix(if hex then u[2..] else u, radix);
    var v: int := ValueOf(ds, radix);
    if ds == [] then None else Some(if negative then -v else v)
  }

  lemma {:induction false} DigitPrefixOfDigits(s: string, radix: nat)
    requires forall i :: 0 <= i < |s| ==> DigitValue(s[i]) < radix
    ensures DigitPrefix(s, radix) == s
  {
    if s != [] {
      DigitPrefixOfDigits(s[1..], radix);
    }
  }

  lemma {:induction false} ValueOfNatToString(n: nat)
    ensures ValueOf(NatToString(n), 10) == n
  {
    if n >= 10 {
      var s := NatToString(n);
      assert s[..|s| - 1] == NatToString(n / 10);
      ValueOfNatToString(n / 10);
    }
  }

  /** Reading back a number the program wrote: `parseInt(String(i)) === i`. */
  lemma ParseIntOfIntToString(i: int)
    ensures ParseInt(IntToString(i)) == Some(i)
  {
    var s := IntToString(i);
    var n: nat := if i < 0 then -i else i;
    var digits := NatToString(n);
    assert !IsWhitespace(s[0]);
    assert SkipWhitespace(s) == s;
    assert (if s[0] == '-' || s[0] == '+' then s[1..] else s) == digits;
    assert !(|digits| >= 2 && digits[0] == '0');
    DigitPrefixOfDigits(digits, 10);
    ValueOfNatToString(n);
  }

  lemma {:induction false} DigitPrefixStops(ds: string, rest: string, radix: nat)
    requires forall i :: 0 <= i < |ds| ==> DigitValue(ds[i]) < radix
    requires rest == [] || DigitValue(rest[0]) >= radix
    ensures DigitPrefix(ds + rest, radix) == ds
  {
    if ds == [] {
      assert ds + rest == rest;
    } else {
      assert (ds + rest)[1..] == ds[1..] + rest;
      DigitPrefixStops(ds[1..], rest, radix);
    }
  }

  /** `parseInt` of a text that starts with a decimal digit and no hexadecimal marker. */
  lemma ParseIntUnsigned(s: string)
    requires s != [] && IsDecimalDigit(s[0])
    requires !(|s| >= 2 && s[0] == '0' && (s[1] == 'x' || s[1] == 'X'))
    ensures ParseInt(s) == Some(ValueOf(DigitPrefix(s, 10), 10))
  {
    assert !IsWhitespace(s[0]);
    assert SkipWhitespace(s) == s;
    assert !(s[0] == '-' || s[0] == '+');
    assert DigitValue(s[0]) < 10;
    assert DigitPrefix(s, 10) != [];
  }

  /** `parseInt` reads the number at the head of a text and ignores what follows
      once a character that is no digit (and no hexadecimal marker) stops it. */
  lemma ParseIntOfLeadingNumber(n: nat, rest: string)
    requires rest == [] || (DigitValue(rest[0]) >= 10 && rest[0] != 'x' && rest[0] != 'X')
    ensures ParseInt(NatToString(n) + rest) == Some(n)
  {
    var digits := NatToString(n);
    var s := digits + rest;
    assert s[0] == digits[0];
    if |s| >= 2 && s[0] == '0' {
      assert |digits| == 1;
      assert s[1] == rest[0];
    }
    ParseIntUnsigned(s);
    assert forall i :: 0 <= i < |digits| ==> DigitValue(digits[i]) < 10;
    DigitPrefixStops(digits, rest, 10);
    ValueOfNatToString(n);
  }
}
