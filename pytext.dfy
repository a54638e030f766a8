/**
 * The two Python 2 conversions the mapper relies on: `str(v)` applied to every value
 * written into an entity (a `unicode` value is first encoded as UTF-8), and `int(s)`
 * applied to the port of every configured server. Byte strings are `string`s whose
 * characters are all below 256.
 */
module PyText {
  import opened Common

  /** A value a caller may store into an entity. */
  datatype PyValue =
    | Bytes(bytes: string)    // a Python 2 `str`
    | Unicode(text: string)   // a Python 2 `unicode`
    | Int(i: int)
    | Bool(b: bool)
    | NoneValue

  predicate IsByteString(s: string) {
    forall i :: 0 <= i < |s| ==> s[i] as int < 256
  }

  predicate IsAscii(s: string) {
    forall i :: 0 <= i < |s| ==> s[i] as int < 128
  }

  predicate IsDigit(c: char) {
    '0' <= c <= '9'
  }

  predicate AllDigits(s: string) {
    forall i :: 0 <= i < |s| ==> IsDigit(s[i])
  }

  /** The UTF-8 encoding of one code point, as bytes. */
  function EncodeChar(c: char): (r: string)
    ensures 1 <= |r| <= 4 && IsByteString(r)
    ensures (c as int < 128) == (|r| == 1)
    ensures c as int < 128 ==> r == [c]
  {
    var cp := c as int;
    if cp < 0x80 then [c]
    else if cp < 0x800 then
      [(0xC0 + cp / 64) as char, (0x80 + cp % 64) as char]
    else if cp < 0x1_0000 then
      [(0xE0 + cp / 4096) as char, (0x80 + (cp / 64) % 64) as char, (0x80 + cp % 64) as char]
    else
      [(0xF0 + cp / 262144) as char, (0x80 + (cp / 4096) % 64) as char,
       (0x80 + (cp / 64) % 64) as char, (0x80 + cp % 64) as char]
  }

  /** `text.encode('utf-8')`. */
  function Utf8(text: string): (r: string)
    ensures IsByteString(r)
  {
    if text == [] then [] else EncodeChar(text[0]) + Utf8(text[1..])
  }

  /** The decimal digits of a natural number, most significant first. */
  function Digits(n: nat): (r: string)
    ensures |r| >= 1 && AllDigits(r)
    decreases n
  {
    var d := ['0' + (n % 10) as char];
    if n < 10 then d else Digits(n / 10) + d
  }

  /** `str(i)` for an integer. */
  function Decimal(i: int): string {
    if i < 0 then "-" + Digits(-i) else Digits(i)
  }

  /** `str(value)` after the `unicode` check of `ColumnFamily.__setitem__`. */
  function Str(v: PyValue): (r: string)
    ensures v.Bytes? ==> r == v.bytes
    ensures v.Unicode? ==> IsByteString(r)
  {
    match v
    case Bytes(b) => b
    case Unicode(t) => Utf8(t)
    case Int(i) => Decimal(i)
    case Bool(b) => if b then "True" else "False"
    case NoneValue => "None"
  }

  /** The value of a non-empty run of decimal digits. */
  function DigitsValue(s: string): nat
    requires AllDigits(s)
  {
    if s == [] then 0 else assert IsDigit(s[|s| - 1]); DigitsValue(s[..|s| - 1]) * 10 + (s[|s| - 1] as int - '0' as int)
  }

  predicate IsSpace(c: char) {
    c == ' ' || c == '\t' || c == '\n' || c == '\r' || c == '\U{0B}' || c == '\U{0C}'
  }

  function StripLeft(s: string): (r: string)
    ensures |r| <= |s|
    ensures r == [] || !IsSpace(r[0])
  {
    if s != [] && IsSpace(s[0]) then StripLeft(s[1..]) else s
  }

  function StripRight(s: string): (r: string)
    ensures |r| <= |s|
    ensures r == [] || !IsSpace(r[|r| - 1])
  {
    if s != [] && IsSpace(s[|s| - 1]) then StripRight(s[..|s| - 1]) else s
  }

  /**
   * `int(s)` on a string: surrounding blanks, an optional sign, any blanks after the
   * sign, then one or more decimal digits.
   */
  function ParseInt(s: string): Option<int> {
    ParseSigned(StripRight(StripLeft(s)))
  }

  /** An optional sign, any blanks after it, then the digits. */
  function ParseSigned(t: string): Option<int> {
    if t != [] && (t[0] == '-' || t[0] == '+') then
      match ParseDigits(StripLeft(t[1..]))
      case Some(v) => Some(if t[0] == '-' then -v else v)
      case None => None
    else ParseDigits(t)
  }

  /** One or more decimal digits and nothing else. */
  function ParseDigits(u: string): Option<int> {
    if u != [] && AllDigits(u) then Some(DigitsValue(u)) else None
  }

  /** Blanks in front of text that does not start with one are all stripped. */
  lemma {:induction false} StripBlanks(blanks: string, s: string)
    requires forall i :: 0 <= i < |blanks| ==> IsSpace(blanks[i])
    requires s == [] || !IsSpace(s[0])
    ensures StripLeft(blanks + s) == s
  {
    if blanks == [] {
      assert blanks + s == s;
    } else {
      assert (blanks + s)[1..] == blanks[1..] + s;
      StripBlanks(blanks[1..], s);
    }
  }

  /** Text that neither starts nor ends with a blank has nothing to strip. */
  lemma Unstripped(t: string)
    requires t != [] && !IsSpace(t[0]) && !IsSpace(t[|t| - 1])
    ensures StripRight(StripLeft(t)) == t
  {
    assert StripLeft(t) == t;
  }

  /** Blanks between the sign and the digits are skipped: `int('- 9160') == -9160`. */
  lemma ParseSignBlanks(sign: char, blanks: string, s: string)
    requires sign == '-' || sign == '+'
    requires forall i :: 0 <= i < |blanks| ==> IsSpace(blanks[i])
    requires s != [] && AllDigits(s)
    ensures ParseInt([sign] + blanks + s) == Some(if sign == '-' then -(DigitsValue(s) as int) else DigitsValue(s))
  {
    var m := [sign] + blanks + s;
    assert IsDigit(s[0]) && IsDigit(s[|s| - 1]);
    assert m[0] == sign && m[1..] == blanks + s && m[|m| - 1] == s[|s| - 1];
    Unstripped(m);
    StripBlanks(blanks, s);
  }

  lemma {:induction false} DigitsValueOfDigits(n: nat)
    ensures DigitsValue(Digits(n)) == n
    decreases n
  {
    var d := ['0' + (n % 10) as char];
    if n >= 10 {
      DigitsValueOfDigits(n / 10);
      var s := Digits(n / 10) + d;
      assert s[..|s| - 1] == Digits(n / 10);
    }
  }

  /** The decimal rendering of an integer has no surrounding blanks to strip. */
  lemma DecimalUnstripped(i: int)
    ensures StripRight(StripLeft(Decimal(i))) == Decimal(i)
  {
    var s := Decimal(i);
    var d := if i < 0 then Digits(-i) else Digits(i);
    assert s[0] == '-' || s[0] == d[0];
    assert s[|s| - 1] == d[|d| - 1];
    assert !IsSpace(s[0]);
    assert StripLeft(s) == s;
    assert !IsSpace(s[|s| - 1]);
  }

  /** Digits with nothing to strip parse to their value. */
  lemma ParseUnsigned(s: string)
    requires s != [] && AllDigits(s)
    requires StripRight(StripLeft(s)) == s
    ensures ParseInt(s) == Some(DigitsValue(s))
  {
    assert IsDigit(s[0]);
  }

  /** A minus sign before digits, with nothing to strip, parses to the negated value. */
  lemma ParseMinus(s: string)
    requires s != [] && AllDigits(s)
    requires StripRight(StripLeft("-" + s)) == "-" + s
    ensures ParseInt("-" + s) == Some(-(DigitsValue(s) as int))
  {
    assert ("-" + s)[1..] == s;
    assert IsDigit(s[0]);
    assert StripLeft(s) == s;
  }

  /** The rendering of a natural number is its digits, which parse to their value. */
  lemma ParseNatural(i: int)
    requires i >= 0
    ensures ParseInt(Decimal(i)) == Some(i)
  {
    DecimalUnstripped(i);
    ParseUnsigned(Digits(i));
    DigitsValueOfDigits(i);
  }

  /** The rendering of a negative number is a minus sign before the digits of its magnitude. */
  lemma ParseNegative(i: int)
    requires i < 0
    ensures ParseInt(Decimal(i)) == Some(i)
  {
    DecimalUnstripped(i);
    ParseMinus(Digits(-i));
    DigitsValueOfDigits(-i);
  }

  /** `int(str(i)) == i`: the decimal rendering of an integer parses back to it. */
  lemma DecimalRoundTrip(i: int)
    ensures ParseInt(Decimal(i)) == Some(i)
  {
    if i >= 0 {
      ParseNatural(i);
    } else {
      ParseNegative(i);
    }
  }

  /** UTF-8 leaves ASCII text unchanged, so `str(u'...')` of ASCII text is the same text. */
  lemma {:induction false} Utf8OfAscii(text: string)
    requires IsAscii(text)
    ensures Utf8(text) == text
  {
    if text != [] {
      Utf8OfAscii(text[1..]);
    }
  }

  /** Each character becomes between one and four bytes. */
  lemma {:induction false} Utf8Length(text: string)
    ensures |text| <= |Utf8(text)| <= 4 * |text|
  {
    if text != [] {
      Utf8Length(text[1..]);
    }
  }
}
