/** The JavaScript string built-ins the app leans on, stated over `string`
    (a sequence of characters): ASCII case folding as a case-insensitive
    regular expression uses it, `s.split(c)[0]`, the decimal text of an
    integer (template-literal interpolation) and `parseInt` without a radix. */
module Text {
  import opened Wrappers

  // ---------------------------------------------------------------------
  // Case-insensitive search, as `/pattern/i.test(s)` for an ASCII pattern.
  // Without the `u` flag a regular expression folds case through
  // upper-casing and never maps a non-ASCII character onto an ASCII one,
  // so for an ASCII pattern ASCII folding is the whole story.
  // ---------------------------------------------------------------------

  function LowerAscii(c: char): (r: char)
    ensures 'A' <= c <= 'Z' ==> r as int == c as int + 32
    ensures !('A' <= c <= 'Z') ==> r == c
  {
    if 'A' <= c <= 'Z' then (c as int + 32) as char else c
  }

  /** `pattern` occurs at offset `i` of `s`, ignoring ASCII case. */
  predicate MatchesAt(s: string, i: nat, pattern: string)
    requires i + |pattern| <= |s|
  {
    forall j :: 0 <= j < |pattern| ==> LowerAscii(s[i + j]) == LowerAscii(pattern[j])
  }

  /** Shifting the text by one character shifts every match by one. */
  lemma MatchesShift(s: string, pattern: string)
    requires |s| >= 1
    ensures forall i :: 1 <= i && i + |pattern| <= |s| ==>
      (MatchesAt(s, i, pattern) <==> MatchesAt(s[1..], i - 1, pattern))
  {
    forall i | 1 <= i && i + |pattern| <= |s|
      ensures MatchesAt(s, i, pattern) <==> MatchesAt(s[1..], i - 1, pattern)
    {
      assert s[1..][i - 1..] == s[i..];
    }
  }

  /** `/pattern/i.test(s)`: some offset of `s` matches `pattern`. */
  function ContainsIgnoringCase(s: string, pattern: string): (r: bool)
    ensures r <==> exists i :: 0 <= i && i + |pattern| <= |s| && MatchesAt(s, i, pattern)
    decreases |s|
  {
    if |s| < |pattern| then false
    else if MatchesAt(s, 0, pattern) then true
    else
      MatchesShift(s, pattern);
      var rest := ContainsIgnoringCase(s[1..], pattern);
      assert rest ==> exists i :: 1 <= i && i + |pattern| <= |s| && MatchesAt(s, i, pattern) by {
        if rest {
          var i :| 0 <= i && i + |pattern| <= |s| - 1 && MatchesAt(s[1..], i, pattern);
          assert MatchesAt(s, i + 1, pattern);
        }
      }
      rest
  }

  // ---------------------------------------------------------------------
  // `s.split(c)[0]`: the text before the first occurrence of `c`.
  // ---------------------------------------------------------------------

  function BeforeFirst(s: string, c: char): (r: string)
    ensures r <= s
    ensures c !in r
    ensures |r| < |s| ==> s[|r|] == c
  {
    if s == [] then []
    else if s[0] == c then []
    else [s[0]] + BeforeFirst(s[1..], c)
  }

  // ---------------------------------------------------------------------
  // Decimal text of an integer, as `${n}` renders it.
  // ---------------------------------------------------------------------

  predicate IsDecimalDigit(c: char) {
    '0' <= c <= '9'
  }

  function DigitChar(d: nat): (c: char)
    requires d < 10
    ensures IsDecimalDigit(c) && c as int - '0' as int == d
  {
    ('0' as int + d) as char
  }

  function NatToDecimal(n: nat): (r: string)
    ensures |r| >= 1
    ensures forall k :: 0 <= k < |r| ==> IsDecimalDigit(r[k])
    ensures r[0] == '0' ==> n == 0
  {
    if n < 10 then [DigitChar(n)] else NatToDecimal(n / 10) + [DigitChar(n % 10)]
  }

  function IntToDecimal(i: int): (r: string)
    ensures |r| >= 1
    ensures i >= 0 ==> IsDecimalDigit(r[0])
    ensures i < 0 ==> r[0] == '-'
  {
    if i < 0 then "-" + NatToDecimal(-i) else NatToDecimal(i)
  }

  // ---------------------------------------------------------------------
  // `parseInt(s)` with no radix: skip leading white space, read an
  // optional sign, read a `0x`/`0X` prefix as base 16 (else base 10), then
  // take the longest run of digits; no digit at all gives NaN (None).
  // ---------------------------------------------------------------------

  /** The white-space and line-terminator characters that `parseInt` skips. */
  predicate IsJsWhitespace(c: char) {
    var k := c as int;
    k == 0x09 || k == 0x0A || k == 0x0B || k == 0x0C || k == 0x0D || k == 0x20
    || k == 0xA0 || k == 0x1680 || (0x2000 <= k <= 0x200A) || k == 0x2028 || k == 0x2029
    || k == 0x202F || k == 0x205F || k == 0x3000 || k == 0xFEFF
  }

  function TrimStart(s: string): (r: string)
    ensures |r| <= |s| && r == s[|s| - |r|..]
    ensures r == [] || !IsJsWhitespace(r[0])
    ensures forall k :: 0 <= k < |s| - |r| ==> IsJsWhitespace(s[k])
  {
    if |s| > 0 && IsJsWhitespace(s[0]) then TrimStart(s[1..]) else s
  }

  /** The value of `c` as a digit of base 16 or less, if it is one. */
  function HexDigitValue(c: char): (r: Option<nat>)
    ensures r.Some? ==> r.value < 16
    ensures IsDecimalDigit(c) ==> r == Some(c as int - '0' as int)
  {
    if '0' <= c <= '9' then Some(c as int - '0' as int)
    else if 'a' <= c <= 'f' then Some(c as int - 'a' as int + 10)
    else if 'A' <= c <= 'F' then Some(c as int - 'A' as int + 10)
    else None
  }

  predicate IsDigitIn(c: char, radix: nat) {
    HexDigitValue(c).Some? && HexDigitValue(c).value < radix
  }

  /** Length of the longest prefix of `s` made of digits of `radix`. */
  function DigitRunLength(s: string, radix: nat): (n: nat)
    ensures n <= |s|
    ensures forall k :: 0 <= k < n ==> IsDigitIn(s[k], radix)
    ensures n < |s| ==> !IsDigitIn(s[n], radix)
  {
    if s == [] || !IsDigitIn(s[0], radix) then 0 else 1 + DigitRunLength(s[1..], radix)
  }

  /** The value of a digit character; 0 for anything else. */
  function DigitValue(c: char): (v: nat)
    ensures IsDecimalDigit(c) ==> v == c as int - '0' as int
  {
    match HexDigitValue(c)
    case Some(d) => d
    case None => 0
  }

  /** The number the digits denote, most significant first. */
  function DigitsValue(s: string, radix: nat): nat
  {
    if s == [] then 0
    else
      var high: nat := DigitsValue(s[..|s| - 1], radix);
      var low: nat := DigitValue(s[|s| - 1]);
      high * radix + low
  }

  function ParseInt(s: string): (r: Option<int>)
  {
    ParseSigned(TrimStart(s))
  }

  /** An optional sign, then the unsigned part. */
  function ParseSigned(t: string): Option<int>
  {
    if |t| > 0 && t[0] == '-' then
      match ParseUnsigned(t[1..])
      case Some(v) => Some(-(v as int))
      case None => None
    else if |t| > 0 && t[0] == '+' then ParseUnsigned(t[1..])
    else ParseUnsigned(t)
  }

  /** A `0x` or `0X` prefix selects base 16; anything else is read in base 10. */
  function ParseUnsigned(u: string): Option<nat>
  {
    if |u| >= 2 && u[0] == '0' && (u[1] == 'x' || u[1] == 'X') then ParseDigits(u[2..], 16)
    else ParseDigits(u, 10)
  }

  /** The value of the longest leading run of digits; none at all is NaN. */
  function ParseDigits(b: string, radix: nat): Option<nat>
  {
    var n := DigitRunLength(b, radix);
    if n == 0 then None else Some(DigitsValue(b[..n], radix))
  }

  // ---------------------------------------------------------------------
  // Properties of the decimal text and of parseInt.
  // ---------------------------------------------------------------------

  /** Reading the decimal text of `n` back gives `n`. */
  lemma {:induction false} DigitsValueOfDecimal(n: nat)
    ensures DigitsValue(NatToDecimal(n), 10) == n
  {
    var d := NatToDecimal(n);
    if n >= 10 {
      DigitsValueOfDecimal(n / 10);
      assert d[..|d| - 1] == NatToDecimal(n / 10);
    }
  }

  /** The digit run stops exactly at the end of the decimal text, whatever follows. */
  lemma DigitRunOfDecimal(n: nat, rest: string)
    requires rest == [] || !IsDecimalDigit(rest[0])
    ensures DigitRunLength(NatToDecimal(n) + rest, 10) == |NatToDecimal(n)|
  {
    var d := NatToDecimal(n);
    var s := d + rest;
    assert forall k :: 0 <= k < |d| ==> s[k] == d[k];
    assert |d| < |s| ==> s[|d|] == rest[0];
  }

  /** `rest` cannot extend a number: it is empty or starts with neither a
      decimal digit nor the `x` of a hexadecimal prefix. */
  predicate EndsNumber(rest: string) {
    rest == [] || (!IsDecimalDigit(rest[0]) && rest[0] != 'x' && rest[0] != 'X')
  }

  /** The unsigned reading of a decimal text followed by non-digits. */
  lemma ParseUnsignedOfDecimal(n: nat, rest: string)
    requires EndsNumber(rest)
    ensures ParseUnsigned(NatToDecimal(n) + rest) == Some(n)
  {
    var d := NatToDecimal(n);
    var u := d + rest;
    assert !(|u| >= 2 && u[0] == '0' && (u[1] == 'x' || u[1] == 'X')) by {
      if |d| >= 2 {
        assert u[1] == d[1];
      } else if |u| >= 2 {
        assert u[1] == rest[0];
      }
    }
    DigitRunOfDecimal(n, rest);
    assert u[..|d|] == d;
    DigitsValueOfDecimal(n);
  }

  /** A digit or a minus sign is not white space. */
  lemma LeadNotWhitespace(c: char)
    requires IsDecimalDigit(c) || c == '-'
    ensures !IsJsWhitespace(c)
  {
  }

  /** Text not starting with white space is left as it is. */
  lemma TrimStartKeeps(s: string)
    requires s != [] && !IsJsWhitespace(s[0])
    ensures TrimStart(s) == s
  {
  }

  /** In base 10 the digits are exactly the decimal digits. */
  lemma DecimalDigitsOnly(c: char)
    ensures IsDigitIn(c, 10) <==> IsDecimalDigit(c)
  {
  }

  lemma ParseSignedOfNegative(n: nat, rest: string)
    requires EndsNumber(rest)
    ensures ParseSigned("-" + (NatToDecimal(n) + rest)) == Some(-(n as int))
  {
    var u := NatToDecimal(n) + rest;
    var t := "-" + u;
    assert t[1..] == u;
    ParseUnsignedOfDecimal(n, rest);
  }

  lemma ParseSignedOfNonNegative(n: nat, rest: string)
    requires EndsNumber(rest)
    ensures ParseSigned(NatToDecimal(n) + rest) == Some(n)
  {
    var d := NatToDecimal(n);
    var t := d + rest;
    assert t[0] == d[0];
    ParseUnsignedOfDecimal(n, rest);
  }

  lemma ParseIntOfNegative(i: int, rest: string)
    requires i < 0 && EndsNumber(rest)
    ensures ParseInt(IntToDecimal(i) + rest) == Some(i)
  {
    var d := NatToDecimal(-i);
    var s := "-" + (d + rest);
    assert IntToDecimal(i) == "-" + d;
    assert IntToDecimal(i) + rest == s;
    LeadNotWhitespace('-');
    TrimStartKeeps(s);
    ParseSignedOfNegative(-i, rest);
    assert ParseInt(s) == ParseSigned(s);
  }

  lemma ParseIntOfNonNegative(n: nat, rest: string)
    requires EndsNumber(rest)
    ensures ParseInt(IntToDecimal(n) + rest) == Some(n)
  {
    var d := NatToDecimal(n);
    var s := d + rest;
    assert IntToDecimal(n) + rest == s;
    assert s[0] == d[0];
    LeadNotWhitespace(s[0]);
    TrimStartKeeps(s);
    ParseSignedOfNonNegative(n, rest);
  }

  /** `parseInt` reads back the decimal text of any integer, and ignores
      whatever non-digit text follows it ("12abc" reads as 12). */
  lemma ParseIntOfDecimal(i: int, rest: string)
    requires EndsNumber(rest)
    ensures ParseInt(IntToDecimal(i) + rest) == Some(i)
  {
    if i < 0 {
      ParseIntOfNegative(i, rest);
    } else {
      ParseIntOfNonNegative(i, rest);
    }
  }

  /** Leading white space never changes what `parseInt` reads. */
  lemma ParseIntSkipsWhitespace(c: char, s: string)
    requires IsJsWhitespace(c)
    ensures ParseInt([c] + s) == ParseInt(s)
  {
    assert ([c] + s)[1..] == s;
    assert TrimStart([c] + s) == TrimStart(s);
  }

  lemma UnsignedWithoutDigits(u: string)
    requires forall k :: 0 <= k < |u| ==> !IsDecimalDigit(u[k])
    ensures ParseUnsigned(u) == None
  {
    if u != [] {
      DecimalDigitsOnly(u[0]);
    }
  }

  /** Text with no decimal digit in it reads as NaN. */
  lemma ParseIntWithoutDigits(s: string)
    requires forall k :: 0 <= k < |s| ==> !IsDecimalDigit(s[k])
    ensures ParseInt(s) == None
  {
    var t := TrimStart(s);
    assert forall k :: 0 <= k < |t| ==> t[k] == s[|s| - |t| + k];
    if t != [] && (t[0] == '-' || t[0] == '+') {
      assert forall k :: 0 <= k < |t[1..]| ==> t[1..][k] == t[k + 1];
      UnsignedWithoutDigits(t[1..]);
    } else {
      UnsignedWithoutDigits(t);
    }
  }
}
