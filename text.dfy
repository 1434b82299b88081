/** The Kotlin string rules the app relies on: `isBlank`, `contains`,
    `String.toInt()`, `Int.toString()` and string templates over nullable
    values. */
module Text {
  import opened Common

  /** The range of a Kotlin `Int`. */
  const IntMin: int := -0x8000_0000
  const IntMax: int := 0x7FFF_FFFF

  /** Kotlin's `Char.isWhitespace()`: Java whitespace or a Unicode space
      separator. */
  predicate IsWhitespace(c: char) {
    c == ' ' || c == '\t' || c == '\n' || c == '\r'
    || c == '\U{000B}' || c == '\U{000C}'
    || ('\U{001C}' <= c <= '\U{001F}')
    || c == '\U{00A0}' || c == '\U{1680}'
    || ('\U{2000}' <= c <= '\U{200A}')
    || c == '\U{2028}' || c == '\U{2029}' || c == '\U{202F}' || c == '\U{205F}' || c == '\U{3000}'
  }

  /** `s.isBlank()`: empty or only whitespace. */
  predicate IsBlank(s: string) {
    forall i :: 0 <= i < |s| ==> IsWhitespace(s[i])
  }

  /** A character above U+FFFF is a surrogate pair in a Kotlin string. */
  predicate IsSupplementary(c: char) {
    c as int > 0xFFFF
  }

  /** `s.length`: Kotlin counts UTF-16 code units, two for each character
      outside the Basic Multilingual Plane. */
  function Utf16Length(s: string): (n: nat)
    ensures |s| <= n <= 2 * |s|
  {
    if s == [] then 0 else (if IsSupplementary(s[0]) then 2 else 1) + Utf16Length(s[1..])
  }

  /** Without supplementary characters both lengths agree. */
  lemma {:induction false} Utf16LengthOfBmp(s: string)
    requires forall i :: 0 <= i < |s| ==> !IsSupplementary(s[i])
    ensures Utf16Length(s) == |s|
  {
    if s != [] {
      assert forall i :: 0 <= i < |s[1..]| ==> s[1..][i] == s[i + 1];
      Utf16LengthOfBmp(s[1..]);
    }
  }

  /** `s.isNullOrEmpty()` on a `String?`. */
  predicate IsNullOrEmpty(s: Option<string>) {
    s.None? || s.value == ""
  }

  /** `s.startsWith(p)`. */
  predicate IsPrefix(p: string, s: string) {
    |p| <= |s| && s[..|p|] == p
  }

  /** `text.contains(pattern)`: `pattern` occurs somewhere in `text`. */
  predicate Contains(text: string, pattern: string) {
    exists i: nat :: i <= |text| && OccursAt(text, pattern, i)
  }

  /** `pattern` occurs in `text` starting at index `i`. */
  predicate OccursAt(text: string, pattern: string, i: nat) {
    i + |pattern| <= |text| && text[i..i + |pattern|] == pattern
  }

  /** A text containing a string contains each of its prefixes. */
  lemma ContainsPrefix(text: string, a: string, b: string)
    requires Contains(text, a + b)
    ensures Contains(text, a)
  {
    var i: nat :| i <= |text| && OccursAt(text, a + b, i);
    assert text[i..i + |a|] == (a + b)[..|a|];
    assert OccursAt(text, a, i);
  }

  /** A one-character pattern occurs exactly where that character does. */
  lemma ContainsChar(text: string, c: char)
    ensures Contains(text, [c]) <==> exists i :: 0 <= i < |text| && text[i] == c
  {
    if Contains(text, [c]) {
      var i: nat :| i <= |text| && OccursAt(text, [c], i);
      assert text[i..i + 1][0] == text[i];
    }
    if exists i :: 0 <= i < |text| && text[i] == c {
      var i :| 0 <= i < |text| && text[i] == c;
      assert OccursAt(text, [c], i);
    }
  }

  /** The text a string template prints for a `String?`: `"${s}"`. */
  function Interpolate(s: Option<string>): (r: string)
    ensures s.None? ==> r == "null"
    ensures s.Some? ==> r == s.value
  {
    s.GetOr("null")
  }

  predicate IsDigit(c: char) {
    '0' <= c <= '9'
  }

  function DigitValue(c: char): nat
    requires IsDigit(c)
  {
    (c as int) - ('0' as int)
  }

  function DigitChar(d: nat): (c: char)
    requires d < 10
    ensures IsDigit(c) && DigitValue(c) == d
  {
    (('0' as int) + d) as char
  }

  predicate AllDigits(s: string) {
    forall i :: 0 <= i < |s| ==> IsDigit(s[i])
  }

  /** The value of a string of decimal digits, most significant first. */
  function DigitsValue(s: string): nat
    requires AllDigits(s)
  {
    if s == [] then 0 else 10 * DigitsValue(s[..|s| - 1]) + DigitValue(s[|s| - 1])
  }

  /** The decimal digits of `n`, without leading zeros. */
  function NatToString(n: nat): (s: string)
    ensures 0 < |s| && AllDigits(s) && DigitsValue(s) == n
  {
    if n < 10 then [DigitChar(n)]
    else
      var s := NatToString(n / 10) + [DigitChar(n % 10)];
      assert s[..|s| - 1] == NatToString(n / 10);
      s
  }

  /** Kotlin's `Int.toString()`, as used by `"${code}"`. */
  function IntToString(n: int): (s: string)
    ensures 0 < |s|
    ensures n < 0 <==> s[0] == '-'
  {
    if n < 0 then "-" + NatToString(-n) else NatToString(n)
  }

  /** Kotlin's `String.toInt()`: an optional `+` or `-` followed by at least
      one decimal digit, within the range of `Int`; `None` is the
      `NumberFormatException` it throws otherwise. */
  function ParseInt(s: string): (r: Option<int>)
    ensures r.Some? ==> IntMin <= r.value <= IntMax
    ensures r.Some? ==> 0 < |s| && !IsWhitespace(s[0])
  {
    if s == [] then None
    else
      var signed := s[0] == '-' || s[0] == '+';
      var digits := if signed then s[1..] else s;
      if digits == [] || !AllDigits(digits) then None
      else
        var magnitude := DigitsValue(digits);
        var v: int := if s[0] == '-' then -(magnitude as int) else magnitude;
        if IntMin <= v <= IntMax then Some(v) else None
  }

  /** A character that is neither a digit nor a leading sign makes the
      parse fail. */
  lemma ParseIntRejects(s: string, i: int)
    requires 0 <= i < |s| && !IsDigit(s[i])
    requires i > 0 || (s[i] != '-' && s[i] != '+')
    ensures ParseInt(s).None?
  {
    if (s[0] == '-' || s[0] == '+') && i > 0 {
      assert s[1..][i - 1] == s[i];
    }
  }

  /** Printing an `Int` and parsing it back gives the same `Int`. */
  lemma {:induction false} ParseIntToString(n: int)
    requires IntMin <= n <= IntMax
    ensures ParseInt(IntToString(n)) == Some(n)
  {
    var s := IntToString(n);
    if n < 0 {
      assert s[1..] == NatToString(-n);
    } else {
      assert IsDigit(s[0]);
    }
  }

  /** Different codes print differently, so messages built from them can be
      told apart. */
  lemma IntToStringInjective(a: int, b: int)
    requires IntMin <= a <= IntMax && IntMin <= b <= IntMax
    requires IntToString(a) == IntToString(b)
    ensures a == b
  {
    ParseIntToString(a);
    ParseIntToString(b);
  }
}
