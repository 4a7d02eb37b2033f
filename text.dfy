/**
 * The few operations on Python `str` values that the activation core uses:
 * case mapping, substring tests, splitting on a separator, `str(int)` and
 * `int(str)`. Case mapping covers the ASCII letters only.
 */
module Text {
  import opened Wrappers

  predicate IsLowerLetter(c: char) { 'a' <= c <= 'z' }
  predicate IsUpperLetter(c: char) { 'A' <= c <= 'Z' }
  predicate IsLetter(c: char) { IsLowerLetter(c) || IsUpperLetter(c) }
  predicate IsDigit(c: char) { '0' <= c <= '9' }

  function UpperChar(c: char): char
  {
    if IsLowerLetter(c) then (c as int - 32) as char else c
  }

  function LowerChar(c: char): char
  {
    if IsUpperLetter(c) then (c as int + 32) as char else c
  }

  /** `s.upper()` */
  function Upper(s: string): (r: string)
    ensures |r| == |s|
  {
    seq(|s|, i requires 0 <= i < |s| => UpperChar(s[i]))
  }

  /** `s.lower()` */
  function Lower(s: string): (r: string)
    ensures |r| == |s|
  {
    seq(|s|, i requires 0 <= i < |s| => LowerChar(s[i]))
  }

  /** Upper-casing twice is upper-casing once: a key normalised with `.upper()` is stable. */
  lemma UpperIdempotent(s: string)
    ensures Upper(Upper(s)) == Upper(s)
  {
  }

  /** `s.startswith(p)` */
  predicate StartsWith(s: string, p: string)
  {
    |p| <= |s| && s[..|p|] == p
  }

  /** `s.endswith(p)` */
  predicate EndsWith(s: string, p: string)
  {
    |p| <= |s| && s[|s| - |p|..] == p
  }

  /** `sub` occurs in `s` starting at position `i`. */
  predicate OccursAt(s: string, sub: string, i: int)
  {
    0 <= i && i + |sub| <= |s| && s[i..i + |sub|] == sub
  }

  /** `sub in s` for two strings */
  predicate Contains(s: string, sub: string)
  {
    exists i | 0 <= i <= |s| :: OccursAt(s, sub, i)
  }

  /** A witness position proves a substring test. */
  lemma ContainsAt(s: string, sub: string, i: nat)
    requires i + |sub| <= |s| && s[i..i + |sub|] == sub
    ensures Contains(s, sub)
  {
    assert OccursAt(s, sub, i);
  }

  /** Every character of a contained string occurs in the containing one;
      used to refute substring tests on fixed method names. */
  lemma {:induction false} ContainsChar(s: string, sub: string, c: char)
    requires Contains(s, sub) && c in sub
    ensures c in s
  {
    var i: int :| 0 <= i <= |s| && OccursAt(s, sub, i);
    assert 0 <= i && i + |sub| <= |s| && s[i..i + |sub|] == sub;
    var k: int :| 0 <= k < |sub| && sub[k] == c;
    assert s[i + k] == s[i..i + |sub|][k];
  }

  /** A string lacking a character of `sub` does not contain `sub`. */
  lemma NotContained(s: string, sub: string, c: char)
    requires c in sub && c !in s
    ensures !Contains(s, sub)
  {
    if Contains(s, sub) {
      ContainsChar(s, sub, c);
    }
  }

  /** `s.split(sep)[0]`: the text before the first separator. */
  function FirstSegment(s: string, sep: char): (r: string)
    ensures |r| <= |s| && r == s[..|r|]
    ensures sep !in r
    ensures r == s || s[|r|] == sep
  {
    if s == [] || s[0] == sep then [] else [s[0]] + FirstSegment(s[1..], sep)
  }

  /** `s.split(sep)[-1]`: the text after the last separator. */
  function LastSegment(s: string, sep: char): (r: string)
    ensures |r| <= |s| && r == s[|s| - |r|..]
    ensures sep !in r
    ensures r == s || s[|s| - |r| - 1] == sep
  {
    if s == [] || s[|s| - 1] == sep then [] else LastSegment(s[..|s| - 1], sep) + [s[|s| - 1]]
  }

  /** `s.isupper()`: some cased character and no lower-case one. */
  predicate PyIsUpper(s: string)
  {
    (exists i :: 0 <= i < |s| && IsUpperLetter(s[i])) && forall i :: 0 <= i < |s| ==> !IsLowerLetter(s[i])
  }

  /** `s.isalpha()`: non-empty and letters only. */
  predicate PyIsAlpha(s: string)
  {
    |s| > 0 && forall i :: 0 <= i < |s| ==> IsLetter(s[i])
  }

  /** `" ".join(parts)` with any separator */
  function Join(parts: seq<string>, sep: string): string
  {
    if parts == [] then "" else if |parts| == 1 then parts[0] else parts[0] + sep + Join(parts[1..], sep)
  }

  /** `" " * n` */
  function Spaces(n: nat): (r: string)
    ensures |r| == n && forall i :: 0 <= i < n ==> r[i] == ' '
  {
    if n == 0 then "" else " " + Spaces(n - 1)
  }

  function DigitChar(d: nat): char
    requires d < 10
  {
    ('0' as int + d) as char
  }

  /** `str(n)` for a natural number */
  function NatToString(n: nat): (r: string)
    ensures |r| > 0 && forall i :: 0 <= i < |r| ==> IsDigit(r[i])
  {
    if n < 10 then [DigitChar(n)] else NatToString(n / 10) + [DigitChar(n % 10)]
  }

  /** `str(i)` for a Python int */
  function IntToString(i: int): string
  {
    if i < 0 then "-" + NatToString(-i) else NatToString(i)
  }

  /** Python's white space (`str.isspace`, which `int()` also strips): the
      ASCII control range tab to carriage return, the four separators
      U+001C to U+001F, space, and the Unicode spaces and line separators. */
  predicate IsSpace(c: char)
  {
    || '\U{9}' <= c <= '\U{D}' || '\U{1C}' <= c <= '\U{20}'
    || c == '\U{85}' || c == '\U{A0}' || c == '\U{1680}'
    || '\U{2000}' <= c <= '\U{200A}' || c == '\U{2028}' || c == '\U{2029}'
    || c == '\U{202F}' || c == '\U{205F}' || c == '\U{3000}'
  }

  function StripLeft(s: string): (r: string)
    ensures |r| <= |s| && r == s[|s| - |r|..]
    ensures r == [] || !IsSpace(r[0])
  {
    if s != [] && IsSpace(s[0]) then StripLeft(s[1..]) else s
  }

  function StripRight(s: string): (r: string)
    ensures |r| <= |s| && r == s[..|r|]
    ensures r == [] || !IsSpace(r[|r| - 1])
  {
    if s != [] && IsSpace(s[|s| - 1]) then StripRight(s[..|s| - 1]) else s
  }

  /** Digits with single underscores between them, as Python's `int()` accepts. */
  predicate DigitGroups(s: string)
  {
    |s| > 0 && IsDigit(s[0]) &&
    (|s| == 1 ||
     (if s[1] == '_' then |s| > 2 && DigitGroups(s[2..]) else DigitGroups(s[1..])))
  }

  function DropUnderscores(s: string): (r: string)
  {
    if s == [] then [] else (if s[0] == '_' then [] else [s[0]]) + DropUnderscores(s[1..])
  }

  predicate AllDigits(s: string)
  {
    forall i :: 0 <= i < |s| ==> IsDigit(s[i])
  }

  lemma {:induction false} DropUnderscoresDigits(s: string)
    requires DigitGroups(s)
    ensures AllDigits(DropUnderscores(s))
    decreases |s|
  {
    if |s| > 1 {
      if s[1] == '_' {
        DropUnderscoresDigits(s[2..]);
        assert DropUnderscores(s[1..]) == DropUnderscores(s[2..]);
      } else {
        DropUnderscoresDigits(s[1..]);
      }
    }
  }

  /** The value of a string of decimal digits. */
  function DigitsValue(d: string): nat
    requires AllDigits(d)
  {
    if d == [] then 0 else DigitsValue(d[..|d| - 1]) * 10 + (d[|d| - 1] as int - '0' as int)
  }

  /** `int(s)` for a string: surrounding white space, an optional sign, and
      ASCII decimal digits with single underscores between them. `None`
      stands for the `ValueError` of any other text; non-ASCII decimal
      digits, which Python also reads, give `None` here too. */
  function ParseInt(s: string): Option<int>
  {
    ParseSigned(StripRight(StripLeft(s)))
  }

  /** What `int()` reads once the white space is stripped: an optional sign
      and the digit groups. */
  function ParseSigned(t: string): Option<int>
  {
    var negative := t != [] && t[0] == '-';
    var body := if t != [] && (t[0] == '-' || t[0] == '+') then t[1..] else t;
    if DigitGroups(body) then
      DropUnderscoresDigits(body);
      var v: int := DigitsValue(DropUnderscores(body));
      Some(if negative then -v else v)
    else None
  }

  lemma {:induction false} AllDigitsGroups(d: string)
    requires |d| > 0 && AllDigits(d)
    ensures DigitGroups(d) && DropUnderscores(d) == d
  {
    if |d| > 1 {
      AllDigitsGroups(d[1..]);
    }
  }

  lemma {:induction false} NatToStringValue(n: nat)
    ensures DigitsValue(NatToString(n)) == n
  {
    if n >= 10 {
      NatToStringValue(n / 10);
      var r := NatToString(n);
      assert r[..|r| - 1] == NatToString(n / 10);
    }
  }

  /** `int(str(i)) == i`: reading back a number that was written out gives the number. */
  lemma {:induction false} ParseIntOfIntToString(i: int)
    ensures ParseInt(IntToString(i)) == Some(i)
  {
    var d := NatToString(if i < 0 then -i else i);
    var s := IntToString(i);
    assert !IsSpace(s[0]) && !IsSpace(s[|s| - 1]);
    assert StripLeft(s) == s;
    assert StripRight(s) == s;
    AllDigitsGroups(d);
    NatToStringValue(if i < 0 then -i else i);
    if i < 0 {
      assert s[1..] == d;
    } else {
      assert s == d;
      assert s[0] != '-' && s[0] != '+';
    }
  }

  /** Any of Python's white space before a number's text is stripped, the
      Unicode spaces (a no-break space, the separators U+001C to U+001F)
      as well as ASCII ones. */
  lemma ParseIntSkipsSpace(c: char, i: int)
    requires IsSpace(c)
    ensures ParseInt([c] + IntToString(i)) == Some(i)
  {
    var s := IntToString(i);
    assert ([c] + s)[1..] == s;
    assert StripLeft([c] + s) == StripLeft(s);
    ParseIntOfIntToString(i);
  }

  /** Python's `<` on strings: code point by code point, a proper prefix first. */
  predicate LexLess(a: string, b: string)
  {
    if a == [] then b != []
    else if b == [] then false
    else if a[0] != b[0] then a[0] < b[0]
    else LexLess(a[1..], b[1..])
  }

  lemma {:induction false} LexIrreflexive(a: string)
    ensures !LexLess(a, a)
  {
    if a != [] {
      LexIrreflexive(a[1..]);
    }
  }

  lemma {:induction false} LexTotal(a: string, b: string)
    ensures a == b || LexLess(a, b) || LexLess(b, a)
  {
    if a != [] && b != [] && a[0] == b[0] {
      LexTotal(a[1..], b[1..]);
      if a[1..] == b[1..] {
        assert a == [a[0]] + a[1..] && b == [b[0]] + b[1..];
      }
    }
  }

  lemma {:induction false} LexTransitive(a: string, b: string, c: string)
    requires LexLess(a, b) && LexLess(b, c)
    ensures LexLess(a, c)
  {
    if a != [] && a[0] == b[0] && b[0] == c[0] {
      LexTransitive(a[1..], b[1..], c[1..]);
    }
  }
}
