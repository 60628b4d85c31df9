/**
 * The string built-ins the controllers lean on: `String.prototype.trim`,
 * `toLowerCase` (ASCII letters only), substring search, integer printing
 * (`String(n)`), `parseInt(s, 10)` and `Number(s)` restricted to integers.
 */
module Strings {
  import opened Wrappers

  /** ECMAScript WhiteSpace and LineTerminator code points: what `trim` strips and `parseInt` skips. */
  predicate IsSpace(c: char) {
    || c == '\t' || c == '\n' || c == '\U{000B}' || c == '\U{000C}' || c == '\r'
    || c == ' ' || c == '\U{00A0}' || c == '\U{1680}' || ('\U{2000}' <= c <= '\U{200A}')
    || c == '\U{2028}' || c == '\U{2029}' || c == '\U{202F}' || c == '\U{205F}'
    || c == '\U{3000}' || c == '\U{FEFF}'
  }

  /** Number of white-space characters at the front of `s`. */
  function LeadingSpaces(s: string): (k: nat)
    ensures k <= |s|
    ensures forall i :: 0 <= i < k ==> IsSpace(s[i])
    ensures k < |s| ==> !IsSpace(s[k])
  {
    if s == [] || !IsSpace(s[0]) then 0 else 1 + LeadingSpaces(s[1..])
  }

  /** Index where the run of white space at the end of `s` begins. */
  function TrailingStart(s: string): (k: nat)
    ensures k <= |s|
    ensures forall i :: k <= i < |s| ==> IsSpace(s[i])
    ensures 0 < k ==> !IsSpace(s[k - 1])
  {
    if s == [] || !IsSpace(s[|s| - 1]) then |s| else TrailingStart(s[..|s| - 1])
  }

  function TrimStart(s: string): string {
    s[LeadingSpaces(s)..]
  }

  predicate IsTrimmed(s: string) {
    s == [] || (!IsSpace(s[0]) && !IsSpace(s[|s| - 1]))
  }

  /** `s.trim()`: the longest slice of `s` that neither starts nor ends with white space. */
  function Trim(s: string): (r: string)
    ensures IsTrimmed(r)
    ensures |r| <= |s|
    ensures r == [] <==> forall i :: 0 <= i < |s| ==> IsSpace(s[i])
    ensures LeadingSpaces(s) + |r| <= |s| && r == s[LeadingSpaces(s)..LeadingSpaces(s) + |r|]
    ensures forall i :: 0 <= i < |s| && !(LeadingSpaces(s) <= i < LeadingSpaces(s) + |r|) ==> IsSpace(s[i])
  {
    var a := LeadingSpaces(s);
    var t := TrimStart(s);
    var b := TrailingStart(t);
    var r := t[..b];
    assert r != [] ==> r[0] == t[0];
    assert t != [] ==> s[a] == t[0];
    assert r == s[a..a + b];
    assert forall i :: a + b <= i < |s| ==> s[i] == t[i - a];
    r
  }

  lemma TrimOfTrimmed(s: string)
    requires IsTrimmed(s)
    ensures Trim(s) == s
  {
  }

  lemma TrimIdempotent(s: string)
    ensures Trim(Trim(s)) == Trim(s)
  {
    TrimOfTrimmed(Trim(s));
  }

  function LowerChar(c: char): char {
    if 'A' <= c <= 'Z' then (c as int + 32) as char else c
  }

  /** `s.toLowerCase()` on ASCII letters; every other character is kept. */
  function Lower(s: string): (r: string)
    ensures |r| == |s|
  {
    seq(|s|, i requires 0 <= i < |s| => LowerChar(s[i]))
  }

  lemma LowerIdempotent(s: string)
    ensures Lower(Lower(s)) == Lower(s)
  {
  }

  /** Lower-casing moves no white space, so it commutes with `trim`. */
  lemma {:induction false} TrimLowerCommute(s: string)
    ensures Trim(Lower(s)) == Lower(Trim(s))
  {
    var l := Lower(s);
    LeadingSpacesLower(s);
    var a := LeadingSpaces(s);
    var t := s[a..];
    LowerSlice(s, a, |s|);
    assert TrimStart(l) == Lower(t);
    TrailingStartLower(t);
    var b := TrailingStart(t);
    LowerSlice(t, 0, b);
    assert Trim(l) == Lower(t)[..b];
  }

  /** Lower-casing works position by position, so it commutes with slicing. */
  lemma LowerSlice(s: string, i: nat, j: nat)
    requires i <= j <= |s|
    ensures Lower(s)[i..j] == Lower(s[i..j])
  {
  }

  lemma {:induction false} LeadingSpacesLower(s: string)
    ensures LeadingSpaces(Lower(s)) == LeadingSpaces(s)
    decreases |s|
  {
    if s != [] && IsSpace(s[0]) {
      assert Lower(s)[1..] == Lower(s[1..]);
      LeadingSpacesLower(s[1..]);
    }
  }

  lemma {:induction false} TrailingStartLower(s: string)
    ensures TrailingStart(Lower(s)) == TrailingStart(s)
    decreases |s|
  {
    if s != [] && IsSpace(s[|s| - 1]) {
      assert Lower(s)[..|s| - 1] == Lower(s[..|s| - 1]);
      TrailingStartLower(s[..|s| - 1]);
    }
  }

  /** A lower-case ASCII letter, a digit or a minus sign. */
  predicate IsPlain(c: char) {
    'a' <= c <= 'z' || '0' <= c <= '9' || c == '-'
  }

  /** A word of plain characters is left alone by `toLowerCase()` and by `trim()`. */
  lemma TrimLowerOfPlain(s: string)
    requires forall i :: 0 <= i < |s| ==> IsPlain(s[i])
    ensures Lower(s) == s && Trim(s) == s
    ensures Trim(Lower(s)) == s
  {
    assert forall i :: 0 <= i < |s| ==> LowerChar(s[i]) == s[i] && !IsSpace(s[i]);
    assert Lower(s) == s;
    TrimOfTrimmed(s);
  }

  predicate EqualsIgnoreCase(a: string, b: string) {
    Lower(a) == Lower(b)
  }

  /** `needle` occurs in `hay` as a contiguous substring. */
  predicate Contains(hay: string, needle: string)
    decreases |hay|
  {
    needle <= hay || (hay != [] && Contains(hay[1..], needle))
  }

  lemma {:induction false} ContainsAt(hay: string, needle: string, i: nat)
    requires i + |needle| <= |hay| && hay[i..i + |needle|] == needle
    ensures Contains(hay, needle)
    decreases i
  {
    if i > 0 {
      assert hay[1..][i - 1..i - 1 + |needle|] == needle;
      ContainsAt(hay[1..], needle, i - 1);
    }
  }

  lemma {:induction false} ContainsWitness(hay: string, needle: string) returns (i: nat)
    requires Contains(hay, needle)
    ensures i + |needle| <= |hay| && hay[i..i + |needle|] == needle
    decreases |hay|
  {
    if needle <= hay {
      i := 0;
    } else {
      var j := ContainsWitness(hay[1..], needle);
      i := j + 1;
      assert hay[i..i + |needle|] == hay[1..][j..j + |needle|];
    }
  }

  predicate ContainsIgnoreCase(hay: string, needle: string) {
    Contains(Lower(hay), Lower(needle))
  }

  // ---- numbers ----

  predicate IsDigit(c: char) {
    '0' <= c <= '9'
  }

  predicate AllDigits(s: string) {
    forall i :: 0 <= i < |s| ==> IsDigit(s[i])
  }

  function DigitChar(d: nat): (c: char)
    requires d < 10
    ensures IsDigit(c)
  {
    ('0' as int + d) as char
  }

  /** Value of a string of decimal digits. */
  function DigitsValue(d: string): nat
    requires AllDigits(d)
  {
    if d == [] then 0 else DigitsValue(d[..|d| - 1]) * 10 + (d[|d| - 1] as int - '0' as int)
  }

  function NatToString(n: nat): string
    decreases n
  {
    if n < 10 then [DigitChar(n)] else NatToString(n / 10) + [DigitChar(n % 10)]
  }

  /** `String(n)` for an integer `n`. */
  function IntToString(n: int): string {
    if n < 0 then "-" + NatToString(-n) else NatToString(n)
  }

  lemma {:induction false} NatToStringDigits(n: nat)
    ensures NatToString(n) != [] && AllDigits(NatToString(n))
    ensures DigitsValue(NatToString(n)) == n
    decreases n
  {
    if n >= 10 {
      NatToStringDigits(n / 10);
      var s := NatToString(n);
      assert s[..|s| - 1] == NatToString(n / 10);
    }
  }

  /** `String(n)` is one character long exactly for the digits 0 to 9, and is then that digit. */
  lemma IntToStringShape(n: int)
    ensures IntToString(n) != []
    ensures IntToString(n)[0] == '-' || IsDigit(IntToString(n)[0])
    ensures forall i :: 0 <= i < |IntToString(n)| ==> IntToString(n)[i] == '-' || IsDigit(IntToString(n)[i])
    ensures |IntToString(n)| == 1 <==> 0 <= n < 10
    ensures 0 <= n < 10 ==> IntToString(n) == [DigitChar(n)]
  {
    var m: nat := if n < 0 then -n else n;
    NatToStringDigits(m);
    if m >= 10 {
      NatToStringDigits(m / 10);
    }
  }

  /** Length of the longest prefix of decimal digits. */
  function DigitPrefix(s: string): (k: nat)
    ensures k <= |s|
    ensures AllDigits(s[..k])
    ensures k < |s| ==> !IsDigit(s[k])
  {
    if s == [] || !IsDigit(s[0]) then 0
    else
      var k := 1 + DigitPrefix(s[1..]);
      assert s[..k] == [s[0]] + s[1..][..k - 1];
      k
  }

  function DropSign(t: string): string {
    if t != [] && (t[0] == '-' || t[0] == '+') then t[1..] else t
  }

  /**
   * `parseInt(s, 10)` read as an integer: leading white space skipped, an
   * optional sign, then the longest run of decimal digits; `None` is `NaN`.
   */
  function ParseInt(s: string): Option<int> {
    var t := TrimStart(s);
    var u := DropSign(t);
    var k := DigitPrefix(u);
    if k == 0 then None
    else
      var v: int := DigitsValue(u[..k]);
      Some(if t[0] == '-' then -v else v)
  }

  /**
   * `Number(s)` for the numerals this model reads: after trimming, the empty
   * string is 0 and an optionally signed run of decimal digits is its value.
   * `None` stands for `NaN` and for numerals outside the integer model.
   */
  function NumberOf(s: string): Option<int> {
    var t := Trim(s);
    if t == [] then Some(0)
    else
      var u := DropSign(t);
      if u != [] && AllDigits(u) then
        var v: int := DigitsValue(u);
        Some(if t[0] == '-' then -v else v)
      else None
  }

  /** `String(n)` is trimmed, and is the digits of `|n|` behind a minus sign exactly when `n` is negative. */
  lemma IntToStringParts(n: int)
    ensures var m: nat := if n < 0 then -n else n;
            var s := IntToString(n);
            && s != [] && IsTrimmed(s) && (s[0] == '-' <==> n < 0)
            && DropSign(s) == NatToString(m) && NatToString(m) != []
            && AllDigits(NatToString(m)) && DigitsValue(NatToString(m)) == m
  {
    var m: nat := if n < 0 then -n else n;
    NatToStringDigits(m);
    var d := NatToString(m);
    var s := IntToString(n);
    assert s[|s| - 1] == d[|d| - 1];
    assert IsDigit(s[|s| - 1]) && !IsSpace(s[|s| - 1]);
    assert !IsSpace(s[0]);
  }

  /** Printing an integer and reading it back with `parseInt` is the identity. */
  lemma ParseIntOfIntToString(n: int)
    ensures ParseInt(IntToString(n)) == Some(n)
  {
    var m: nat := if n < 0 then -n else n;
    IntToStringParts(n);
    var d := NatToString(m);
    var s := IntToString(n);
    assert TrimStart(s) == s;
    assert DigitPrefix(d) == |d|;
    assert d[..|d|] == d;
  }

  /** Printing an integer and reading it back with `Number` is the identity. */
  lemma NumberOfIntToString(n: int)
    ensures NumberOf(IntToString(n)) == Some(n)
  {
    IntToStringParts(n);
    TrimOfTrimmed(IntToString(n));
  }
}
