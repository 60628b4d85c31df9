/**
 * `escapeRegex` (the same one-liner sits in the vehicle-listing and the
 * property-category controllers) and the meaning of the literal patterns it
 * produces under MongoDB's case-insensitive `$regex`.
 */
module Patterns {
  import opened Wrappers
  import opened Strings

  /** The characters of the class `[.*+?^${}()|[\]\\]`. */
  predicate IsMeta(c: char) {
    c in ".*+?^${}()|[]\\"
  }

  function MetaCount(s: string): nat {
    if s == [] then 0 else (if IsMeta(s[0]) then 1 else 0) + MetaCount(s[1..])
  }

  /** What `escapeRegex` writes for one character (`"\\$&"` on a match). */
  function EscapeChar(c: char): string {
    if IsMeta(c) then ['\\', c] else [c]
  }

  /** `escapeRegex(s)`. */
  function Escape(s: string): string {
    if s == [] then [] else EscapeChar(s[0]) + Escape(s[1..])
  }

  /**
   * Reads a pattern made only of ordinary characters and backslash-escaped
   * metacharacters back into the literal text it matches; `None` for any
   * other pattern (a bare metacharacter, a dangling or ordinary escape).
   */
  function Unescape(p: string): Option<string> {
    if p == [] then Some([])
    else if p[0] == '\\' then
      if |p| >= 2 && IsMeta(p[1]) then
        match Unescape(p[2..])
        case Some(rest) => Some([p[1]] + rest)
        case None => None
      else None
    else if IsMeta(p[0]) then None
    else
      match Unescape(p[1..])
      case Some(rest) => Some([p[0]] + rest)
      case None => None
  }

  /** Text without metacharacters is its own escape. */
  lemma {:induction false} EscapePlain(s: string)
    requires forall i :: 0 <= i < |s| ==> !IsMeta(s[i])
    ensures Escape(s) == s
  {
    if s != [] {
      EscapePlain(s[1..]);
    }
  }

  lemma {:induction false} EscapeLength(s: string)
    ensures |Escape(s)| == |s| + MetaCount(s)
  {
    if s != [] {
      EscapeLength(s[1..]);
    }
  }

  lemma {:induction false} EscapeAppend(a: string, b: string)
    ensures Escape(a + b) == Escape(a) + Escape(b)
  {
    if a != [] {
      var ab := a + b;
      assert ab[0] == a[0] && ab[1..] == a[1..] + b;
      EscapeAppend(a[1..], b);
      calc {
        Escape(ab);
        EscapeChar(a[0]) + Escape(a[1..] + b);
        EscapeChar(a[0]) + (Escape(a[1..]) + Escape(b));
        (EscapeChar(a[0]) + Escape(a[1..])) + Escape(b);
      }
    } else {
      assert a + b == b;
    }
  }

  /**
   * Position by position: the escape of `s` is the escape of what precedes
   * `s[i]`, then `s[i]` with one backslash in front exactly when it is a
   * metacharacter, then the escape of the rest.
   */
  lemma EscapeAt(s: string, i: nat)
    requires i < |s|
    ensures Escape(s) == Escape(s[..i]) + EscapeChar(s[i]) + Escape(s[i + 1..])
  {
    var pre, tail := s[..i], s[i..];
    assert s == pre + tail;
    EscapeAppend(pre, tail);
    assert tail[0] == s[i] && tail[1..] == s[i + 1..];
  }

  /** Removing the inserted backslashes gives back the input. */
  lemma {:induction false} UnescapeEscape(s: string)
    ensures Unescape(Escape(s)) == Some(s)
  {
    if s != [] {
      UnescapeEscape(s[1..]);
      var e := Escape(s);
      if IsMeta(s[0]) {
        assert e[0] == '\\' && e[1] == s[0];
        assert e[2..] == Escape(s[1..]);
      } else {
        assert IsMeta('\\');
        assert e[0] == s[0] != '\\';
        assert e[1..] == Escape(s[1..]);
      }
      assert [s[0]] + s[1..] == s;
    }
  }

  /** Every literal pattern is the escape of the text it stands for. */
  lemma {:induction false} EscapeUnescape(p: string)
    requires Unescape(p).Some?
    ensures Escape(Unescape(p).value) == p
    decreases |p|
  {
    if p != [] {
      var t := Unescape(p).value;
      if p[0] == '\\' {
        EscapeUnescape(p[2..]);
        assert t[1..] == Unescape(p[2..]).value;
        assert p == [p[0], p[1]] + p[2..];
      } else {
        EscapeUnescape(p[1..]);
        assert t[1..] == Unescape(p[1..]).value;
        assert p == [p[0]] + p[1..];
      }
    }
  }

  /** So `escapeRegex` is injective: two texts with the same escape are equal. */
  lemma EscapeInjective(a: string, b: string)
    requires Escape(a) == Escape(b)
    ensures a == b
  {
    UnescapeEscape(a);
    UnescapeEscape(b);
  }

  /**
   * Whether `text` matches the case-insensitive pattern `pattern` (wrapped
   * in `^…$` when `anchored`), for the literal patterns whose meaning this
   * model knows; `None` for any other pattern.
   */
  function LiteralMatch(pattern: string, anchored: bool, text: string): Option<bool> {
    match Unescape(pattern)
    case None => None
    case Some(lit) => Some(if anchored then EqualsIgnoreCase(text, lit) else ContainsIgnoreCase(text, lit))
  }

  /**
   * The escaped pattern means the text itself: anchored, it matches exactly
   * the strings equal to `s` ignoring case; unanchored, those that contain
   * `s` ignoring case. Metacharacters in `s` are matched literally.
   */
  lemma EscapedPatternMatches(s: string, anchored: bool, text: string)
    ensures LiteralMatch(Escape(s), anchored, text)
         == Some(if anchored then EqualsIgnoreCase(text, s) else ContainsIgnoreCase(text, s))
  {
    UnescapeEscape(s);
  }
}
