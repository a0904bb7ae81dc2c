/**
 * `escapeRegex` of routes/campgrounds.js: every character of the class
 * `[-[\]{}()*+?.,\\^$|#\s]` gets a backslash in front of it, so that the
 * search text is matched literally by the regular expression built from it.
 */
module RegexEscape {

  /** ECMAScript's `\s`: WhiteSpace and LineTerminator code points. */
  predicate IsWhitespace(c: char)
  {
    var n := c as int;
    (0x09 <= n <= 0x0D) || n == 0x20 || n == 0xA0 || n == 0x1680 || (0x2000 <= n <= 0x200A) ||
    n == 0x2028 || n == 0x2029 || n == 0x202F || n == 0x205F || n == 0x3000 || n == 0xFEFF
  }

  /** The characters the source escapes. */
  predicate IsSpecial(c: char)
  {
    c in "-[]{}()*+?.,\\^$|#" || IsWhitespace(c)
  }

  function CountSpecial(s: string): nat
  {
    if s == [] then 0 else (if IsSpecial(s[0]) then 1 else 0) + CountSpecial(s[1..])
  }

  /** `text.replace(/[-[\]{}()*+?.,\\^$|#\s]/g, "\\$&")` */
  function Escape(text: string): (r: string)
    ensures |r| == |text| + CountSpecial(text)
  {
    if text == [] then []
    else (if IsSpecial(text[0]) then ['\\', text[0]] else [text[0]]) + Escape(text[1..])
  }

  /** Removes the backslash in front of each escaped character. */
  function Unescape(r: string): string
  {
    if r == [] then []
    else if r[0] == '\\' && |r| >= 2 then [r[1]] + Unescape(r[2..])
    else [r[0]] + Unescape(r[1..])
  }

  /** A pattern source in which every special character is escaped and every
      backslash escapes a special character: a regular expression that
      matches one literal string. */
  predicate IsLiteralPattern(r: string)
  {
    if r == [] then true
    else if r[0] == '\\' then |r| >= 2 && IsSpecial(r[1]) && IsLiteralPattern(r[2..])
    else !IsSpecial(r[0]) && IsLiteralPattern(r[1..])
  }

  /** Escaping yields a literal pattern, and deleting the inserted
      backslashes gives the input back. */
  lemma {:induction false} EscapeRoundTrip(s: string)
    ensures IsLiteralPattern(Escape(s))
    ensures Unescape(Escape(s)) == s
  {
    if s != [] {
      EscapeRoundTrip(s[1..]);
      var r := Escape(s);
      if IsSpecial(s[0]) {
        assert r == ['\\', s[0]] + Escape(s[1..]);
        assert r[2..] == Escape(s[1..]);
      } else {
        assert r == [s[0]] + Escape(s[1..]);
        assert r[1..] == Escape(s[1..]);
      }
    }
  }

  /** Conversely every literal pattern is the escaping of exactly one string:
      the one obtained by unescaping it. */
  lemma {:induction false} UnescapeRoundTrip(r: string)
    requires IsLiteralPattern(r)
    ensures Escape(Unescape(r)) == r
  {
    if r != [] {
      if r[0] == '\\' {
        UnescapeRoundTrip(r[2..]);
        assert Unescape(r) == [r[1]] + Unescape(r[2..]);
        assert r == [r[0], r[1]] + r[2..];
      } else {
        UnescapeRoundTrip(r[1..]);
        assert Unescape(r) == [r[0]] + Unescape(r[1..]);
        assert r == [r[0]] + r[1..];
      }
    }
  }

  /** Different search texts give different patterns. */
  lemma EscapeInjective(s: string, t: string)
    requires Escape(s) == Escape(t)
    ensures s == t
  {
    EscapeRoundTrip(s);
    EscapeRoundTrip(t);
  }

  /** A text with no special character is left unchanged. */
  lemma {:induction false} EscapeOrdinary(s: string)
    requires forall i :: 0 <= i < |s| ==> !IsSpecial(s[i])
    ensures Escape(s) == s
  {
    if s != [] {
      EscapeOrdinary(s[1..]);
      assert s == [s[0]] + s[1..];
    }
  }
}
