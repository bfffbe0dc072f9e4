/**
 * The JavaScript string built-ins the gateway relies on, over Dafny strings, whose characters are
 * Unicode scalar values rather than JavaScript's UTF-16 code units:
 * `String.prototype.trim`, `String.prototype.toLowerCase` (ASCII letters only; other characters
 * are kept as they are, where JavaScript would lowercase every letter),
 * the first piece of `String.prototype.split`, and the `[0-9]` character class.
 */
module JsStrings {

  predicate IsDigit(c: char) {
    '0' <= c <= '9'
  }

  /** WhiteSpace and LineTerminator code points of ECMAScript, the ones `trim` removes. */
  predicate IsWhitespace(c: char) {
    c == '\t' || c == '\n' || c == '\U{000B}' || c == '\U{000C}' || c == '\r' || c == ' '
    || c == '\U{00A0}' || c == '\U{1680}' || ('\U{2000}' <= c <= '\U{200A}')
    || c == '\U{2028}' || c == '\U{2029}' || c == '\U{202F}' || c == '\U{205F}'
    || c == '\U{3000}' || c == '\U{FEFF}'
  }

  function LowerChar(c: char): char {
    if 'A' <= c <= 'Z' then (c as int + 32) as char else c
  }

  /** `s.toLowerCase()`, restricted to the ASCII letters. */
  function Lower(s: string): (r: string)
    ensures |r| == |s|
    ensures forall i :: 0 <= i < |s| ==> r[i] == LowerChar(s[i])
  {
    seq(|s|, i requires 0 <= i < |s| => LowerChar(s[i]))
  }

  /** Leading whitespace removed. */
  function TrimStart(s: string): (r: string)
    ensures |r| <= |s|
  {
    if s != [] && IsWhitespace(s[0]) then TrimStart(s[1..]) else s
  }

  /** Trailing whitespace removed. */
  function TrimEnd(s: string): (r: string)
    ensures |r| <= |s|
  {
    if s != [] && IsWhitespace(s[|s| - 1]) then TrimEnd(s[..|s| - 1]) else s
  }

  /** What `TrimStart` leaves is a suffix that starts with no whitespace, and all it drops is whitespace. */
  lemma {:induction false} TrimStartShape(s: string)
    ensures var r := TrimStart(s);
      && r == s[|s| - |r|..]
      && (r == [] || !IsWhitespace(r[0]))
      && forall i :: 0 <= i < |s| - |r| ==> IsWhitespace(s[i])
    decreases |s|
  {
    if s != [] && IsWhitespace(s[0]) {
      TrimStartShape(s[1..]);
    }
  }

  /** What `TrimEnd` leaves is a prefix that ends with no whitespace, and all it drops is whitespace. */
  lemma {:induction false} TrimEndShape(s: string)
    ensures var r := TrimEnd(s);
      && r == s[..|r|]
      && (r == [] || !IsWhitespace(r[|r| - 1]))
      && forall i :: |r| <= i < |s| ==> IsWhitespace(s[i])
    decreases |s|
  {
    if s != [] && IsWhitespace(s[|s| - 1]) {
      TrimEndShape(s[..|s| - 1]);
    }
  }

  /** `s.trim()` */
  function Trim(s: string): (r: string)
    ensures r == [] || (!IsWhitespace(r[0]) && !IsWhitespace(r[|r| - 1]))
  {
    TrimEndShape(s);
    TrimStartShape(TrimEnd(s));
    TrimStart(TrimEnd(s))
  }

  /** `s.split(c)[0]`: the text before the first `c`, or all of `s` when it has none. */
  function TakeUntil(s: string, c: char): (r: string)
    ensures r <= s && c !in r
    ensures |r| < |s| ==> s[|r|] == c
  {
    if s == [] || s[0] == c then [] else [s[0]] + TakeUntil(s[1..], c)
  }

  lemma LowerIdempotent(s: string)
    ensures Lower(Lower(s)) == Lower(s)
  {
  }

  lemma LowerKeepsWhitespace(c: char)
    ensures IsWhitespace(LowerChar(c)) == IsWhitespace(c)
  {
  }

  lemma {:induction false} TrimStartLower(s: string)
    ensures TrimStart(Lower(s)) == Lower(TrimStart(s))
    decreases |s|
  {
    if s != [] {
      LowerKeepsWhitespace(s[0]);
      assert Lower(s)[1..] == Lower(s[1..]);
      if IsWhitespace(s[0]) {
        TrimStartLower(s[1..]);
      }
    }
  }

  lemma {:induction false} TrimEndLower(s: string)
    ensures TrimEnd(Lower(s)) == Lower(TrimEnd(s))
    decreases |s|
  {
    if s != [] {
      LowerKeepsWhitespace(s[|s| - 1]);
      assert Lower(s)[..|s| - 1] == Lower(s[..|s| - 1]);
      if IsWhitespace(s[|s| - 1]) {
        TrimEndLower(s[..|s| - 1]);
      }
    }
  }

  /** Trimming and ASCII lowercasing commute, so either order normalises an id the same way. */
  lemma TrimLowerCommute(s: string)
    ensures Trim(Lower(s)) == Lower(Trim(s))
  {
    TrimEndLower(s);
    TrimStartLower(TrimEnd(s));
  }

  /** A string with no whitespace at either end is its own trim. */
  lemma TrimmedIsFixed(s: string)
    requires s == [] || (!IsWhitespace(s[0]) && !IsWhitespace(s[|s| - 1]))
    ensures Trim(s) == s
  {
  }

  lemma TrimIdempotent(s: string)
    ensures Trim(Trim(s)) == Trim(s)
  {
    TrimmedIsFixed(Trim(s));
  }

  /** The piece before the first `c` of `a + [c] + b` is `a` when `a` has no `c`. */
  lemma {:induction false} TakeUntilSplit(a: string, c: char, b: string)
    requires c !in a
    ensures TakeUntil(a + [c] + b, c) == a
    decreases |a|
  {
    if a != [] {
      assert (a + [c] + b)[1..] == a[1..] + [c] + b;
      TakeUntilSplit(a[1..], c, b);
    }
  }

  lemma TakeUntilAbsent(s: string, c: char)
    requires c !in s
    ensures TakeUntil(s, c) == s
  {
  }
}
