/** The string primitives the core relies on: JavaScript's `trim()`,
    `toLowerCase()`, `includes()` and the `\s` class of its regular
    expressions, restricted to ASCII (see README). */
module Text {

  /** `\s` and the characters `trim()` removes: space, tab, line feed,
      carriage return, vertical tab and form feed. */
  predicate IsWhitespace(c: char) {
    c == ' ' || c == '\t' || c == '\n' || c == '\r' || c == '\U{000B}' || c == '\U{000C}'
  }

  predicate NoWhitespace(s: string) {
    forall k | 0 <= k < |s| :: !IsWhitespace(s[k])
  }

  predicate AllWhitespace(s: string) {
    forall k | 0 <= k < |s| :: IsWhitespace(s[k])
  }

  /** Neither the first nor the last character is whitespace. */
  predicate IsTrimmed(s: string) {
    s == [] || (!IsWhitespace(s[0]) && !IsWhitespace(s[|s| - 1]))
  }

  /** Drops the leading whitespace (TrimStartShape states what it keeps). */
  function TrimStart(s: string): string {
    if s != [] && IsWhitespace(s[0]) then TrimStart(s[1..]) else s
  }

  /** Drops the trailing whitespace (TrimEndShape states what it keeps). */
  function TrimEnd(s: string): string {
    if s != [] && IsWhitespace(s[|s| - 1]) then TrimEnd(s[..|s| - 1]) else s
  }

  /** How many leading characters `trim()` drops. */
  function TrimOffset(s: string): nat {
    TrimStartShape(s);
    |s| - |TrimStart(s)|
  }

  /** `s.trim()`: it neither starts nor ends with whitespace; TrimShape
      states which infix of `s` it is. */
  function Trim(s: string): (r: string)
    ensures IsTrimmed(r)
  {
    TrimStartShape(s);
    TrimEndShape(TrimStart(s));
    TrimEnd(TrimStart(s))
  }

  /** The result of TrimStart is a suffix of `s`, what was dropped is
      whitespace, and the result does not start with whitespace. */
  lemma {:induction false} TrimStartShape(s: string)
    ensures var r := TrimStart(s);
      && |r| <= |s| && r == s[|s| - |r|..]
      && (r == [] || !IsWhitespace(r[0]))
      && forall k | 0 <= k < |s| - |r| :: IsWhitespace(s[k])
  {
    if s != [] && IsWhitespace(s[0]) {
      var t := s[1..];
      TrimStartShape(t);
      var r := TrimStart(t);
      assert t[|t| - |r|..] == s[|s| - |r|..];
      forall k | 0 <= k < |s| - |r|
        ensures IsWhitespace(s[k])
      {
        if k > 0 {
          assert s[k] == t[k - 1];
        }
      }
    }
  }

  /** The result of TrimEnd is a prefix of `s`, what was dropped is
      whitespace, and the result does not end with whitespace. */
  lemma {:induction false} TrimEndShape(s: string)
    ensures var r := TrimEnd(s);
      && |r| <= |s| && r == s[..|r|]
      && (r == [] || !IsWhitespace(r[|r| - 1]))
      && forall k | |r| <= k < |s| :: IsWhitespace(s[k])
  {
    if s != [] && IsWhitespace(s[|s| - 1]) {
      var t := s[..|s| - 1];
      TrimEndShape(t);
      var r := TrimEnd(t);
      assert t[..|r|] == s[..|r|];
      forall k | |r| <= k < |s|
        ensures IsWhitespace(s[k])
      {
        if k < |s| - 1 {
          assert s[k] == t[k];
        }
      }
    }
  }

  /** `trim()` keeps the infix of `s` that starts after the leading
      whitespace and ends before the trailing whitespace; every character
      outside it is whitespace. */
  lemma TrimShape(s: string)
    ensures var r := Trim(s);
      && TrimOffset(s) + |r| <= |s| && r == s[TrimOffset(s)..TrimOffset(s) + |r|]
      && (forall j | 0 <= j < TrimOffset(s) :: IsWhitespace(s[j]))
      && (forall j | TrimOffset(s) + |r| <= j < |s| :: IsWhitespace(s[j]))
  {
    var t := TrimStart(s);
    TrimStartShape(s);
    TrimEndShape(t);
    var off, r := TrimOffset(s), TrimEnd(t);
    assert off == |s| - |t| && r == Trim(s);
    InfixOfSuffix(s, off, r);
  }

  /** A prefix `r` of the suffix of `s` from `off` on is the infix of `s`
      from `off`, and the rest of the suffix is the rest of `s`. */
  lemma InfixOfSuffix(s: string, off: nat, r: string)
    requires off <= |s| && |r| <= |s| - off && r == s[off..][..|r|]
    requires forall k | |r| <= k < |s| - off :: IsWhitespace(s[off..][k])
    ensures r == s[off..off + |r|]
    ensures forall j | off + |r| <= j < |s| :: IsWhitespace(s[j])
  {
    forall j | off + |r| <= j < |s|
      ensures IsWhitespace(s[j])
    {
      assert s[j] == s[off..][j - off];
    }
  }

  /** `String.prototype.toLowerCase` on one character (ASCII letters only). */
  function LowerChar(c: char): char {
    if 'A' <= c <= 'Z' then (c as int + 32) as char else c
  }

  function ToLower(s: string): string {
    seq(|s|, k requires 0 <= k < |s| => LowerChar(s[k]))
  }

  /** A character above the Basic Multilingual Plane, which UTF-16 stores
      as a surrogate pair. */
  predicate IsAstral(c: char) {
    c as int > 0xFFFF
  }

  /** JavaScript's `length`: the number of UTF-16 code units, one per
      character and two per astral character. */
  function Utf16Length(s: string): (n: nat)
    ensures |s| <= n <= 2 * |s|
    ensures n == 0 <==> s == []
  {
    if s == [] then 0 else (if IsAstral(s[0]) then 2 else 1) + Utf16Length(s[1..])
  }

  predicate OccursAt(s: string, sub: string, i: int)
    requires 0 <= i <= |s| - |sub|
  {
    s[i..i + |sub|] == sub
  }

  /** `s.includes(sub)`. */
  predicate Contains(s: string, sub: string) {
    exists i | 0 <= i <= |s| - |sub| :: OccursAt(s, sub, i)
  }

  // ---------------------------------------------------------------------
  // Properties of the primitives

  /** Trimming changes nothing on a string that is already trimmed. */
  lemma TrimOfTrimmed(s: string)
    requires IsTrimmed(s)
    ensures Trim(s) == s
  {
    assert TrimStart(s) == s;
    assert TrimEnd(s) == s;
  }

  /** Leading whitespace in front of a trimmed string is all `trim()`
      removes. */
  lemma TrimDropsPadding(s: string)
    requires IsTrimmed(s)
    ensures Trim(" " + s) == s
  {
    assert (" " + s)[1..] == s;
    assert TrimStart(" " + s) == TrimStart(s);
    TrimOfTrimmed(s);
  }

  /** `trim()` is idempotent. */
  lemma TrimIdempotent(s: string)
    ensures Trim(Trim(s)) == Trim(s)
  {
    TrimOfTrimmed(Trim(s));
  }

  /** `trim()` yields the empty string exactly for blank input. */
  lemma TrimEmptyIffBlank(s: string)
    ensures Trim(s) == [] <==> AllWhitespace(s)
  {
    TrimShape(s);
    var r := Trim(s);
    if r != [] {
      assert r[0] == s[TrimOffset(s)];
    }
  }

  /** Every character that is not whitespace survives trimming. */
  lemma TrimKeepsVisible(s: string, k: int)
    requires 0 <= k < |s| && !IsWhitespace(s[k])
    ensures s[k] in Trim(s)
  {
    TrimShape(s);
    var r := Trim(s);
    assert r[k - TrimOffset(s)] == s[k];
  }

  /** Lowering never turns a character into whitespace or out of it. */
  lemma LowerCharKeepsWhitespace(c: char)
    ensures IsWhitespace(LowerChar(c)) <==> IsWhitespace(c)
  {
  }

  lemma ToLowerIdempotent(s: string)
    ensures ToLower(ToLower(s)) == ToLower(s)
  {
  }

  lemma ToLowerKeepsTrimmed(s: string)
    requires IsTrimmed(s)
    ensures IsTrimmed(ToLower(s))
  {
    if s != [] {
      LowerCharKeepsWhitespace(s[0]);
      LowerCharKeepsWhitespace(s[|s| - 1]);
    }
  }

  lemma ToLowerKeepsNoWhitespace(s: string)
    requires NoWhitespace(s)
    ensures NoWhitespace(ToLower(s))
  {
    forall k | 0 <= k < |s| ensures !IsWhitespace(ToLower(s)[k]) {
      LowerCharKeepsWhitespace(s[k]);
    }
  }

  /** Without astral characters, `length` is the number of characters. */
  lemma {:induction false} Utf16LengthOfPlain(s: string)
    requires forall k | 0 <= k < |s| :: !IsAstral(s[k])
    ensures Utf16Length(s) == |s|
  {
    if s != [] {
      assert forall k | 0 <= k < |s[1..]| :: s[1..][k] == s[k + 1];
      Utf16LengthOfPlain(s[1..]);
    }
  }

  /** Lower-casing keeps `length`: it maps ASCII letters to ASCII letters. */
  lemma {:induction false} ToLowerKeepsUtf16Length(s: string)
    ensures Utf16Length(ToLower(s)) == Utf16Length(s)
  {
    if s != [] {
      assert ToLower(s)[1..] == ToLower(s[1..]);
      ToLowerKeepsUtf16Length(s[1..]);
    }
  }
}
