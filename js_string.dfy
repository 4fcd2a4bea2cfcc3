/**
 * The two String.prototype methods the narrowing examples call: trim(), which
 * strips ECMAScript white space and line terminators from both ends, and
 * toUpperCase(), here restricted to the ASCII letters.
 */
module JsString {

  /**
   * The ECMAScript WhiteSpace and LineTerminator code points: TAB, LF, VT, FF,
   * CR, SPACE, NBSP, OGHAM SPACE MARK, EN QUAD through HAIR SPACE, LINE and
   * PARAGRAPH SEPARATOR, NARROW NBSP, MEDIUM MATHEMATICAL SPACE, IDEOGRAPHIC
   * SPACE and the byte order mark.
   */
  const WhitespaceCodePoints: set<int> :=
    {0x09, 0x0A, 0x0B, 0x0C, 0x0D, 0x20, 0xA0, 0x1680,
     0x2000, 0x2001, 0x2002, 0x2003, 0x2004, 0x2005, 0x2006, 0x2007, 0x2008, 0x2009, 0x200A,
     0x2028, 0x2029, 0x202F, 0x205F, 0x3000, 0xFEFF}

  /** What trim() removes, tested by code-point ranges. */
  function IsWhitespace(c: char): (r: bool)
    ensures r <==> c as int in WhitespaceCodePoints
  {
    var k := c as int;
    (0x09 <= k <= 0x0D) || k == 0x20 || k == 0xA0 || k == 0x1680
    || (0x2000 <= k <= 0x200A) || k == 0x2028 || k == 0x2029
    || k == 0x202F || k == 0x205F || k == 0x3000 || k == 0xFEFF
  }

  predicate AllWhitespace(t: string) {
    forall k :: 0 <= k < |t| ==> IsWhitespace(t[k])
  }

  /** Neither end of t is white space. */
  predicate IsTrimmed(t: string) {
    t == [] || (!IsWhitespace(t[0]) && !IsWhitespace(t[|t| - 1]))
  }

  /** s is m at offset i, with only white space before and after it. */
  predicate Surrounds(s: string, i: nat, m: string) {
    i + |m| <= |s| && s[i..i + |m|] == m
    && AllWhitespace(s[..i]) && AllWhitespace(s[i + |m|..])
  }

  /** Drops leading white space. */
  function TrimStart(s: string): (r: string)
    ensures |r| <= |s| && r == s[|s| - |r|..]
    ensures AllWhitespace(s[..|s| - |r|])
    ensures r == [] || !IsWhitespace(r[0])
    decreases |s|
  {
    if s != [] && IsWhitespace(s[0]) then
      var r := TrimStart(s[1..]);
      var before := s[..|s| - |r|];
      assert forall k :: 1 <= k < |before| ==> before[k] == s[1..][..|s| - 1 - |r|][k - 1];
      r
    else
      s
  }

  /** Drops trailing white space. */
  function TrimEnd(s: string): (r: string)
    ensures |r| <= |s| && r == s[..|r|]
    ensures AllWhitespace(s[|r|..])
    ensures r == [] || !IsWhitespace(r[|r| - 1])
    decreases |s|
  {
    if s != [] && IsWhitespace(s[|s| - 1]) then
      var r := TrimEnd(s[..|s| - 1]);
      var after := s[|r|..];
      assert forall k :: 0 <= k < |after| - 1 ==> after[k] == s[..|s| - 1][|r|..][k];
      r
    else
      s
  }

  /** String.prototype.trim. */
  function Trim(s: string): (r: string)
    ensures IsTrimmed(r)
    ensures Surrounds(s, |s| - |TrimStart(s)|, r)
  {
    var t := TrimStart(s);
    var r := TrimEnd(t);
    SurroundsPrefixOfSuffix(s, t, r);
    r
  }

  /** A prefix r of a suffix t of s, with white space outside both, is a core of s. */
  lemma SurroundsPrefixOfSuffix(s: string, t: string, r: string)
    requires |t| <= |s| && t == s[|s| - |t|..] && AllWhitespace(s[..|s| - |t|])
    requires |r| <= |t| && r == t[..|r|] && AllWhitespace(t[|r|..])
    ensures Surrounds(s, |s| - |t|, r)
  {
  }

  /** The white-space-free core of a string is unique. */
  lemma SurroundsUnique(s: string, i: nat, m: string, j: nat, r: string)
    requires Surrounds(s, i, m) && IsTrimmed(m)
    requires Surrounds(s, j, r) && IsTrimmed(r)
    ensures r == m
  {
  }

  /**
   * Trim is characterised without reference to how it scans: whenever s is a
   * core m with white space around it and m has no white space at either end,
   * trim() returns exactly m.
   */
  lemma TrimCharacterization(s: string, i: nat, m: string)
    requires Surrounds(s, i, m) && IsTrimmed(m)
    ensures Trim(s) == m
  {
    SurroundsUnique(s, i, m, |s| - |TrimStart(s)|, Trim(s));
  }

  /** Trimming twice is trimming once. */
  lemma TrimIdempotent(s: string)
    ensures Trim(Trim(s)) == Trim(s)
  {
  }

  predicate IsLowerAscii(c: char) {
    'a' <= c <= 'z'
  }

  /** toUpperCase on one character, ASCII letters only. */
  function UpperChar(c: char): (u: char)
    ensures !IsLowerAscii(u)
    ensures IsLowerAscii(c) ==> u as int == c as int - 32
    ensures !IsLowerAscii(c) ==> u == c
  {
    if IsLowerAscii(c) then (c as int - 32) as char else c
  }

  /** String.prototype.toUpperCase (ASCII letters only). */
  function ToUpper(s: string): (r: string)
    ensures |r| == |s|
    ensures forall i :: 0 <= i < |s| ==> r[i] == UpperChar(s[i])
    ensures forall i :: 0 <= i < |r| ==> !IsLowerAscii(r[i])
  {
    if s == [] then [] else [UpperChar(s[0])] + ToUpper(s[1..])
  }

  /** Upper-casing twice is upper-casing once. */
  lemma ToUpperIdempotent(s: string)
    ensures ToUpper(ToUpper(s)) == ToUpper(s)
  {
  }
}
