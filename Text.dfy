/** The Kotlin string operations the screens use: `isBlank`, `lowercase`,
    `replaceFirstChar { it.uppercase() }` and `contains(…, ignoreCase = true)`.
    Case mapping covers the ASCII letters only. */
module Text {

  /** `Char.isWhitespace` on the JVM: `Character.isWhitespace` or
      `Character.isSpaceChar`. */
  predicate IsWhitespace(c: char)
  {
    c == ' ' || ('\t' <= c <= '\r') || ('\U{1C}' <= c <= '\U{1F}')
    || c == '\U{A0}' || c == '\U{1680}' || ('\U{2000}' <= c <= '\U{200A}')
    || c == '\U{2028}' || c == '\U{2029}' || c == '\U{202F}' || c == '\U{205F}' || c == '\U{3000}'
  }

  /** `isBlank`: empty, or whitespace only. */
  predicate IsBlank(s: string)
  {
    forall i :: 0 <= i < |s| ==> IsWhitespace(s[i])
  }

  function LowerChar(c: char): (d: char)
    ensures 'A' <= c <= 'Z' ==> 'a' <= d <= 'z' && d as int - c as int == 32
    ensures !('A' <= c <= 'Z') ==> d == c
  {
    if 'A' <= c <= 'Z' then (c as int + 32) as char else c
  }

  function UpperChar(c: char): (d: char)
    ensures 'a' <= c <= 'z' ==> 'A' <= d <= 'Z' && c as int - d as int == 32
    ensures !('a' <= c <= 'z') ==> d == c
  {
    if 'a' <= c <= 'z' then (c as int - 32) as char else c
  }

  /** `lowercase()`. */
  function Lowercase(s: string): (r: string)
    ensures |r| == |s|
    ensures forall i :: 0 <= i < |s| ==> r[i] == LowerChar(s[i])
  {
    seq(|s|, i requires 0 <= i < |s| => LowerChar(s[i]))
  }

  /** `replaceFirstChar { it.uppercase() }`. */
  function CapitalizeFirst(s: string): (r: string)
    ensures |r| == |s|
    ensures s != [] ==> r[0] == UpperChar(s[0]) && r[1..] == s[1..]
  {
    if s == [] then s else [UpperChar(s[0])] + s[1..]
  }

  /** `t` occurs in `s` at position `i`. */
  predicate OccursAt(s: string, t: string, i: int)
  {
    0 <= i && i + |t| <= |s| && s[i..i + |t|] == t
  }

  /** Whether `t` occurs in `s` at `i` or later, by scanning. */
  function OccursFrom(s: string, t: string, i: nat): (b: bool)
    requires i <= |s|
    ensures b <==> exists k :: i <= k <= |s| && OccursAt(s, t, k)
    decreases |s| - i
  {
    if OccursAt(s, t, i) then true
    else if i == |s| then false
    else OccursFrom(s, t, i + 1)
  }

  /** `s.contains(t)`. */
  function Contains(s: string, t: string): (b: bool)
    ensures b <==> exists k :: 0 <= k <= |s| && OccursAt(s, t, k)
  {
    OccursFrom(s, t, 0)
  }

  /** `s.contains(t, ignoreCase = true)`. */
  function ContainsIgnoreCase(s: string, t: string): (b: bool)
  {
    Contains(Lowercase(s), Lowercase(t))
  }

  /** Every string contains the empty string. */
  lemma ContainsEmpty(s: string)
    ensures ContainsIgnoreCase(s, "")
  {
    assert OccursAt(Lowercase(s), Lowercase(""), 0);
  }

  /** A string contains itself, whatever its case. */
  lemma ContainsItself(s: string)
    ensures ContainsIgnoreCase(s, s)
  {
    assert OccursAt(Lowercase(s), Lowercase(s), 0);
  }

  /** The search ignores case: a query in other case finds the same. */
  lemma ContainsIgnoresQueryCase(s: string, t: string)
    ensures ContainsIgnoreCase(s, Lowercase(t)) == ContainsIgnoreCase(s, t)
  {
    assert Lowercase(Lowercase(t)) == Lowercase(t);
  }

  /** An occurrence anywhere inside a longer string is found. */
  lemma ContainsInside(pre: string, t: string, post: string)
    ensures ContainsIgnoreCase(pre + t + post, t)
  {
    var s := Lowercase(pre + t + post);
    assert s[|pre|..|pre| + |t|] == Lowercase(t);
    assert OccursAt(s, Lowercase(t), |pre|);
  }

  /** A query longer than the text is never found. */
  lemma LongerNeverContained(s: string, t: string)
    requires |t| > |s|
    ensures !ContainsIgnoreCase(s, t)
  {
  }
}
