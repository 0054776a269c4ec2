/** The string operations the chat dispatcher and the offline fallback use to
    classify free text: JavaScript's `toLowerCase`, `includes` and the
    blank test `!s.trim()`. */
module Text {

  /** Lower-cases one character; letters outside A-Z are left as they are. */
  function LowerChar(c: char): (d: char)
    ensures 'A' <= c <= 'Z' ==> 'a' <= d <= 'z'
    ensures !('A' <= c <= 'Z') ==> d == c
    ensures !('A' <= d <= 'Z')
  {
    if 'A' <= c <= 'Z' then (c as int - 'A' as int + 'a' as int) as char else c
  }

  /** `s.toLowerCase()`, character by character. */
  function Lower(s: string): (r: string)
    ensures |r| == |s|
    ensures forall i :: 0 <= i < |s| ==> r[i] == LowerChar(s[i])
  {
    seq(|s|, i requires 0 <= i < |s| => LowerChar(s[i]))
  }

  /** `sub` occurs in `s` starting at position `i`. */
  predicate OccursAt(s: string, sub: string, i: nat)
  {
    i + |sub| <= |s| && s[i..i + |sub|] == sub
  }

  /** `s.includes(sub)`: `sub` occurs in `s` at some position. */
  predicate Contains(s: string, sub: string)
  {
    exists i: nat | i <= |s| :: OccursAt(s, sub, i)
  }

  /** An occurrence of `outer` carries every piece of it that starts at
      `offset`: whatever contains "use template" contains "template". */
  lemma ContainsPart(s: string, outer: string, offset: nat, inner: string)
    requires offset + |inner| <= |outer|
    requires outer[offset..offset + |inner|] == inner
    requires Contains(s, outer)
    ensures Contains(s, inner)
  {
    var i: nat :| i <= |s| && OccursAt(s, outer, i);
    forall k | 0 <= k < |inner|
      ensures s[i + offset + k] == inner[k]
    {
      assert s[i + offset + k] == s[i..i + |outer|][offset + k];
    }
    assert OccursAt(s, inner, i + offset);
  }

  /** The characters `String.prototype.trim` removes: the ECMAScript
      WhiteSpace and LineTerminator code points. */
  predicate IsWhitespace(c: char)
  {
    c == '\t' || c == '\n' || c == '\U{000B}' || c == '\U{000C}' || c == '\r' ||
    c == ' ' || c == '\U{00A0}' || c == '\U{1680}' || ('\U{2000}' <= c <= '\U{200A}') ||
    c == '\U{2028}' || c == '\U{2029}' || c == '\U{202F}' || c == '\U{205F}' ||
    c == '\U{3000}' || c == '\U{FEFF}'
  }

  /** `!s.trim()`: the string is empty once its leading and trailing
      whitespace is removed, i.e. it consists of whitespace only. */
  predicate IsBlank(s: string)
  {
    forall i :: 0 <= i < |s| ==> IsWhitespace(s[i])
  }
}
